/** What holds over all runs of a node: redeploys are isolated from one another,
    the started flag follows the commands, packets are counted, and a stopped
    node falls silent. */
module NodeSafety {
  import opened Configuration
  import opened Routing
  import opened Runtime
  import opened Multisets
  import opened NodeMachine
  import Tables

  // ---- Redeploy isolation and lifetime ----

  /** In every reachable state a queued DoRoute points into the router it holds,
      that router exists, every replaced router is stopped with all its
      generators, and every component refers to the router it lives in. */
  lemma Isolation(es: seq<Event>, n: NodeState)
    requires Runs(NEW_NODE, es, n)
    ensures |n.routers| > 0
    ensures forall t :: t in n.pool && t.DoRoute? ==>
              && t.inst.router == t.router && t.router < |n.routers| && t.inst.name in n.routers[t.router].entries
    ensures forall g: nat, comp :: g < |n.routers| && comp in n.routers[g].entries ==>
              && Real(n.routers[g], comp)
              && CompAt(n.routers[g], comp).router == g && CompAt(n.routers[g], comp).self == InstPtr(g, comp)
              && (g < Current(n) ==> !n.routers[g].started && !CompAt(n.routers[g], comp).running)
  {
    NewNodeInv();
    RunsKeepInv(NEW_NODE, es, n);
    forall t | t in n.pool && t.DoRoute?
      ensures t.inst.router == t.router && t.router < |n.routers| && t.inst.name in n.routers[t.router].entries
    {
      assert TaskOk(n.routers, t);
    }
    forall g: nat, comp | g < |n.routers| && comp in n.routers[g].entries
      ensures EntryOk(g, n.routers[g], comp)
    {
      assert RouterOk(g, n.routers[g]);
    }
  }

  /** A task of a replaced router sends nothing, hands nothing to any component,
      posts at most a task of its own router, and does not touch the current one. */
  lemma ReplacedTasksInert(n: NodeState, t: Task, sample: Data)
    requires Inv(n) && t in n.pool && RouterOf(t) != Current(n)
    ensures Sent(n, Run(t, sample)) == []
    ensures CurrentRouter(Step(n, Run(t, sample))) == CurrentRouter(n)
    ensures var posted := TaskEffect(n, t, sample).posted;
            && Step(n, Run(t, sample)).pool == n.pool - multiset{t} + posted
            && (forall x :: x in posted ==> x.DoRoute? && x.router == RouterOf(t))
            && (!t.Process? ==> posted == multiset{}) && |posted| <= 1
  {
    assert TaskOk(n.routers, t);
    var g := RouterOf(t);
    assert RouterOk(g, n.routers[g]) && !n.routers[g].started;
    if !t.DoRoute? {
      assert EntryOk(g, n.routers[g], t.target.name);
    }
  }

  /** Once no DoRoute holds a replaced router it is gone for good. */
  lemma ReleasedForGood(n: NodeState, e: Event, g: RouterId)
    requires Inv(n) && Enabled(n, e) && g < Current(n) && !Alive(Current(n), n.pool, g)
    ensures |Step(n, e).routers| > 0
    ensures g < Current(Step(n, e)) && !Alive(Current(Step(n, e)), Step(n, e).pool, g)
  {
    hide RouterOk, Confined;
    RoutersGrow(n, e);
    var id, r := Current(n), CurrentRouter(n);
    match e {
      case Run(t, sample) =>
        ReleasedByTask(n, t, sample, g);
      case Receive(dest, port, payload) =>
        RouteConfined(id, r, dest, port, payload);
        ReleasedByEffect(n, RouteEffect(id, r, dest, port, payload), g);
      case Start(samples) =>
        StartConfined(id, r, samples);
        ReleasedByEffect(n, StartEffect(r, samples), g);
      case Stop =>
        StopConfined(id, r);
        assert Step(n, e).pool == n.pool;
      case Deploy(p, samples) =>
        ReleasedByDeploy(n, e, g);
    }
  }

  lemma ReleasedByEffect(n: NodeState, e: Effect, g: RouterId)
    requires Inv(n) && Confined(Current(n), CurrentRouter(n), e)
    requires g < Current(n) && !Alive(Current(n), n.pool, g)
    ensures !Alive(Current(n), AfterEffect(n, e).pool, g)
  {
    hide RouterOk, SameTables;
    forall x | x in n.pool + e.posted && x.DoRoute?
      ensures x.router != g
    {
      if x !in n.pool {
        assert PostedOk(Current(n), CurrentRouter(n), x);
      }
    }
  }

  /** A component whose router is gone cannot post anything any more. */
  lemma GonePostsNothing(n: NodeState, t: Task, sample: Data)
    requires Inv(n) && t in n.pool && !Alive(Current(n), n.pool, RouterOf(t))
    ensures TaskEffect(n, t, sample).posted == multiset{}
  {
    var g := RouterOf(t);
    assert TaskOk(n.routers, t) && RouterOk(g, n.routers[g]);
    assert !t.DoRoute?;
    assert EntryOk(g, n.routers[g], t.target.name);
    assert !Alive(Current(n), n.pool - multiset{t}, g);
  }

  lemma ReleasedByTask(n: NodeState, t: Task, sample: Data, g: RouterId)
    requires Inv(n) && t in n.pool && g < Current(n) && !Alive(Current(n), n.pool, g)
    ensures !Alive(Current(n), AfterTask(n, t, sample).pool, g)
  {
    var posted := TaskEffect(n, t, sample).posted;
    if RouterOf(t) == g {
      GonePostsNothing(n, t, sample);
    } else {
      TaskConfined(n, t, sample);
      forall x | x in posted && x.DoRoute?
        ensures x.router != g
      {
        assert PostedOk(RouterOf(t), n.routers[RouterOf(t)], x);
      }
    }
  }

  lemma ReleasedByDeploy(n: NodeState, e: Event, g: RouterId)
    requires Inv(n) && e.Deploy? && Enabled(n, e) && g < Current(n) && !Alive(Current(n), n.pool, g)
    ensures !Alive(|n.routers|, Step(n, e).pool, g)
  {
    var id := |n.routers|;
    Tables.DeployedFresh(id, e.packet);
    StartConfined(id, Tables.Deployed(id, e.packet), e.samples);
    var n' := Step(n, e);
    forall x | x in n'.pool && x.DoRoute?
      ensures x.router != g
    {
      if x !in n.pool {
        assert PostedOk(id, Tables.Deployed(id, e.packet), x);
      }
    }
  }

  // ---- The started flag ----

  /** Whether the last Start or Stop of a run was a Start. */
  predicate LastCommand(es: seq<Event>, before: bool) {
    if es == [] then before else
      match es[|es| - 1]
      case Start(_) => true
      case Stop => false
      case _ => LastCommand(es[..|es| - 1], before)
  }

  lemma {:induction false} LastCommandHead(es: seq<Event>, before: bool)
    requires es != []
    ensures LastCommand(es, before)
         == LastCommand(es[1..], if es[0].Start? then true else if es[0].Stop? then false else before)
    decreases |es|
  {
    if |es| > 1 {
      LastCommandHead(es[..|es| - 1], before);
      assert es[..|es| - 1][1..] == es[1..][..|es| - 2];
    }
  }

  lemma StepFlag(n: NodeState, e: Event)
    requires Inv(n) && Enabled(n, e)
    ensures |Step(n, e).routers| > 0
    ensures CurrentRouter(Step(n, e)).started
         == if e.Start? then true else if e.Stop? then false else CurrentRouter(n).started
  {
    hide RouterOk, TaskOk;
    match e {
      case Run(t, sample) => TaskConfined(n, t, sample);
      case Deploy(p, samples) => FreshUnstarted(|n.routers|, p);
      case _ =>
    }
  }

  /** Redeploying never changes whether a node is started: that is decided by the
      last Start or Stop alone. */
  lemma {:induction false} StartedFollowsCommands(n: NodeState, es: seq<Event>, n': NodeState)
    requires Inv(n) && Runs(n, es, n')
    ensures |n'.routers| > 0 && CurrentRouter(n').started == LastCommand(es, CurrentRouter(n).started)
    decreases |es|
  {
    hide Inv, Step;
    RunsKeepInv(n, es, n');
    InvNonempty(n);
    InvNonempty(n');
    if es != [] {
      StepFlag(n, es[0]);
      StepKeepsInv(n, es[0]);
      StartedFollowsCommands(Step(n, es[0]), es[1..], n');
      LastCommandHead(es, CurrentRouter(n).started);
    }
  }

  lemma InvNonempty(n: NodeState)
    requires Inv(n)
    ensures |n.routers| > 0
  {
  }

  // ---- In-packet counters ----

  /** How many of a run's events execute a Process task of one component. */
  function Executed(es: seq<Event>, p: InstPtr): nat {
    if es == [] then 0 else
      (if es[0].Run? && es[0].task.Process? && es[0].task.target == p then 1 else 0) + Executed(es[1..], p)
  }

  function CountOf(n: NodeState, p: InstPtr): Word
    requires PtrOk(n.routers, p) && Real(n.routers[p.router], p.name)
  {
    CompAt(n.routers[p.router], p.name).inCount
  }

  lemma InvPtr(n: NodeState, p: InstPtr)
    requires Inv(n) && PtrOk(n.routers, p)
    ensures Real(n.routers[p.router], p.name)
  {
    assert RouterOk(p.router, n.routers[p.router]) && EntryOk(p.router, n.routers[p.router], p.name);
  }

  lemma StepCounts(n: NodeState, e: Event, p: InstPtr)
    requires Inv(n) && Enabled(n, e) && PtrOk(n.routers, p)
    ensures var n' := Step(n, e);
            && PtrOk(n'.routers, p) && Real(n.routers[p.router], p.name) && Real(n'.routers[p.router], p.name)
            && CountOf(n', p) == Inc(CountOf(n, p), Executed([e], p))
  {
    InvPtr(n, p);
    IncNone(CountOf(n, p));
    if e.Run? {
      TaskCounts(n, e.task, e.sample, p);
    } else {
      QuietCounts(n, e, p);
    }
  }

  lemma QuietCounts(n: NodeState, e: Event, p: InstPtr)
    requires Inv(n) && Enabled(n, e) && PtrOk(n.routers, p) && !e.Run?
    ensures var n' := Step(n, e);
            && PtrOk(n'.routers, p) && Real(n.routers[p.router], p.name) && Real(n'.routers[p.router], p.name)
            && CountOf(n', p) == CountOf(n, p)
  {
    InvPtr(n, p);
    OkValid(Current(n), CurrentRouter(n));
    hide RouterOk, TaskOk, FirstTurns, Tables.Deployed, RoutesAt;
  }

  lemma TaskCounts(n: NodeState, t: Task, sample: Data, p: InstPtr)
    requires Inv(n) && t in n.pool && PtrOk(n.routers, p)
    ensures var n' := AfterTask(n, t, sample);
            && PtrOk(n'.routers, p) && Real(n.routers[p.router], p.name) && Real(n'.routers[p.router], p.name)
            && CountOf(n', p) == if t.Process? && t.target == p then Inc(CountOf(n, p), 1) else CountOf(n, p)
  {
    InvPtr(n, p);
    assert TaskOk(n.routers, t);
  }

  /** A component's counter moves by exactly the number of its executed Process
      tasks, modulo its width, over any run with any redeploys. */
  lemma {:induction false} CounterCountsExecutions(n: NodeState, es: seq<Event>, n': NodeState, p: InstPtr)
    requires Inv(n) && Runs(n, es, n') && PtrOk(n.routers, p)
    ensures PtrOk(n'.routers, p) && Real(n.routers[p.router], p.name) && Real(n'.routers[p.router], p.name)
    ensures CountOf(n', p) == Inc(CountOf(n, p), Executed(es, p))
    decreases |es|
  {
    hide Inv, Step;
    InvPtr(n, p);
    if es == [] {
      IncNone(CountOf(n, p));
    } else {
      StepCounts(n, es[0], p);
      StepKeepsInv(n, es[0]);
      CounterCountsExecutions(Step(n, es[0]), es[1..], n', p);
      IncInc(CountOf(n, p), Executed([es[0]], p), Executed(es[1..], p));
    }
  }

  // ---- Stop quiesces ----

  /** Task steps still owed to a task on a stopped node. */
  function StepsOwed(t: Task): nat {
    if t.Process? then 2 else 1
  }

  ghost function Owed(pool: multiset<Task>): nat {
    Sum(StepsOwed, pool)
  }

  predicate Quiet(e: Event) {
    !e.Start? && !e.Deploy?
  }

  function TaskRuns(es: seq<Event>): nat {
    if es == [] then 0 else (if es[0].Run? then 1 else 0) + TaskRuns(es[1..])
  }

  lemma StoppedEffect(n: NodeState, t: Task, sample: Data)
    requires Inv(n) && t in n.pool && !CurrentRouter(n).started
    ensures TaskEffect(n, t, sample).sent == []
    ensures var posted := TaskEffect(n, t, sample).posted;
            posted == multiset{} || (t.Process? && exists x: Task :: x.DoRoute? && posted == multiset{x})
  {
    assert TaskOk(n.routers, t);
    var g := RouterOf(t);
    assert RouterOk(g, n.routers[g]) && !n.routers[g].started;
    if !t.DoRoute? {
      assert EntryOk(g, n.routers[g], t.target.name);
    }
  }

  lemma StoppedTask(n: NodeState, t: Task, sample: Data)
    requires Inv(n) && t in n.pool && !CurrentRouter(n).started
    ensures Sent(n, Run(t, sample)) == []
    ensures var n' := AfterTask(n, t, sample);
            && Owed(n'.pool) + 1 <= Owed(n.pool)
            && (forall x: Task :: x.Process? ==> n'.pool[x] <= n.pool[x])
  {
    hide Inv, TaskEffect;
    StoppedEffect(n, t, sample);
    var posted := TaskEffect(n, t, sample).posted;
    var rest := n.pool - multiset{t};
    SumRemove(StepsOwed, n.pool, t);
    SumUnion(StepsOwed, rest, posted);
    SumOne(StepsOwed, t);
    if posted != multiset{} {
      var x: Task :| x.DoRoute? && posted == multiset{x};
      SumOne(StepsOwed, x);
    }
  }

  lemma StoppedStep(n: NodeState, e: Event)
    requires Inv(n) && Enabled(n, e) && Quiet(e) && !CurrentRouter(n).started
    ensures Sent(n, e) == []
    ensures var n' := Step(n, e);
            && Owed(n'.pool) + TaskRuns([e]) <= Owed(n.pool)
            && (forall x: Task :: x.Process? ==> n'.pool[x] <= n.pool[x])
  {
    match e {
      case Run(t, sample) => StoppedTask(n, t, sample);
      case Receive(_, _, _) => assert Step(n, e).pool == n.pool;
      case Stop => assert Step(n, e).pool == n.pool;
    }
  }

  /** All packets a run sends, in order. */
  ghost function SentBy(n: NodeState, es: seq<Event>): seq<Message>
    decreases |es|
  {
    if es == [] || !Inv(n) || !Enabled(n, es[0]) then [] else Sent(n, es[0]) + SentBy(Step(n, es[0]), es[1..])
  }

  /** Stop quiesces any graph, cyclic or not. Until the next Start or redeploy a
      stopped node sends no packet and posts no Process task, whatever arrives,
      and its pool is empty after at most two steps for every queued Process and
      one for every other queued task. */
  lemma {:induction false} StopQuiesces(n: NodeState, es: seq<Event>, n': NodeState)
    requires Inv(n) && !CurrentRouter(n).started && Runs(n, es, n')
    requires forall e :: e in es ==> Quiet(e)
    ensures SentBy(n, es) == []
    ensures forall t: Task :: t.Process? ==> n'.pool[t] <= n.pool[t]
    ensures TaskRuns(es) + Owed(n'.pool) <= Owed(n.pool)
    ensures TaskRuns(es) == Owed(n.pool) ==> n'.pool == multiset{}
    decreases |es|
  {
    hide Inv, Step;
    if es != [] {
      InvNonempty(n);
      assert es[0] in es;
      StoppedStep(n, es[0]);
      StepKeepsInv(n, es[0]);
      StepFlag(n, es[0]);
      StopQuiesces(Step(n, es[0]), es[1..], n');
    }
    SumPositive(StepsOwed, n'.pool);
  }

  /** The bound in the terms of the pool: twice the Process tasks plus the others. */
  lemma OwedCounts(processes: multiset<Task>, others: multiset<Task>)
    requires forall t :: t in processes ==> t.Process?
    requires forall t :: t in others ==> !t.Process?
    ensures Owed(processes + others) == 2 * |processes| + |others|
  {
    SumUnion(StepsOwed, processes, others);
    SumConstant(StepsOwed, processes, 2);
    SumConstant(StepsOwed, others, 1);
  }
}
