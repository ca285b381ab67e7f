/** On an acyclic graph with no generator running, every order of executing tasks,
    receiving packets and stopping nodes comes to an end. */
module Drain {
  import opened Configuration
  import opened Runtime
  import opened Multisets
  import opened NodeMachine
  import opened NodeSafety
  import opened SliceProperties
  import opened Deployment
  import opened Routing
  import opened Network
  import opened Refinement
  import opened Lifecycle
  import opened Paths
  import C = Central

  // ---- No generator is running ----

  /** No generator of a started router has a turn queued. */
  ghost predicate Calm(n: NodeState) {
    |n.routers| > 0 && CurrentRouter(n).started ==>
      forall t: Task :: t in n.pool && t.Generate? ==> RouterOf(t) != Current(n)
  }

  ghost predicate NoneTurning(s: NetState) {
    forall k :: 0 <= k < |s.nodes| ==> Calm(s.nodes[k])
  }

  ghost predicate NoneRunning(s: NetState) {
    forall k, comp :: 0 <= k < |s.nodes| && |s.nodes[k].routers| > 0 && Real(CurrentRouter(s.nodes[k]), comp) ==>
      !CompAt(CurrentRouter(s.nodes[k]), comp).running
  }

  /** A turn queued at a started router is that of a running generator. */
  lemma NoneRunningNoneTurning(s: NetState)
    requires AllInv(s) && NoneRunning(s)
    ensures NoneTurning(s)
  {
    forall k | 0 <= k < |s.nodes|
      ensures Calm(s.nodes[k])
    {
      var n := s.nodes[k];
      if |n.routers| > 0 && CurrentRouter(n).started {
        forall t: Task | t in n.pool && t.Generate?
          ensures RouterOf(t) != Current(n)
        {
          assert TaskOk(n.routers, t) && RouterOk(Current(n), CurrentRouter(n));
        }
      }
    }
  }

  /** No turn of a current router is among the work. */
  ghost predicate NoTurns(w: multiset<C.Work>) {
    forall comp :: C.Turn(comp) !in w
  }

  /** Task steps owed to the tasks of replaced routers. */
  function OwedOld(current: nat, t: Task): nat {
    if RouterOf(t) == current then 0 else if t.Process? then 2 else 1
  }

  ghost function PoolOld(current: nat, pool: multiset<Task>): nat {
    Sum(t => OwedOld(current, t), pool)
  }

  lemma PoolOldUnion(current: nat, a: multiset<Task>, b: multiset<Task>)
    ensures PoolOld(current, a + b) == PoolOld(current, a) + PoolOld(current, b)
  {
    SumUnion(t => OwedOld(current, t), a, b);
  }

  lemma PoolOldOne(current: nat, t: Task)
    ensures PoolOld(current, multiset{t}) == OwedOld(current, t) && PoolOld(current, multiset{}) == 0
  {
    SumOne(t => OwedOld(current, t), t);
  }

  lemma PoolOldNone(current: nat, pool: multiset<Task>)
    requires forall t :: t in pool ==> RouterOf(t) == current
    ensures PoolOld(current, pool) == 0
  {
    SumConstant(t => OwedOld(current, t), pool, 0);
  }

  ghost function NodeOld(n: NodeState): nat {
    if |n.routers| == 0 then 0 else PoolOld(Current(n), n.pool)
  }

  lemma CalmWork(n: NodeState)
    requires |n.routers| > 0 && CurrentRouter(n).started
    ensures Calm(n) <==> NoTurns(NodeWork(n))
  {
    var f := t => WorkOf(Current(n), t);
    if Calm(n) {
      forall comp
        ensures C.Turn(comp) !in NodeWork(n)
      {
        if C.Turn(comp) in NodeWork(n) {
          ImageMember(f, n.pool, C.Turn(comp));
        }
      }
    } else {
      var t: Task :| t in n.pool && t.Generate? && RouterOf(t) == Current(n);
      ImageRemove(f, n.pool, t);
      assert C.Turn(t.target.name) in NodeWork(n);
    }
  }

  // ---- What is left to do ----

  /** What a node has left to do: on a started node all its work can lead to and what
      its replaced routers are owed, on a stopped one just the tasks in its pool. */
  ghost function NodeLeft(g: seq<Connection>, n: NodeState): nat {
    if |n.routers| == 0 then 0
    else if CurrentRouter(n).started then Weight(g, NodeWork(n)) + NodeOld(n)
    else Owed(n.pool)
  }

  ghost function NodesLeft(g: seq<Connection>, nodes: seq<NodeState>): nat {
    if nodes == [] then 0 else NodesLeft(g, nodes[..|nodes| - 1]) + NodeLeft(g, nodes[|nodes| - 1])
  }

  /** The steps a network has left: those of its nodes, those the packets in flight
      can lead to, and their arrivals. */
  ghost function Left(config: Config, s: NetState): nat {
    NodesLeft(config.connections, s.nodes) + Weight(config.connections, FlightWork(s.flight)) + |s.flight|
  }

  /** Executions, arrivals and stops: no start, no redeploy. */
  predicate Draining(e: NetEvent) {
    e.Local? ==> e.event.Run? || e.event.Stop?
  }

  predicate Running(e: NetEvent) {
    e.Local? ==> e.event.Run?
  }

  /** The event processes an input of a component of the current router. */
  predicate Delivers(n: NodeState, e: NetEvent) {
    e.Local? && e.event.Run? && e.event.task.Process? && |n.routers| > 0 && RouterOf(e.event.task) == Current(n)
  }

  lemma {:induction false} NodesLeftUpdate(g: seq<Connection>, nodes: seq<NodeState>, k: nat, n: NodeState)
    requires k < |nodes|
    ensures NodesLeft(g, nodes[k := n]) == NodesLeft(g, nodes) - NodeLeft(g, nodes[k]) + NodeLeft(g, n)
  {
    hide NodeLeft;
    var init := nodes[..|nodes| - 1];
    if k == |nodes| - 1 {
      assert nodes[k := n][..|nodes| - 1] == init;
    } else {
      NodesLeftUpdate(g, init, k, n);
      assert nodes[k := n][..|nodes| - 1] == init[k := n];
    }
  }

  lemma {:induction false} NodesPathsUpdate(g: seq<Connection>, nodes: seq<NodeState>, k: nat, n: NodeState)
    requires k < |nodes|
    ensures PathSum(g, NodesWork(nodes[k := n]))
         == PathSum(g, NodesWork(nodes)) - PathSum(g, NodeWork(nodes[k])) + PathSum(g, NodeWork(n))
  {
    hide PathSum, NodeWork;
    var init, last := nodes[..|nodes| - 1], nodes[|nodes| - 1];
    SumsUnion(g, NodesWork(init), NodeWork(last));
    if k == |nodes| - 1 {
      assert nodes[k := n][..|nodes| - 1] == init;
      SumsUnion(g, NodesWork(init), NodeWork(n));
    } else {
      NodesPathsUpdate(g, init, k, n);
      assert nodes[k := n][..|nodes| - 1] == init[k := n];
      SumsUnion(g, NodesWork(init[k := n]), NodeWork(last));
    }
  }

  // ---- Replaced routers ----

  lemma OldEffect(n: NodeState, t: Task, sample: Data)
    requires Inv(n) && t in n.pool
    ensures var posted := TaskEffect(n, t, sample).posted;
            if RouterOf(t) == Current(n) then forall x :: x in posted ==> RouterOf(x) == Current(n)
            else posted == multiset{} || (t.Process? && exists x: Task :: x.DoRoute? && posted == multiset{x})
  {
    TaskConfined(n, t, sample);
    var posted := TaskEffect(n, t, sample).posted;
    forall x | x in posted
      ensures RouterOf(x) == RouterOf(t)
    {
      assert PostedOk(RouterOf(t), n.routers[RouterOf(t)], x);
    }
    assert TaskOk(n.routers, t);
    var g := RouterOf(t);
    assert RouterOk(g, n.routers[g]);
    if !t.DoRoute? {
      assert EntryOk(g, n.routers[g], t.target.name);
    }
  }

  /** Running a task of a replaced router uses up what replaced routers are owed;
      nothing else gives them more. */
  lemma OldTask(n: NodeState, t: Task, sample: Data)
    requires Inv(n) && t in n.pool
    ensures |AfterTask(n, t, sample).routers| == |n.routers|
    ensures NodeOld(AfterTask(n, t, sample)) + (if RouterOf(t) != Current(n) then 1 else 0) <= NodeOld(n)
  {
    hide Inv, TaskEffect, PoolOld;
    OldEffect(n, t, sample);
    InvShape(n);
    RoutersGrow(n, Run(t, sample));
    var current := Current(n);
    var posted := TaskEffect(n, t, sample).posted;
    PoolOldUnion(current, n.pool - multiset{t}, multiset{t});
    assert n.pool - multiset{t} + multiset{t} == n.pool;
    PoolOldUnion(current, n.pool - multiset{t}, posted);
    PoolOldOne(current, t);
    if RouterOf(t) == current {
      PoolOldNone(current, posted);
    } else if posted != multiset{} {
      var x: Task :| x.DoRoute? && posted == multiset{x};
      PoolOldOne(current, x);
    }
  }

  lemma InvShape(n: NodeState)
    requires Inv(n)
    ensures |n.routers| > 0
  {
  }

  lemma OldArrive(n: NodeState, dest: Name, port: Port, payload: Data)
    requires Inv(n)
    ensures NodeOld(Step(n, Receive(dest, port, payload))) == NodeOld(n)
  {
    hide PoolOld, RouterOk;
    var posted := RouteEffect(Current(n), CurrentRouter(n), dest, port, payload).posted;
    PoolOldUnion(Current(n), n.pool, posted);
    PoolOldNone(Current(n), posted);
  }

  // ---- Executing a task ----

  lemma TurnlessAction(w: multiset<C.Work>, a: C.Action)
    requires C.Consumed(a) <= w && NoTurns(w)
    ensures !a.Generate?
  {
    if a.Generate? {
      TurnNeeded(w, a);
    }
  }

  lemma TurnNeeded(w: multiset<C.Work>, a: C.Action)
    requires a.Generate? && C.Consumed(a) <= w
    ensures C.Turn(a.comp) in w
  {
    assert C.Turn(a.comp) in C.Consumed(a);
  }

  /** Consuming and distributing queue no turn. */
  lemma NoTurnAdded(config: Config, a: C.Action)
    requires a.Consume? || a.Distribute?
    ensures NoTurns(C.Added(config, a))
  {
    forall comp
      ensures C.Turn(comp) !in C.Added(config, a)
    {
      if a.Distribute? {
        DeliveredInputs(config.connections, a.comp, Sends(a.outputs), comp);
      }
    }
  }

  lemma {:induction false} DeliveredInputs(g: seq<Connection>, comp: Name, sends: seq<Send>, x: Name)
    ensures C.Turn(x) !in C.Delivered(g, comp, sends)
  {
    if sends != [] {
      DeliveredInputs(g, comp, sends[..|sends| - 1], x);
      AlongInputs(OutgoingAt(g, comp, sends[|sends| - 1].port), sends[|sends| - 1].payload, x);
    }
  }

  lemma {:induction false} AlongInputs(cs: seq<Connection>, payload: Data, x: Name)
    ensures C.Turn(x) !in C.Along(cs, payload)
  {
    if cs != [] {
      AlongInputs(cs[..|cs| - 1], payload, x);
    }
  }

  /** A node with a task in its pool holds its part of the graph. */
  lemma TaskNeedsTables(config: Config, here: Name, n: NodeState, t: Task)
    requires Inv(n) && t in n.pool && Holding(config, here, n)
    ensures Realizes(config, here, Current(n), CurrentRouter(n))
  {
    hide Realizes, RouterOk;
    assert TaskOk(n.routers, t);
    if |n.routers| == 1 && CurrentRouter(n).entries == map[] {
      CurrentHoldsTask(n, t);
    }
  }

  /** A task executed on a started node. */
  lemma StartedRunDrains(config: Config, here: Name, n: NodeState, t: Task, sample: Data)
    requires Inv(n) && t in n.pool && Holding(config, here, n) && Acyclic(config.connections)
    requires CurrentRouter(n).started && Calm(n)
    ensures var g, e := config.connections, Run(t, sample);
            var n', sent := Step(n, e), Sent(n, e);
            && |n'.routers| > 0 && CurrentRouter(n').started && Calm(n')
            && NodeLeft(g, n') + Weight(g, FlightWork(multiset(sent))) + |sent| + 1 <= NodeLeft(g, n)
            && PathSum(g, NodeWork(n')) + PathSum(g, FlightWork(multiset(sent)))
               + (if t.Process? && RouterOf(t) == Current(n) then 1 else 0) <= PathSum(g, NodeWork(n))
  {
    hide Inv, Acyclic, Holding, Realizes, IsEndpointOf, Weight, PathSum, NodeWork, NodeOld, Calm, Sent, C.Added,
         C.Consumed,
         C.Spread, C.Allowed, FlightWork, TaskEffect, NoTurns;
    var g, e := config.connections, Run(t, sample);
    var n', sent := Step(n, e), Sent(n, e);
    InvShape(n);
    TaskNeedsTables(config, here, n, t);
    var acts := RunRefines(config, here, n, t, sample);
    OldTask(n, t, sample);
    StepFlag(n, e);
    CalmWork(n);
    CalmWork(n');
    SumsUnion(g, NodeWork(n'), FlightWork(multiset(sent)));
    if RouterOf(t) == Current(n) {
      TurnlessAction(NodeWork(n), acts[0]);
      DescendsWithin(config, NodeWork(n), acts[0]);
      NoTurnAdded(config, acts[0]);
      NoTurnsStay(NodeWork(n), C.Consumed(acts[0]), C.Added(config, acts[0]), NodeWork(n'), FlightWork(multiset(sent)));
    } else {
      NothingFlies(g, sent);
    }
  }

  lemma NoTurnsStay(w: multiset<C.Work>, consumed: multiset<C.Work>, added: multiset<C.Work>,
                    node: multiset<C.Work>, flight: multiset<C.Work>)
    requires NoTurns(w) && NoTurns(added) && consumed <= w && node + flight == w - consumed + added
    ensures NoTurns(node)
  {
    forall comp
      ensures C.Turn(comp) !in node
    {
      assert C.Turn(comp) !in w - consumed + added;
    }
  }

  lemma NothingFlies(g: seq<Connection>, sent: seq<Message>)
    requires sent == []
    ensures FlightWork(multiset(sent)) == multiset{}
    ensures PathSum(g, multiset{}) == 0 && Weight(g, multiset{}) == 0
  {
    NothingSent(0);
    assert multiset(sent) == multiset{};
  }

  /** What a task of a stopped current router posts. */
  lemma StoppedTaskWork(config: Config, here: Name, n: NodeState, t: Task, sample: Data)
    requires Inv(n) && t in n.pool && RouterOf(t) == Current(n) && !CurrentRouter(n).started
    requires Realizes(config, here, Current(n), CurrentRouter(n))
    ensures t.Process? ==> Real(CurrentRouter(n), t.target.name)
    ensures var a := ActionOf(CurrentRouter(n), t, sample);
            && C.Consumed(a) == WorkOf(Current(n), t)
            && PoolWork(Current(n), TaskEffect(n, t, sample).posted) == if t.Process? then C.Added(config, a)
               else multiset{}
  {
    hide Realizes;
    var id, r := Current(n), CurrentRouter(n);
    assert TaskOk(n.routers, t) && RouterOk(id, r);
    NothingSent(id);
    if t.Process? {
      ProcessWork(config, here, id, r, t);
    } else if t.Generate? {
      assert EntryOk(id, r, t.target.name);
    }
  }

  /** A task executed on a stopped node. */
  lemma StoppedRunDrains(config: Config, here: Name, n: NodeState, t: Task, sample: Data)
    requires Inv(n) && t in n.pool && Holding(config, here, n) && Acyclic(config.connections)
    requires !CurrentRouter(n).started
    ensures var g, e := config.connections, Run(t, sample);
            var n', sent := Step(n, e), Sent(n, e);
            && |n'.routers| > 0 && !CurrentRouter(n').started && sent == []
            && NodeLeft(g, n') + 1 <= NodeLeft(g, n)
            && PathSum(g, NodeWork(n')) + (if t.Process? && RouterOf(t) == Current(n) then 1 else 0)
               <= PathSum(g, NodeWork(n))
  {
    hide Inv, Acyclic, Holding, Realizes, PathSum, PoolWork, WorkOf, Sent, C.Added, C.Consumed, C.Spread, TaskEffect,
         Owed;
    var g, e := config.connections, Run(t, sample);
    InvShape(n);
    StoppedTask(n, t, sample);
    StepFlag(n, e);
    RunShape(n, t, sample);
    TaskNeedsTables(config, here, n, t);
    var work, posted := PoolWork(Current(n), n.pool), PoolWork(Current(n), TaskEffect(n, t, sample).posted);
    if RouterOf(t) == Current(n) {
      StoppedTaskWork(config, here, n, t, sample);
      var a := ActionOf(CurrentRouter(n), t, sample);
      if t.Process? {
        DescendsWithin(config, work, a);
      } else {
        FewerPaths(g, work, C.Consumed(a));
      }
    } else {
      OldTaskWork(n, t, sample);
      Unchanged(work);
    }
  }

  lemma FewerPaths(g: seq<Connection>, w: multiset<C.Work>, x: multiset<C.Work>)
    requires x <= w
    ensures PathSum(g, w - x + multiset{}) <= PathSum(g, w)
  {
    SumsUnion(g, w - x, x);
    assert w - x + x == w && w - x + multiset{} == w - x;
  }

  // ---- Receiving and stopping ----

  /** An arriving packet is at most the work it was in flight. */
  lemma ArriveDrains(g: seq<Connection>, n: NodeState, m: Message)
    requires Inv(n) && Calm(n)
    ensures var n' := Step(n, Receive(m.dest, m.destPort, m.payload));
            && Calm(n')
            && NodeLeft(g, n') <= NodeLeft(g, n) + Weight(g, MessageWork(m))
            && PathSum(g, NodeWork(n')) <= PathSum(g, NodeWork(n)) + PathSum(g, MessageWork(m))
  {
    hide RouterOk, Weight, PathSum, MessageWork, NodeOld;
    var id, r := Current(n), CurrentRouter(n);
    var e := Receive(m.dest, m.destPort, m.payload);
    var n' := Step(n, e);
    OldArrive(n, m.dest, m.destPort, m.payload);
    StepFlag(n, e);
    if r.started && m.dest in r.entries {
      var task := Task.Process(InstPtr(id, m.dest), m.destPort, m.payload);
      Queued(n, m.dest, m.destPort, m.payload);
      PoolWorkUnion(id, n.pool, multiset{task});
      ArrivedTask(id, m);
      SumsUnion(g, NodeWork(n), MessageWork(m));
    } else {
      assert n'.pool == n.pool;
    }
  }

  /** A task is owed no more steps than its work weighs. */
  lemma {:induction false} OwedWithin(g: seq<Connection>, current: RouterId, pool: multiset<Task>)
    requires Acyclic(g) && forall t: Task :: t in pool && t.Generate? ==> RouterOf(t) != current
    ensures Owed(pool) <= Weight(g, PoolWork(current, pool)) + PoolOld(current, pool)
    decreases |pool|
  {
    hide Acyclic, Weight, PathCount, SendsPaths;
    if pool == multiset{} {
      SumConstant(StepsOwed, pool, 0);
    } else {
      var t :| t in pool;
      var rest := pool - multiset{t};
      OwedWithin(g, current, rest);
      assert rest + multiset{t} == pool;
      SumRemove(StepsOwed, pool, t);
      PoolWorkUnion(current, rest, multiset{t});
      PostedOne(current, t);
      SumsUnion(g, PoolWork(current, rest), WorkOf(current, t));
      PoolOldUnion(current, rest, multiset{t});
      PoolOldOne(current, t);
      TaskOwedWithin(g, current, t);
    }
  }

  lemma TaskOwedWithin(g: seq<Connection>, current: RouterId, t: Task)
    requires Acyclic(g) && (t.Generate? ==> RouterOf(t) != current)
    ensures StepsOwed(t) <= Weight(g, WorkOf(current, t)) + OwedOld(current, t)
  {
    hide Acyclic, Weight, SendsPaths;
    if RouterOf(t) == current {
      match t {
        case Process(p, port, payload) => SumsOne(g, C.Input(p.name, port, payload));
        case DoRoute(_, inst, outputs) => SumsOne(g, C.Emit(inst.name, outputs));
      }
    }
  }

  /** Stopping leaves no more to do. */
  lemma StopDrains(g: seq<Connection>, n: NodeState)
    requires Inv(n) && Acyclic(g) && Calm(n)
    ensures var n' := Step(n, Stop);
            && Calm(n') && NodeLeft(g, n') <= NodeLeft(g, n) && NodeWork(n') == NodeWork(n) && Sent(n, Stop) == []
  {
    hide RouterOk, Weight, Acyclic, Owed, PoolWork, PoolOld, Switched;
    var n' := Step(n, Stop);
    StepFlag(n, Stop);
    assert n'.pool == n.pool && |n'.routers| == |n.routers|;
    if CurrentRouter(n).started {
      OwedWithin(g, Current(n), n.pool);
    }
  }

  // ---- One event of the network ----

  /** What one event of a node leaves to do, there and in flight. */
  ghost predicate NodeDrains(g: seq<Connection>, n: NodeState, e: NetEvent)
    requires Inv(n) && Enabled(n, EventOf(e))
  {
    var n', sent := Step(n, EventOf(e)), Sent(n, EventOf(e));
    var arrived := if e.Arrive? then MessageWork(e.message) else multiset{};
    && Calm(n')
    && NodeLeft(g, n') + Weight(g, FlightWork(multiset(sent))) + |sent| + (if Running(e) then 1 else 0)
       <= NodeLeft(g, n) + Weight(g, arrived) + (if e.Arrive? then 1 else 0)
    && PathSum(g, NodeWork(n')) + PathSum(g, FlightWork(multiset(sent))) + (if Delivers(n, e) then 1 else 0)
       <= PathSum(g, NodeWork(n)) + PathSum(g, arrived)
  }

  lemma CalmStopped(n: NodeState)
    requires |n.routers| > 0
    ensures !CurrentRouter(n).started ==> Calm(n)
  {
  }

  lemma EventDrains(config: Config, here: Name, n: NodeState, e: NetEvent)
    requires Inv(n) && Enabled(n, EventOf(e)) && Draining(e)
    requires Holding(config, here, n) && Acyclic(config.connections) && Calm(n)
    ensures NodeDrains(config.connections, n, e)
  {
    hide Inv, Holding, Acyclic, NodeLeft, NodeWork, PathSum, Weight, MessageWork, Step, Calm;
    InvShape(n);
    var g, sent := config.connections, Sent(n, EventOf(e));
    if e.Arrive? {
      ArriveDrains(g, n, e.message);
      NothingFlies(g, sent);
    } else if e.event.Stop? {
      StopDrains(g, n);
      NothingFlies(g, sent);
    } else if CurrentRouter(n).started {
      StartedRunDrains(config, here, n, e.event.task, e.event.sample);
      NothingFlies(g, []);
    } else {
      StoppedRunDrains(config, here, n, e.event.task, e.event.sample);
      CalmStopped(Step(n, EventOf(e)));
      NothingFlies(g, sent);
    }
  }

  /** The flight over one event. */
  lemma FlightDrains(g: seq<Connection>, flight: multiset<Message>, e: NetEvent, sent: seq<Message>)
    requires e.Arrive? ==> e.message in flight
    ensures var flight' := (if e.Arrive? then flight - multiset{e.message} else flight) + multiset(sent);
            var arrived := if e.Arrive? then MessageWork(e.message) else multiset{};
            && Weight(g, FlightWork(flight'))
               == Weight(g, FlightWork(flight)) - Weight(g, arrived) + Weight(g, FlightWork(multiset(sent)))
            && PathSum(g, FlightWork(flight'))
               == PathSum(g, FlightWork(flight)) - PathSum(g, arrived) + PathSum(g, FlightWork(multiset(sent)))
            && |flight'| == |flight| - (if e.Arrive? then 1 else 0) + |sent|
  {
    hide Weight, PathSum, FlightWork, MessageWork;
    var rest := if e.Arrive? then flight - multiset{e.message} else flight;
    FlightWorkUnion(rest, multiset(sent));
    SumsUnion(g, FlightWork(rest), FlightWork(multiset(sent)));
    if e.Arrive? {
      LandedWork(flight, e.message);
      SumsUnion(g, FlightWork(rest), MessageWork(e.message));
    } else {
      NothingFlies(g, []);
    }
  }

  /** Every task execution and every arrival leaves less to do, and stopping a node
      no more; every input processed uses up one path. */
  lemma StepDrains(config: Config, s: NetState, k: nat, e: NetEvent)
    requires WellFormed(config) && Acyclic(config.connections)
    requires UpInv(config, s) && NoneTurning(s) && CanHappen(config, s, k, e) && Draining(e)
    ensures var s' := NetStep(config, s, k, e);
            && UpInv(config, s') && NoneTurning(s')
            && Left(config, s') + (if Running(e) then 1 else 0) <= Left(config, s)
            && PathSum(config.connections, Abs(s')) + (if Delivers(s.nodes[k], e) then 1 else 0)
               <= PathSum(config.connections, Abs(s))
  {
    hide WellFormed, Acyclic, Inv, Holding, WellAddressed, NodeLeft, NodeWork, PathSum, Weight, FlightWork, MessageWork,
         Calm,
         Step, Sent, Enabled, Delivers;
    ReadyEnabled(config, s, k, e);
    var g, n, ev := config.connections, s.nodes[k], EventOf(e);
    var n', s' := Step(n, ev), NetStep(config, s, k, e);
    UpStep(config, s, k, e);
    EventDrains(config, config.nodes[k].name, n, e);
    FlightDrains(g, s.flight, e, Sent(n, ev));
    NodesLeftUpdate(g, s.nodes, k, n');
    NodesPathsUpdate(g, s.nodes, k, n');
    SumsUnion(g, NodesWork(s.nodes), FlightWork(s.flight));
    SumsUnion(g, NodesWork(s'.nodes), FlightWork(s'.flight));
  }

  // ---- Runs ----

  ghost predicate AllDraining(es: seq<(nat, NetEvent)>) {
    forall e :: e in es ==> Draining(e.1)
  }

  /** How many tasks a run executes and packets it receives. */
  function Steps(es: seq<(nat, NetEvent)>): nat {
    if es == [] then 0 else (if Running(es[0].1) then 1 else 0) + Steps(es[1..])
  }

  /** How many inputs a run has components of current routers process. */
  ghost function Deliveries(config: Config, s: NetState, es: seq<(nat, NetEvent)>, s': NetState): nat
    requires NetRuns(config, s, es, s')
    decreases |es|
  {
    if es == [] then 0 else
      var (k, e) := es[0];
      (if Delivers(s.nodes[k], e) then 1 else 0) + Deliveries(config, NetStep(config, s, k, e), es[1..], s')
  }

  /** Drain: on an acyclic graph with no generator running, every run of task
      executions, arrivals and stops, in whatever order and from whatever state a
      network can get into, takes no more steps than were left at its start, and
      processes no more inputs than there are paths before the work at its start. */
  lemma {:induction false} AcyclicDrains(config: Config, s: NetState, es: seq<(nat, NetEvent)>, s': NetState)
    requires WellFormed(config) && Acyclic(config.connections)
    requires UpInv(config, s) && NoneTurning(s)
    requires NetRuns(config, s, es, s') && AllDraining(es)
    ensures UpInv(config, s') && NoneTurning(s')
    ensures Steps(es) + Left(config, s') <= Left(config, s)
    ensures Deliveries(config, s, es, s') + PathSum(config.connections, Abs(s')) <= PathSum(config.connections, Abs(s))
    decreases |es|
  {
    hide WellFormed, Acyclic, UpInv, NoneTurning, Abs, PathSum, Left, NetStep, Delivers;
    if es != [] {
      var (k, e) := es[0];
      assert es[0] in es;
      StepDrains(config, s, k, e);
      AcyclicDrains(config, NetStep(config, s, k, e), es[1..], s');
    }
  }

  // ---- Configurations without generators ----

  ghost predicate NoGenerators(config: Config) {
    forall comp :: !C.HasKind(config, comp, Generator) && !C.HasKind(config, comp, TimedGenerator)
  }

  /** A queued turn of the current router is that of a configured generator. */
  lemma TurnOfGenerator(config: Config, here: Name, n: NodeState, t: Task)
    requires Inv(n) && t in n.pool && t.Generate? && RouterOf(t) == Current(n)
    requires Realizes(config, here, Current(n), CurrentRouter(n))
    ensures C.HasKind(config, t.target.name, Generator) || C.HasKind(config, t.target.name, TimedGenerator)
  {
    hide RouterOk, LocalExact, RemoteExact;
    assert TaskOk(n.routers, t);
    var r := CurrentRouter(n);
    assert OwnEntry(config, Current(n), r.entries[t.target.name], t.target.name);
  }

  lemma NoQueuedTurn(config: Config, here: Name, n: NodeState, comp: Name)
    requires Inv(n) && Holding(config, here, n) && NoGenerators(config)
    ensures C.Turn(comp) !in NodeWork(n)
  {
    hide Inv, Realizes;
    if C.Turn(comp) in NodeWork(n) {
      ImageMember(t => WorkOf(Current(n), t), n.pool, C.Turn(comp));
      var t: Task :| t in n.pool && C.Turn(comp) in WorkOf(Current(n), t);
      TaskNeedsTables(config, here, n, t);
      TurnOfGenerator(config, here, n, t);
    }
  }

  /** In a network whose configuration has no generator no turn is ever queued. */
  lemma NoGeneratorsNoTurns(config: Config, s: NetState)
    requires UpInv(config, s) && NoGenerators(config)
    ensures NoTurns(Abs(s)) && NoneTurning(s)
  {
    hide Inv, Holding, NoGenerators, NodeWork;
    forall k, comp | 0 <= k < |s.nodes|
      ensures C.Turn(comp) !in NodeWork(s.nodes[k])
    {
      NoQueuedTurn(config, config.nodes[k].name, s.nodes[k], comp);
    }
    forall comp
      ensures C.Turn(comp) !in Abs(s)
    {
      if C.Turn(comp) in NodesWork(s.nodes) {
        NodesWorkMember(s.nodes, C.Turn(comp));
      }
      if C.Turn(comp) in FlightWork(s.flight) {
        ImageMember(MessageWork, s.flight, C.Turn(comp));
      }
    }
    forall k | 0 <= k < |s.nodes|
      ensures Calm(s.nodes[k])
    {
      if |s.nodes[k].routers| > 0 && CurrentRouter(s.nodes[k]).started {
        CalmWork(s.nodes[k]);
      }
    }
  }

  // ---- Coming to rest ----

  /** Nothing is stuck: while a task is queued anywhere or a packet is in flight,
      a task can run or a packet can arrive. */
  lemma Progress(config: Config, s: NetState) returns (k: nat, e: NetEvent)
    requires UpInv(config, s)
    requires s.flight != multiset{} || exists j :: 0 <= j < |s.nodes| && s.nodes[j].pool != multiset{}
    ensures CanHappen(config, s, k, e) && Running(e)
  {
    hide Inv, Holding, PlacedAt;
    if s.flight != multiset{} {
      var m :| m in s.flight;
      assert IsEndpointOf(config, m.dest, m.to);
      var n :| n in config.nodes && m.to == Endpoint(n.host.ip, n.host.port);
      k :| 0 <= k < |config.nodes| && config.nodes[k] == n;
      e := Arrive(m);
    } else {
      k :| 0 <= k < |s.nodes| && s.nodes[k].pool != multiset{};
      var t :| t in s.nodes[k].pool;
      e := Local(Run(t, Data(0.0, 0, 0)));
    }
  }

  lemma UpSize(config: Config, s: NetState)
    requires UpInv(config, s)
    ensures |s.nodes| == |config.nodes|
  {
  }

  /** An acyclic network with no generator running comes to rest: every run of task
      executions, arrivals and stops that cannot be continued by an execution or an
      arrival ends with all queues empty and no packet in flight. */
  lemma AcyclicComesToRest(config: Config, s: NetState, es: seq<(nat, NetEvent)>, s': NetState)
    requires WellFormed(config) && Acyclic(config.connections)
    requires UpInv(config, s) && NoneTurning(s) && NetRuns(config, s, es, s') && AllDraining(es)
    ensures Steps(es) <= Left(config, s) && |s'.nodes| == |config.nodes|
    ensures (forall k, e :: Running(e) ==> !CanHappen(config, s', k, e)) ==>
              s'.flight == multiset{} && forall j :: 0 <= j < |s'.nodes| ==> s'.nodes[j].pool == multiset{}
  {
    hide WellFormed, Acyclic, UpInv, NetRuns, AllDraining, Abs, Left, PathSum, Deliveries, NoneTurning, CanHappen,
         Running;
    AcyclicDrains(config, s, es, s');
    UpSize(config, s');
    if s'.flight != multiset{} || exists j :: 0 <= j < |s'.nodes| && s'.nodes[j].pool != multiset{} {
      var k, e := Progress(config, s');
    }
  }
}
