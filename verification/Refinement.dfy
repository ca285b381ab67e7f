/** The distributed run refines the central run: every step of a deployed and
    started network is a step of the central interpreter or invisible to it. */
module Refinement {
  import opened Configuration
  import opened Routing
  import opened Runtime
  import opened Multisets
  import opened NodeMachine
  import opened SliceProperties
  import opened Deployment
  import opened Network
  import C = Central

  predicate Steady(e: NetEvent) {
    e.Local? ==> !e.event.Stop? && !e.event.Deploy?
  }

  // ---- Tables survive running ----

  lemma RealizesSame(config: Config, here: Name, id: RouterId, r: RouterState, r': RouterState)
    requires Realizes(config, here, id, r) && SameTables(r, r')
    ensures Realizes(config, here, id, r')
  {
    hide PlacedAt, OutgoingAt, LocalPart, RemotePart, IsEndpointOf;
    forall comp, port: Port | comp in r'.entries
      ensures LocalExact(id, RoutesAt(r', comp, port).local,
                         LocalPart(config, here, OutgoingAt(config.connections, comp, port)))
      ensures RemoteExact(config, r', RoutesAt(r', comp, port).remote,
                          RemotePart(config, here, OutgoingAt(config.connections, comp, port)))
    {
      assert RoutesAt(r', comp, port) == RoutesAt(r, comp, port);
    }
  }

  /** A steady event leaves a node's current router started, with the same tables. */
  lemma CurrentSteady(n: NodeState, e: Event)
    requires Inv(n) && Enabled(n, e) && !e.Stop? && !e.Deploy?
    ensures Current(n) == |Step(n, e).routers| - 1
    ensures SameTables(CurrentRouter(n), CurrentRouter(Step(n, e)))
    ensures CurrentRouter(n).started ==> CurrentRouter(Step(n, e)).started
  {
    hide RouterOk;
    RoutersGrow(n, e);
    var id, r := Current(n), CurrentRouter(n);
    match e {
      case Run(t, sample) => TaskConfined(n, t, sample);
      case Receive(dest, port, payload) => RouteConfined(id, r, dest, port, payload);
      case Start(samples) => StartConfined(id, r, samples);
    }
  }

  lemma ReadyEnabled(config: Config, s: NetState, k: nat, e: NetEvent)
    requires |s.nodes| == |config.nodes| && CanHappen(config, s, k, e)
    ensures Enabled(s.nodes[k], EventOf(e))
  {
  }

  lemma NodeStaysReady(config: Config, s: NetState, k: nat, e: NetEvent, j: nat)
    requires NetInv(config, s) && CanHappen(config, s, k, e) && Steady(e) && j < |s.nodes|
    ensures NodeReady(config, NetStep(config, s, k, e), j)
  {
    hide Realizes, Inv, SameTables, IsEndpointOf, Step, Sent, Enabled;
    assert NodeReady(config, s, j);
    ReadyEnabled(config, s, k, e);
    if j == k {
      CurrentSteady(s.nodes[k], EventOf(e));
      RealizesSame(config, config.nodes[k].name, Current(s.nodes[k]), CurrentRouter(s.nodes[k]),
                   CurrentRouter(Step(s.nodes[k], EventOf(e))));
    }
  }

  // ---- Tasks of the current router ----

  lemma CurrentTaskWork(config: Config, here: Name, n: NodeState, t: Task, sample: Data)
    requires Inv(n) && t in n.pool && RouterOf(t) == Current(n)
    requires CurrentRouter(n).started && Realizes(config, here, Current(n), CurrentRouter(n))
    ensures t.Process? ==> Real(CurrentRouter(n), t.target.name)
    ensures var a := ActionOf(CurrentRouter(n), t, sample);
            && EffectWork(Current(n), TaskEffect(n, t, sample)) == C.Added(config, a)
            && C.Consumed(a) == WorkOf(Current(n), t)
            && C.Allowed(config, a)
    ensures |TaskEffect(n, t, sample).sent|
         <= C.Spread(config, ActionOf(CurrentRouter(n), t, sample))
    ensures forall m :: m in TaskEffect(n, t, sample).sent ==> IsEndpointOf(config, m.dest, m.to)
  {
    hide Realizes;
    var id, r := Current(n), CurrentRouter(n);
    assert TaskOk(n.routers, t) && RouterOk(id, r);
    OkValid(id, r);
    match t {
      case Process(p, port, payload) =>
        ProcessWork(config, here, id, r, t);
      case DoRoute(_, inst, outputs) =>
        FanWork(config, here, id, r, inst.name, Sends(outputs));
      case Generate(p) =>
        assert EntryOk(id, r, p.name);
        GenerateWork(config, here, id, r, t, sample);
    }
  }

  // ---- Starting ----

  function Begun(which: set<Name>, samples: Name -> Data): multiset<C.Work> {
    multiset(set comp | comp in which :: C.Emit(comp, Generated(samples(comp)))) +
    multiset(set comp | comp in which :: C.Turn(comp))
  }

  lemma BegunSnoc(which: set<Name>, comp: Name, samples: Name -> Data)
    requires comp !in which
    ensures Begun(which + {comp}, samples)
         == Begun(which, samples) + (multiset{C.Emit(comp, Generated(samples(comp)))} + multiset{C.Turn(comp)})
  {
    var emits := set x | x in which :: C.Emit(x, Generated(samples(x)));
    var turns := set x | x in which :: C.Turn(x);
    var emit, turn := C.Emit(comp, Generated(samples(comp))), C.Turn(comp);
    assert emit !in emits && turn !in turns;
    assert (set x | x in which + {comp} :: C.Emit(x, Generated(samples(x)))) == emits + {emit};
    assert (set x | x in which + {comp} :: C.Turn(x)) == turns + {turn};
    assert multiset(emits + {emit}) == multiset(emits) + multiset{emit};
    assert multiset(turns + {turn}) == multiset(turns) + multiset{turn};
  }

  lemma Pairwise<T>(a: multiset<T>, b: multiset<T>, x: multiset<T>, y: multiset<T>)
    ensures (a + x) + (b + y) == (a + b) + (x + y)
  {
  }

  lemma {:induction false} FirstTurnsWork(id: RouterId, r: RouterState, which: set<Name>, samples: Name -> Data)
    requires AllReal(r) && which <= r.entries.Keys
    requires forall x :: x in r.entries ==> CompAt(r, x).router == id && CompAt(r, x).self == InstPtr(id, x)
    ensures PoolWork(id, FirstTurns(r, which, samples)) == Begun(which, samples)
    decreases which
  {
    if which == {} {
      assert FirstTurns(r, which, samples) == multiset{} && Begun(which, samples) == multiset{};
    } else {
      var comp :| comp in which;
      var rest := which - {comp};
      assert rest + {comp} == which;
      FirstTurnsWork(id, r, rest, samples);
      OneMoreTurn(id, r, rest, comp, samples);
    }
  }

  lemma OneMoreTurn(id: RouterId, r: RouterState, rest: set<Name>, comp: Name, samples: Name -> Data)
    requires AllReal(r) && rest <= r.entries.Keys && comp in r.entries && comp !in rest
    requires forall x :: x in r.entries ==> CompAt(r, x).router == id && CompAt(r, x).self == InstPtr(id, x)
    requires PoolWork(id, FirstTurns(r, rest, samples)) == Begun(rest, samples)
    ensures PoolWork(id, FirstTurns(r, rest + {comp}, samples)) == Begun(rest + {comp}, samples)
  {
    hide FirstRoutes, NextTurns, Begun, PoolWork;
    FirstRoutesSnoc(id, r, rest, comp, samples);
    NextTurnsSnoc(id, r, rest, comp);
    BegunSnoc(rest, comp, samples);
    var route, turn := Task.DoRoute(id, InstPtr(id, comp), Generated(samples(comp))), Task.Generate(InstPtr(id, comp));
    Pairwise(FirstRoutes(r, rest, samples), NextTurns(r, rest), multiset{route}, multiset{turn});
    PoolWorkUnion(id, FirstTurns(r, rest, samples), multiset{route} + multiset{turn});
    TurnWork(id, comp, Generated(samples(comp)));
  }

  lemma TurnWork(id: RouterId, comp: Name, out: seq<Output>)
    ensures PoolWork(id, multiset{Task.DoRoute(id, InstPtr(id, comp), out)}
                     + multiset{Task.Generate(InstPtr(id, comp))})
         == multiset{C.Emit(comp, out)} + multiset{C.Turn(comp)}
  {
    var route, turn := Task.DoRoute(id, InstPtr(id, comp), out), Task.Generate(InstPtr(id, comp));
    PostedTwo(id, route, turn);
    assert multiset{route} + multiset{turn} == multiset{route, turn};
  }

  lemma StartWork(config: Config, here: Name, n: NodeState, samples: Name -> Data)
    requires Inv(n) && Realizes(config, here, Current(n), CurrentRouter(n))
    ensures AllReal(CurrentRouter(n))
    ensures var a := C.Begin(Generators(CurrentRouter(n)), samples);
            && PoolWork(Current(n), StartEffect(CurrentRouter(n), samples).posted) == C.Added(config, a)
            && C.Allowed(config, a)
  {
    var id, r := Current(n), CurrentRouter(n);
    assert RouterOk(id, r);
    OkValid(id, r);
    forall comp | comp in r.entries
      ensures EntryOk(id, r, comp) && OwnEntry(config, id, r.entries[comp], comp)
    {
    }
    FirstTurnsWork(id, r, Generators(r), samples);
  }

  // ---- One step ----

  /** What a node's own event does to its work: one action or nothing, and every
      packet it sends is part of what the action adds. */
  ghost predicate NodeRefines(config: Config, n: NodeState, e: Event, acts: seq<C.Action>)
    requires Inv(n) && Enabled(n, e)
  {
    var n' := Step(n, e);
    && |n'.routers| == |n.routers|
    && |acts| <= 1
    && (acts == [] ==> e.Run? && RouterOf(e.task) != Current(n))
    && (forall m :: m in Sent(n, e) ==> IsEndpointOf(config, m.dest, m.to))
    && if acts == [] then NodeWork(n') == NodeWork(n) && Sent(n, e) == []
       else
         && C.Allowed(config, acts[0]) && C.Consumed(acts[0]) <= NodeWork(n)
         && NodeWork(n') + FlightWork(multiset(Sent(n, e)))
            == NodeWork(n) - C.Consumed(acts[0]) + C.Added(config, acts[0])
         && |Sent(n, e)| <= C.Spread(config, acts[0])
         && (acts[0].Begin? ==> e.Start?)
  }

  /** The actions of the interpreter an event of a node is. */
  ghost predicate Performs(n: NodeState, e: Event, acts: seq<C.Action>)
    requires |n.routers| > 0
  {
    match e
    case Run(t, sample) =>
      if RouterOf(t) == Current(n)
      then (t.Process? ==> Real(CurrentRouter(n), t.target.name)) && acts == [ActionOf(CurrentRouter(n), t, sample)]
      else acts == []
    case Start(samples) => AllReal(CurrentRouter(n)) && acts == [C.Begin(Generators(CurrentRouter(n)), samples)]
    case _ => acts == []
  }

  lemma RunShape(n: NodeState, t: Task, sample: Data)
    requires Inv(n) && t in n.pool
    ensures var n', eff := Step(n, Run(t, sample)), TaskEffect(n, t, sample);
            && |n'.routers| == |n.routers| > 0
            && Sent(n, Run(t, sample)) == eff.sent
            && NodeWork(n') == PoolWork(Current(n), n.pool) - WorkOf(Current(n), t) + PoolWork(Current(n), eff.posted)
            && WorkOf(Current(n), t) <= PoolWork(Current(n), n.pool)
  {
    hide PoolWork, TaskEffect, WorkOf;
    RoutersGrow(n, Run(t, sample));
    PoolWorkStep(Current(n), n.pool, t, TaskEffect(n, t, sample).posted);
  }

  lemma RunRefines(config: Config, here: Name, n: NodeState, t: Task, sample: Data) returns (acts: seq<C.Action>)
    requires Inv(n) && t in n.pool
    requires CurrentRouter(n).started && Realizes(config, here, Current(n), CurrentRouter(n))
    ensures NodeRefines(config, n, Run(t, sample), acts)
    ensures Performs(n, Run(t, sample), acts)
  {
    hide Realizes, Inv, IsEndpointOf, TaskEffect, WorkOf, PoolWork, FlightWork, Step, Sent, C.Spread, C.Added,
         C.Consumed, C.Allowed;
    var id := Current(n);
    var eff := TaskEffect(n, t, sample);
    RunShape(n, t, sample);
    if RouterOf(t) == id {
      CurrentTaskWork(config, here, n, t, sample);
      acts := [ActionOf(CurrentRouter(n), t, sample)];
      TaskRefines(PoolWork(id, n.pool), WorkOf(id, t), PoolWork(id, eff.posted), FlightWork(multiset(eff.sent)));
    } else {
      OldTaskWork(n, t, sample);
      acts := [];
      Unchanged(PoolWork(id, n.pool));
    }
  }

  lemma Unchanged<T>(m: multiset<T>)
    ensures m - multiset{} + multiset{} == m
  {
  }

  lemma StartRefines(config: Config, here: Name, n: NodeState, samples: Name -> Data) returns (acts: seq<C.Action>)
    requires Inv(n) && Realizes(config, here, Current(n), CurrentRouter(n))
    ensures NodeRefines(config, n, Start(samples), acts) && Performs(n, Start(samples), acts)
  {
    hide Realizes, RouterOk, IsEndpointOf, WorkOf, FirstTurns, PoolWork, FlightWork, C.Added, C.Allowed, Switched,
         TaskOk;
    var id, r := Current(n), CurrentRouter(n);
    NothingSent(id);
    StartWork(config, here, n, samples);
    acts := [C.Begin(Generators(r), samples)];
    PoolWorkUnion(id, n.pool, StartEffect(r, samples).posted);
  }

  lemma LocalRefines(config: Config, s: NetState, k: nat, e: NetEvent) returns (acts: seq<C.Action>)
    requires NetInv(config, s) && CanHappen(config, s, k, e) && Steady(e) && e.Local?
    ensures |s.nodes[k].routers| > 0 && NodeRefines(config, s.nodes[k], e.event, acts)
            && Performs(s.nodes[k], e.event, acts)
  {
    hide Realizes, Inv, IsEndpointOf, NodeRefines, Performs;
    assert NodeReady(config, s, k);
    match e.event {
      case Run(t, sample) => acts := RunRefines(config, config.nodes[k].name, s.nodes[k], t, sample);
      case Start(samples) => acts := StartRefines(config, config.nodes[k].name, s.nodes[k], samples);
    }
  }

  lemma TaskRefines<T>(pool: multiset<T>, x: multiset<T>, posted: multiset<T>, sent: multiset<T>)
    requires x <= pool
    ensures (pool - x + posted) + sent == pool - x + (posted + sent)
  {
  }

  /** A task of a replaced router changes nothing the interpreter can see. */
  lemma OldTaskWork(n: NodeState, t: Task, sample: Data)
    requires Inv(n) && t in n.pool && RouterOf(t) != Current(n)
    ensures TaskEffect(n, t, sample).sent == []
    ensures WorkOf(Current(n), t) == multiset{}
    ensures PoolWork(Current(n), TaskEffect(n, t, sample).posted) == multiset{}
  {
    assert TaskOk(n.routers, t);
    var g := RouterOf(t);
    assert RouterOk(g, n.routers[g]) && !n.routers[g].started;
    var posted := TaskEffect(n, t, sample).posted;
    NothingSent(Current(n));
    if !t.DoRoute? {
      assert EntryOk(g, n.routers[g], t.target.name);
    }
    if posted != multiset{} {
      var x :| x in posted;
      assert posted == multiset{x} && RouterOf(x) == g;
      PostedOne(Current(n), x);
    }
  }

  /** A packet in flight reaches the node that hosts its destination. */
  lemma ArrivesHome(config: Config, s: NetState, k: nat, m: Message)
    requires WellFormed(config) && DistinctEndpoints(config) && NetInv(config, s)
    requires k < |s.nodes| && m in s.flight && AddressedTo(config, k, m)
    ensures m.dest in CurrentRouter(s.nodes[k]).entries
  {
    assert NodeReady(config, s, k);
    assert IsEndpointOf(config, m.dest, m.to);
    var n :| n in config.nodes && PlacedAt(config, m.dest, n.name) && m.to == Endpoint(n.host.ip, n.host.port);
    var j :| 0 <= j < |config.nodes| && config.nodes[j] == n;
    assert j == k;
  }

  /** A started router queues a packet for a component it has. */
  lemma Queued(n: NodeState, dest: Name, port: Port, payload: Data)
    requires Inv(n) && CurrentRouter(n).started && dest in CurrentRouter(n).entries
    ensures var n' := Step(n, Receive(dest, port, payload));
            && |n'.routers| == |n.routers|
            && n'.pool == n.pool + multiset{Task.Process(InstPtr(Current(n), dest), port, payload)}
  {
  }

  /** Arrival moves work from the network to a node's queue. */
  lemma ArriveWork(config: Config, s: NetState, k: nat, m: Message)
    requires WellFormed(config) && DistinctEndpoints(config) && NetInv(config, s)
    requires k < |s.nodes| && m in s.flight && AddressedTo(config, k, m)
    ensures var n, n' := s.nodes[k], Step(s.nodes[k], Receive(m.dest, m.destPort, m.payload));
            && |n'.routers| == |n.routers|
            && NodeWork(n') == NodeWork(n) + MessageWork(m)
            && FlightWork(s.flight) == FlightWork(s.flight - multiset{m}) + MessageWork(m)
  {
    hide Realizes, WellFormed, Step, Inv, DistinctEndpoints, PoolWork, FlightWork, MessageWork;
    ArrivesHome(config, s, k, m);
    assert NodeReady(config, s, k);
    var n := s.nodes[k];
    var id := Current(n);
    var task := Task.Process(InstPtr(id, m.dest), m.destPort, m.payload);
    Queued(n, m.dest, m.destPort, m.payload);
    PoolWorkUnion(id, n.pool, multiset{task});
    ArrivedTask(id, m);
    LandedWork(s.flight, m);
  }

  lemma ArrivedTask(id: RouterId, m: Message)
    ensures PoolWork(id, multiset{Task.Process(InstPtr(id, m.dest), m.destPort, m.payload)}) == MessageWork(m)
  {
    PostedOne(id, Task.Process(InstPtr(id, m.dest), m.destPort, m.payload));
  }

  lemma LandedWork(flight: multiset<Message>, m: Message)
    requires m in flight
    ensures FlightWork(flight) == FlightWork(flight - multiset{m}) + MessageWork(m)
  {
    ImageRemove(MessageWork, flight, m);
  }

  /** The invariant of a deployed, started network holds over steady events. */
  lemma NetStepKeepsInv(config: Config, s: NetState, k: nat, e: NetEvent)
    requires NetInv(config, s) && CanHappen(config, s, k, e) && Steady(e)
    ensures NetInv(config, NetStep(config, s, k, e))
  {
    hide NodeReady, Inv, IsEndpointOf;
    var s' := NetStep(config, s, k, e);
    StepKeepsInv(s.nodes[k], EventOf(e));
    forall j | 0 <= j < |s'.nodes|
      ensures NodeReady(config, s', j)
    {
      NodeStaysReady(config, s, k, e, j);
    }
    if e.Local? {
      var acts := LocalRefines(config, s, k, e);
    }
  }

  lemma LocalStepRefines(config: Config, s: NetState, k: nat, e: NetEvent) returns (acts: seq<C.Action>)
    requires NetInv(config, s) && CanHappen(config, s, k, e) && Steady(e) && e.Local?
    ensures |acts| <= 1 && |s.nodes[k].routers| > 0 && Performs(s.nodes[k], e.event, acts)
    ensures acts == [] ==> e.event.Run? && RouterOf(e.event.task) != Current(s.nodes[k])
    ensures acts != [] && acts[0].Begin? ==> e.event.Start?
    ensures var s' := NetStep(config, s, k, e);
            if acts == [] then Abs(s') == Abs(s) && |s'.flight| == |s.flight|
            else C.Acts(config, Abs(s), acts[0], Abs(s')) && |s'.flight| <= |s.flight| + C.Spread(config, acts[0])
  {
    hide Inv, FlightWork, NodeWork, C.Added, C.Consumed, C.Allowed, Sent, Step, Realizes, C.Spread, Performs;
    assert NodeReady(config, s, k);
    var n, n' := s.nodes[k], Step(s.nodes[k], e.event);
    NodesWorkUpdate(s.nodes, k, n');
    acts := LocalRefines(config, s, k, e);
    var sent := Sent(n, e.event);
    FlightWorkUnion(s.flight, multiset(sent));
    if acts == [] {
      assert multiset(sent) == multiset{} && s.flight + multiset(sent) == s.flight;
      Unchanged2(NodesWork(s.nodes), NodeWork(n));
    } else {
      ActionInContext(NodesWork(s.nodes), NodeWork(n), NodeWork(n'), FlightWork(s.flight), FlightWork(multiset(sent)),
                      C.Consumed(acts[0]), C.Added(config, acts[0]));
    }
  }

  lemma Unchanged2<T>(all: multiset<T>, part: multiset<T>)
    requires part <= all
    ensures all - part + part == all
  {
  }

  lemma ArriveStepRefines(config: Config, s: NetState, k: nat, e: NetEvent)
    requires WellFormed(config) && DistinctEndpoints(config)
    requires NetInv(config, s) && CanHappen(config, s, k, e) && e.Arrive?
    ensures var s' := NetStep(config, s, k, e);
            Abs(s') == Abs(s) && |s'.flight| + 1 == |s.flight|
  {
    hide Inv, NodeReady, FlightWork, NodeWork, MessageWork, Step, WellFormed, DistinctEndpoints;
    var n, n', m := s.nodes[k], Step(s.nodes[k], EventOf(e)), e.message;
    NodesWorkUpdate(s.nodes, k, n');
    ArriveWork(config, s, k, m);
    ArrivalInContext(NodesWork(s.nodes), NodeWork(n), FlightWork(s.flight - multiset{m}), MessageWork(m));
    assert s.flight - multiset{m} + multiset(Sent(n, EventOf(e))) == s.flight - multiset{m};
  }

  lemma Nonempty(config: Config, s: NetState, k: nat)
    requires k < |s.nodes| == |config.nodes| && NodeReady(config, s, k)
    ensures |s.nodes[k].routers| > 0
  {
  }

  /** Every step of the network is a step of the central interpreter on the union
      of the queued tasks and the packets in flight, or leaves that union alone. */
  lemma NetStepRefines(config: Config, s: NetState, k: nat, e: NetEvent) returns (acts: seq<C.Action>)
    requires WellFormed(config) && DistinctEndpoints(config)
    requires NetInv(config, s) && CanHappen(config, s, k, e) && Steady(e)
    ensures |acts| <= 1 && (e.Arrive? ==> acts == [])
    ensures var s' := NetStep(config, s, k, e);
            && NetInv(config, s')
            && if acts == [] then Abs(s') == Abs(s) && |s'.flight| + (if e.Arrive? then 1 else 0) == |s.flight|
               else C.Acts(config, Abs(s), acts[0], Abs(s')) && |s'.flight| <= |s.flight| + C.Spread(config, acts[0])
    ensures k < |s.nodes| && |s.nodes[k].routers| > 0 && (e.Local? ==> Performs(s.nodes[k], e.event, acts))
    ensures e.Local? && acts == [] ==> e.event.Run? && RouterOf(e.event.task) != Current(s.nodes[k])
    ensures acts != [] && acts[0].Begin? ==> e.event.Start?
  {
    hide Inv, NodeReady, Abs, C.Acts, C.Added, C.Spread, Performs;
    assert NodeReady(config, s, k);
    Nonempty(config, s, k);
    NetStepKeepsInv(config, s, k, e);
    if e.Local? {
      acts := LocalStepRefines(config, s, k, e);
    } else {
      acts := [];
      ArriveStepRefines(config, s, k, e);
    }
  }

  lemma ActionInContext<T>(all: multiset<T>, before: multiset<T>, after: multiset<T>, flight: multiset<T>,
                           sent: multiset<T>,
                           consumed: multiset<T>, added: multiset<T>)
    requires before <= all && consumed <= before && after + sent == before - consumed + added
    ensures consumed <= all + flight
    ensures (all - before + after) + (flight + sent) == (all + flight) - consumed + added
  {
    var rest := all - before;
    assert all == rest + before;
    assert (all - before + after) + (flight + sent) == rest + flight + (after + sent);
    assert (all + flight) - consumed == rest + flight + (before - consumed);
  }

  lemma ArrivalInContext<T>(all: multiset<T>, node: multiset<T>, flight: multiset<T>, m: multiset<T>)
    requires node <= all
    ensures (all - node + (node + m)) + flight == all + (flight + m)
  {
  }

  // ---- Kinds ----

  lemma GeneratorThere(config: Config, here: Name, id: RouterId, r: RouterState, comp: Name)
    requires WellFormed(config) && Realizes(config, here, id, r) && PlacedAt(config, comp, here)
             && C.Generates(config, comp)
    ensures GeneratorAt(r, comp)
  {
    hide LocalExact, RemoteExact, PlacedAt;
    assert OwnEntry(config, id, r.entries[comp], comp);
    var kind := CompAt(r, comp).kind;
    assert Component(comp, KindName(kind)) in config.components;
    KindOnce(config, comp, kind, Generator);
    KindOnce(config, comp, kind, TimedGenerator);
  }

  lemma KindOnce(config: Config, comp: Name, a: Kind, b: Kind)
    requires WellFormed(config) && C.HasKind(config, comp, a)
    ensures C.HasKind(config, comp, b) ==> a == b
  {
    if C.HasKind(config, comp, b) {
      var i :| 0 <= i < |config.components| && config.components[i] == Component(comp, KindName(a));
      var j :| 0 <= j < |config.components| && config.components[j] == Component(comp, KindName(b));
      assert i == j;
      assert KindOf(KindName(a)) == KindOf(KindName(b));
    }
  }

  // ---- Runs ----

  /** A run of the central interpreter through some actions. */
  ghost predicate CentralRuns(config: Config, w: multiset<C.Work>, acts: seq<C.Action>, w': multiset<C.Work>)
    decreases |acts|
  {
    if acts == [] then w' == w else
      && C.Allowed(config, acts[0]) && C.Consumed(acts[0]) <= w
      && CentralRuns(config, w - C.Consumed(acts[0]) + C.Added(config, acts[0]), acts[1..], w')
  }

  ghost predicate AllSteady(es: seq<(nat, NetEvent)>) {
    forall e :: e in es ==> Steady(e.1)
  }

  lemma CentralNil(config: Config, w: multiset<C.Work>)
    ensures CentralRuns(config, w, [], w)
  {
  }

  lemma CentralCons(config: Config, w: multiset<C.Work>, a: C.Action, w1: multiset<C.Work>, tail: seq<C.Action>,
                    w': multiset<C.Work>)
    requires C.Acts(config, w, a, w1) && CentralRuns(config, w1, tail, w')
    ensures CentralRuns(config, w, [a] + tail, w')
  {
    assert ([a] + tail)[1..] == tail;
  }

  /** Distributed run refines central run. */
  lemma {:induction false} NetworkRefinesCentral(config: Config, s: NetState, es: seq<(nat, NetEvent)>, s': NetState)
    returns (acts: seq<C.Action>)
    requires WellFormed(config) && DistinctEndpoints(config) && NetInv(config, s)
    requires NetRuns(config, s, es, s') && AllSteady(es)
    ensures NetInv(config, s')
    ensures |acts| <= |es| && CentralRuns(config, Abs(s), acts, Abs(s'))
    decreases |es|
  {
    hide NetInv, Abs, NetStep, CentralRuns, WellFormed, DistinctEndpoints, C.Acts;
    if es == [] {
      acts := [];
      assert CentralRuns(config, Abs(s), [], Abs(s')) by {
        CentralNil(config, Abs(s));
      }
    } else {
      var (k, e) := es[0];
      assert es[0] in es;
      var head := NetStepRefines(config, s, k, e);
      var s1 := NetStep(config, s, k, e);
      var tail := NetworkRefinesCentral(config, s1, es[1..], s');
      if head == [] {
        acts := tail;
      } else {
        CentralCons(config, Abs(s), head[0], Abs(s1), tail, Abs(s'));
        acts := [head[0]] + tail;
      }
    }
  }

  /** Deploying every node from its slice and starting it establishes the invariant. */
  lemma StartedNetwork(config: Config, s: NetState)
    requires WellFormed(config) && |s.nodes| == |config.nodes| && s.flight == multiset{} && AllInv(s)
    requires forall k :: 0 <= k < |s.nodes| ==>
               && |s.nodes[k].routers| > 0 && config.nodes[k] in config.nodes
               && CurrentRouter(s.nodes[k]).started
               && SameTables(DeployedOn(config, config.nodes[k], Current(s.nodes[k])), CurrentRouter(s.nodes[k]))
    ensures NetInv(config, s)
  {
    hide WellFormed, Realizes, DeployedOn;
    forall k | 0 <= k < |s.nodes|
      ensures NodeReady(config, s, k)
    {
      DeployRealizes(config, config.nodes[k], Current(s.nodes[k]));
      RealizesSame(config, config.nodes[k].name, Current(s.nodes[k]),
                   DeployedOn(config, config.nodes[k], Current(s.nodes[k])), CurrentRouter(s.nodes[k]));
    }
  }
}
