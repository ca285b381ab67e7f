/** The converse of the refinement: whatever the central interpreter can do with the
    work of a running network, some run of the network does. */
module Simulation {
  import opened Configuration
  import opened Routing
  import opened Runtime
  import opened Multisets
  import opened NodeMachine
  import opened SliceProperties
  import opened Deployment
  import opened Network
  import opened Refinement
  import opened Lifecycle
  import C = Central

  /** The generators placed on a node. */
  ghost function GeneratorsOn(config: Config, here: Name): set<Name> {
    set c | c in config.components && C.Generates(config, c.name) && PlacedAt(config, c.name, here) :: c.name
  }

  /** A node begins all its generators at once; any other action is one of a single
      component. */
  ghost predicate Performable(config: Config, a: C.Action) {
    a.Begin? ==> exists k :: 0 <= k < |config.nodes| && a.which == GeneratorsOn(config, config.nodes[k].name)
  }

  // ---- Finding the work ----

  /** Work is a task of some node's current router or a packet in flight. */
  lemma FindWork(s: NetState, w: C.Work)
    requires w in Abs(s)
    ensures (exists k, t :: 0 <= k < |s.nodes| && QueuedFor(s.nodes[k], t, w))
            || (exists m :: m in s.flight && w in MessageWork(m))
  {
    hide MessageWork, NodeWork;
    if w in NodesWork(s.nodes) {
      NodesWorkMember(s.nodes, w);
      var k :| 0 <= k < |s.nodes| && w in NodeWork(s.nodes[k]);
      var t := FindTask(s.nodes[k], w);
    } else {
      ImageMember(MessageWork, s.flight, w);
    }
  }

  ghost predicate QueuedFor(n: NodeState, t: Task, w: C.Work) {
    |n.routers| > 0 && t in n.pool && WorkOf(Current(n), t) == multiset{w}
  }

  lemma FindTask(n: NodeState, w: C.Work) returns (t: Task)
    requires w in NodeWork(n)
    ensures QueuedFor(n, t, w)
  {
    ImageMember(t => WorkOf(Current(n), t), n.pool, w);
    t :| t in n.pool && w in WorkOf(Current(n), t);
  }

  // ---- Performing one action ----

  /** A task can be run so as to perform any action that consumes its work. */
  lemma TaskIsAction(config: Config, n: NodeState, t: Task, a: C.Action, acts: seq<C.Action>)
    requires WellFormed(config) && C.Allowed(config, a) && !a.Begin?
    requires |n.routers| > 0 && t in n.pool && WorkOf(Current(n), t) == C.Consumed(a)
    requires Performs(n, Run(t, if a.Generate? then a.sample else Data(0.0, 0, 0)), acts)
    requires acts != [] ==> C.Allowed(config, acts[0])
    ensures acts == [a]
  {
    hide WellFormed, C.HasKind, C.Generates;
    var w := if a.Consume? then C.Input(a.comp, a.port, a.payload)
             else if a.Distribute? then C.Emit(a.comp, a.outputs) else C.Turn(a.comp);
    assert C.Consumed(a) == multiset{w};
    assert w in WorkOf(Current(n), t);
    if a.Consume? {
      KindOnce(config, a.comp, a.kind, acts[0].kind);
    }
  }

  lemma RunTask(config: Config, s: NetState, k: nat, t: Task, a: C.Action)
    returns (es: seq<(nat, NetEvent)>, s': NetState)
    requires WellFormed(config) && DistinctEndpoints(config) && NetInv(config, s)
    requires C.Allowed(config, a) && !a.Begin? && k < |s.nodes|
    requires |s.nodes[k].routers| > 0 && t in s.nodes[k].pool && WorkOf(Current(s.nodes[k]), t) == C.Consumed(a)
    ensures NetRuns(config, s, es, s') && AllSteady(es) && NetInv(config, s') && |es| == 1
    ensures C.Consumed(a) <= Abs(s) && Abs(s') == Abs(s) - C.Consumed(a) + C.Added(config, a)
  {
    hide WellFormed, DistinctEndpoints, Abs, Performs, WorkOf, C.Allowed, C.Consumed, C.Added, NodeReady, Inv;
    var e := Local(Run(t, if a.Generate? then a.sample else Data(0.0, 0, 0)));
    var acts := NetStepRefines(config, s, k, e);
    TaskIsAction(config, s.nodes[k], t, a, acts);
    s' := NetStep(config, s, k, e);
    es := OneStep(config, s, k, e);
  }

  lemma OneStep(config: Config, s: NetState, k: nat, e: NetEvent) returns (es: seq<(nat, NetEvent)>)
    requires |s.nodes| == |config.nodes| && AllInv(s) && CanHappen(config, s, k, e) && Steady(e)
    ensures NetRuns(config, s, es, NetStep(config, s, k, e)) && AllSteady(es) && |es| == 1
  {
    hide Inv, Step, Sent;
    es := [(k, e)];
    NoEvents(config, NetStep(config, s, k, e));
    assert es[1..] == [];
  }

  /** A packet in flight can be received, which queues what it stands for. */
  lemma Receive(config: Config, s: NetState, m: Message, w: C.Work)
    returns (es: seq<(nat, NetEvent)>, s': NetState, k: nat, t: Task)
    requires WellFormed(config) && DistinctEndpoints(config) && NetInv(config, s)
    requires m in s.flight && w in MessageWork(m)
    ensures NetRuns(config, s, es, s') && AllSteady(es) && NetInv(config, s') && Abs(s') == Abs(s) && |es| == 1
    ensures k < |s'.nodes| && QueuedFor(s'.nodes[k], t, w)
  {
    hide WellFormed, DistinctEndpoints, Abs, NodeReady, Inv, PlacedAt, Performs;
    assert IsEndpointOf(config, m.dest, m.to);
    var n :| n in config.nodes && m.to == Endpoint(n.host.ip, n.host.port);
    k :| 0 <= k < |config.nodes| && config.nodes[k] == n;
    var e := Arrive(m);
    var acts := NetStepRefines(config, s, k, e);
    s' := NetStep(config, s, k, e);
    es := OneStep(config, s, k, e);
    t := QueuedOnArrival(config, s, k, m);
  }

  lemma QueuedOnArrival(config: Config, s: NetState, k: nat, m: Message) returns (t: Task)
    requires WellFormed(config) && DistinctEndpoints(config) && NetInv(config, s) && CanHappen(config, s, k, Arrive(m))
    ensures QueuedFor(NetStep(config, s, k, Arrive(m)).nodes[k], t, C.Input(m.dest, m.destPort, m.payload))
  {
    hide WellFormed, DistinctEndpoints, Inv, Realizes, Step;
    var n := s.nodes[k];
    assert NodeReady(config, s, k);
    ArrivesHome(config, s, k, m);
    Queued(n, m.dest, m.destPort, m.payload);
    t := Task.Process(InstPtr(Current(n), m.dest), m.destPort, m.payload);
  }

  /** Starting a running node again begins all its generators. */
  lemma StartAgain(config: Config, s: NetState, k: nat, samples: Name -> Data)
    returns (es: seq<(nat, NetEvent)>, s': NetState)
    requires WellFormed(config) && DistinctEndpoints(config) && NetInv(config, s) && k < |s.nodes|
    ensures NetRuns(config, s, es, s') && AllSteady(es) && NetInv(config, s') && |es| == 1
    ensures var a := C.Begin(GeneratorsOn(config, config.nodes[k].name), samples);
            Abs(s') == Abs(s) - C.Consumed(a) + C.Added(config, a)
  {
    hide WellFormed, DistinctEndpoints, Abs, NodeReady, Inv, C.Added, C.Consumed;
    var e := Local(Event.Start(samples));
    var acts := NetStepRefines(config, s, k, e);
    s' := NetStep(config, s, k, e);
    es := OneStep(config, s, k, e);
    AllGenerators(config, s, k);
  }

  lemma AllGenerators(config: Config, s: NetState, k: nat)
    requires WellFormed(config) && NetInv(config, s) && k < |s.nodes|
    ensures AllReal(CurrentRouter(s.nodes[k]))
    ensures Generators(CurrentRouter(s.nodes[k])) == GeneratorsOn(config, config.nodes[k].name)
  {
    hide WellFormed, RouterOk, PlacedAt, LocalExact, RemoteExact;
    assert NodeReady(config, s, k);
    var here, n := config.nodes[k].name, s.nodes[k];
    var r := CurrentRouter(n);
    OkValid(Current(n), r);
    forall comp
      ensures comp in Generators(r) <==> comp in GeneratorsOn(config, here)
    {
      if comp in GeneratorsOn(config, here) {
        GeneratorThere(config, here, Current(n), r, comp);
      }
      if comp in Generators(r) {
        assert OwnEntry(config, Current(n), r.entries[comp], comp);
        var c := Component(comp, KindName(CompAt(r, comp).kind));
        assert c in config.components && C.Generates(config, c.name);
      }
    }
  }

  /** Every action the interpreter can take on the work of a running network is taken
      by the network in at most two steps: an arrival, then the action. */
  lemma ActionSimulated(config: Config, s: NetState, a: C.Action) returns (es: seq<(nat, NetEvent)>, s': NetState)
    requires WellFormed(config) && DistinctEndpoints(config) && NetInv(config, s)
    requires C.Allowed(config, a) && C.Consumed(a) <= Abs(s) && Performable(config, a)
    ensures NetRuns(config, s, es, s') && AllSteady(es) && NetInv(config, s') && |es| <= 2
    ensures Abs(s') == Abs(s) - C.Consumed(a) + C.Added(config, a)
  {
    hide WellFormed, DistinctEndpoints, NetInv, Abs, NetRuns, C.Allowed, C.Added, GeneratorsOn, MessageWork;
    if a.Begin? {
      var k :| 0 <= k < |config.nodes| && a.which == GeneratorsOn(config, config.nodes[k].name);
      Sized(config, s);
      es, s' := StartAgain(config, s, k, a.samples);
    } else {
      var w := if a.Consume? then C.Input(a.comp, a.port, a.payload)
               else if a.Distribute? then C.Emit(a.comp, a.outputs) else C.Turn(a.comp);
      assert C.Consumed(a) == multiset{w};
      assert w in Abs(s);
      FindWork(s, w);
      if k, t :| 0 <= k < |s.nodes| && QueuedFor(s.nodes[k], t, w) {
        es, s' := RunTask(config, s, k, t, a);
      } else {
        var m :| m in s.flight && w in MessageWork(m);
        var es1, s1, k, t := Receive(config, s, m, w);
        var es2;
        es2, s' := RunTask(config, s1, k, t, a);
        Sized(config, s);
        RunsConcat(config, s, es1, s1, es2, s');
        es := es1 + es2;
      }
    }
  }

  lemma Sized(config: Config, s: NetState)
    requires NetInv(config, s)
    ensures |s.nodes| == |config.nodes|
  {
  }

  ghost predicate AllPerformable(config: Config, acts: seq<C.Action>) {
    forall a :: a in acts ==> Performable(config, a)
  }

  /** Central run is distributed run: together with the refinement, a running network
      and the central interpreter of its graph can do exactly the same. */
  lemma {:induction false} CentralSimulated(config: Config, s: NetState, acts: seq<C.Action>, w: multiset<C.Work>)
    returns (es: seq<(nat, NetEvent)>, s': NetState)
    requires WellFormed(config) && DistinctEndpoints(config) && NetInv(config, s)
    requires CentralRuns(config, Abs(s), acts, w) && AllPerformable(config, acts)
    ensures NetRuns(config, s, es, s') && AllSteady(es) && NetInv(config, s') && |es| <= 2 * |acts|
    ensures Abs(s') == w
    decreases |acts|
  {
    hide WellFormed, DistinctEndpoints, NetInv, Abs, NetRuns, C.Allowed, C.Added, C.Consumed, Performable;
    if acts == [] {
      es, s' := [], s;
      NoEvents(config, s);
    } else {
      assert acts[0] in acts;
      var es1, s1 := ActionSimulated(config, s, acts[0]);
      var es2;
      es2, s' := CentralSimulated(config, s1, acts[1..], w);
      RunsConcat(config, s, es1, s1, es2, s');
      es := es1 + es2;
    }
  }
}
