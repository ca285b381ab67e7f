/** A network from its first moment: nodes come up empty, are deployed from their
    slices in any order and any number of times, and start, stop, run and
    receive in between. */
module Lifecycle {
  import opened Configuration
  import opened Routing
  import opened Runtime
  import opened NodeMachine
  import opened NodeSafety
  import opened SliceProperties
  import opened Deployment
  import opened Network
  import opened Refinement
  import Slice
  import Tables
  import C = Central

  function NewNetwork(config: Config): NetState {
    NetState(seq(|config.nodes|, i requires 0 <= i < |config.nodes| => NEW_NODE), multiset{})
  }

  /** Whatever is deployed to a node is its own slice of the configuration. */
  predicate OwnSlice(config: Config, k: nat, e: NetEvent)
    requires WellFormed(config) && k < |config.nodes|
  {
    assert config.nodes[k] in config.nodes;
    e.Local? && e.event.Deploy? ==> e.event.packet == PrimarySlice(config, config.nodes[k])
  }

  ghost predicate OwnSlices(config: Config, es: seq<(nat, NetEvent)>)
    requires WellFormed(config)
  {
    forall e :: e in es ==> e.0 < |config.nodes| && OwnSlice(config, e.0, e.1)
  }

  // ---- The invariant ----

  /** A node holds its part of the graph, or was never deployed and is empty. */
  ghost predicate Holding(config: Config, here: Name, n: NodeState) {
    && |n.routers| > 0
    && (Realizes(config, here, Current(n), CurrentRouter(n)) || (|n.routers| == 1 && CurrentRouter(n).entries == map[]))
  }

  ghost predicate WellAddressed(config: Config, ms: multiset<Message>) {
    forall m :: m in ms ==> IsEndpointOf(config, m.dest, m.to)
  }

  ghost predicate UpInv(config: Config, s: NetState) {
    && |s.nodes| == |config.nodes|
    && AllInv(s)
    && (forall k :: 0 <= k < |s.nodes| ==> Holding(config, config.nodes[k].name, s.nodes[k]))
    && WellAddressed(config, s.flight)
  }

  lemma NewNetworkUp(config: Config)
    ensures UpInv(config, NewNetwork(config))
  {
    NewNodeInv();
  }

  // ---- Tables over one event ----

  /** Only a redeploy changes tables. */
  lemma TablesStay(n: NodeState, e: Event)
    requires Inv(n) && Enabled(n, e) && !e.Deploy?
    ensures |Step(n, e).routers| == |n.routers| > 0
    ensures SameTables(CurrentRouter(n), CurrentRouter(Step(n, e)))
  {
    hide RouterOk, SameTables;
    RoutersGrow(n, e);
    if e.Stop? {
      StopConfined(Current(n), CurrentRouter(n));
    } else {
      CurrentSteady(n, e);
    }
  }

  /** A node's own slice can always be deployed. */
  lemma OwnSliceDeployable(config: Config, here: NodeDecl, n: NodeState, samples: Name -> Data)
    requires WellFormed(config) && here in config.nodes
    ensures Enabled(n, Deploy(PrimarySlice(config, here), samples))
  {
    hide WellFormed, PrimarySlice, LocalExact, RemoteExact, Tables.Deployed;
    DeployRealizes(config, here, |n.routers|);
    var r := DeployedOn(config, here, |n.routers|);
    forall comp | comp in r.entries
      ensures r.entries[comp].comp.Some?
    {
      assert OwnEntry(config, |n.routers|, r.entries[comp], comp);
    }
  }

  lemma DeployedTables(n: NodeState, p: Slice.Packet, samples: Name -> Data)
    requires Inv(n) && Enabled(n, Deploy(p, samples))
    ensures var n' := Step(n, Deploy(p, samples));
            && |n'.routers| == |n.routers| + 1 && |n.routers| > 0
            && (CurrentRouter(n') == Tables.Deployed(|n.routers|, p)
                || SameTables(Tables.Deployed(|n.routers|, p), CurrentRouter(n')))
  {
    hide RouterOk, SameTables, Tables.Deployed, Tables.Fresh;
    Tables.DeployedFresh(|n.routers|, p);
    StartConfined(|n.routers|, Tables.Deployed(|n.routers|, p), samples);
  }

  lemma HoldingStays(config: Config, k: nat, n: NodeState, e: NetEvent)
    requires WellFormed(config) && k < |config.nodes| && OwnSlice(config, k, e)
    requires Inv(n) && Enabled(n, EventOf(e)) && Holding(config, config.nodes[k].name, n)
    ensures Holding(config, config.nodes[k].name, Step(n, EventOf(e)))
  {
    hide WellFormed, Realizes, Inv, Step, Enabled;
    var here := config.nodes[k];
    var n' := Step(n, EventOf(e));
    if e.Local? && e.event.Deploy? {
      DeployedTables(n, e.event.packet, e.event.samples);
      DeployRealizes(config, here, |n.routers|);
      if SameTables(DeployedOn(config, here, |n.routers|), CurrentRouter(n')) {
        RealizesSame(config, here.name, |n.routers|, DeployedOn(config, here, |n.routers|), CurrentRouter(n'));
      }
    } else {
      TablesStay(n, EventOf(e));
      if Realizes(config, here.name, Current(n), CurrentRouter(n)) {
        RealizesSame(config, here.name, Current(n), CurrentRouter(n), CurrentRouter(n'));
      }
    }
  }

  // ---- Packets over one event ----

  /** Whatever a node sends is addressed to the node of its destination. */
  lemma SendsAddressed(config: Config, here: Name, n: NodeState, e: Event)
    requires Inv(n) && Enabled(n, e) && Holding(config, here, n)
    ensures forall m :: m in Sent(n, e) ==> IsEndpointOf(config, m.dest, m.to)
  {
    hide Realizes, IsEndpointOf, TaskEffect, Step;
    if e.Run? {
      if RouterOf(e.task) != Current(n) {
        ReplacedTasksInert(n, e.task, e.sample);
      } else if !CurrentRouter(n).started {
        StoppedEffect(n, e.task, e.sample);
      } else {
        CurrentHoldsTask(n, e.task);
        var acts := RunRefines(config, here, n, e.task, e.sample);
      }
    }
  }

  lemma CurrentHoldsTask(n: NodeState, t: Task)
    requires Inv(n) && t in n.pool && RouterOf(t) == Current(n)
    ensures CurrentRouter(n).entries != map[]
  {
    assert TaskOk(n.routers, t);
  }

  // ---- Runs ----

  /** Every event keeps every deployed node's part of the graph in place and every
      packet in flight on its way to the node of its destination. */
  lemma UpStep(config: Config, s: NetState, k: nat, e: NetEvent)
    requires WellFormed(config) && UpInv(config, s) && CanHappen(config, s, k, e) && OwnSlice(config, k, e)
    ensures UpInv(config, NetStep(config, s, k, e))
  {
    hide WellFormed, Inv, Holding, IsEndpointOf, OwnSlice, Step, Sent, Enabled;
    ReadyEnabled(config, s, k, e);
    var n := s.nodes[k];
    StepKeepsInv(n, EventOf(e));
    HoldingStays(config, k, n, e);
    SendsAddressed(config, config.nodes[k].name, n, EventOf(e));
  }

  lemma {:induction false} UpRun(config: Config, s: NetState, es: seq<(nat, NetEvent)>, s': NetState)
    requires WellFormed(config) && UpInv(config, s) && NetRuns(config, s, es, s') && OwnSlices(config, es)
    ensures UpInv(config, s')
    decreases |es|
  {
    hide WellFormed, UpInv, NetStep, OwnSlice;
    if es != [] {
      var (k, e) := es[0];
      assert es[0] in es;
      UpStep(config, s, k, e);
      UpRun(config, NetStep(config, s, k, e), es[1..], s');
    }
  }

  /** The nodes are all deployed and running. */
  predicate AllUp(s: NetState) {
    forall k :: 0 <= k < |s.nodes| ==> |s.nodes[k].routers| > 1 && CurrentRouter(s.nodes[k]).started
  }

  /** From the first moment on, through any deploys of their own slices, starts,
      stops, executions and arrivals: whenever all nodes are deployed and running,
      the network holds the configured graph and is ready to be refined. */
  lemma UpIsReady(config: Config, es: seq<(nat, NetEvent)>, s: NetState)
    requires WellFormed(config) && NetRuns(config, NewNetwork(config), es, s) && OwnSlices(config, es)
    requires AllUp(s)
    ensures NetInv(config, s)
  {
    hide WellFormed, NetRuns, OwnSlices, Realizes, Inv, IsEndpointOf;
    NewNetworkUp(config);
    UpRun(config, NewNetwork(config), es, s);
    forall k | 0 <= k < |s.nodes|
      ensures NodeReady(config, s, k)
    {
      assert Holding(config, config.nodes[k].name, s.nodes[k]);
    }
  }

  /** Every network ready to be refined satisfies the invariant of networks coming up. */
  lemma ReadyIsUp(config: Config, s: NetState)
    requires NetInv(config, s)
    ensures UpInv(config, s)
  {
    hide Inv, Realizes, IsEndpointOf;
    forall k | 0 <= k < |s.nodes|
      ensures Holding(config, config.nodes[k].name, s.nodes[k])
    {
      assert NodeReady(config, s, k);
    }
  }

  /** The whole life: brought up in any way from nothing, a running network does
      only what the central interpreter of the configured graph does. */
  lemma UpRefinesCentral(config: Config, before: seq<(nat, NetEvent)>, s: NetState, es: seq<(nat, NetEvent)>,
                         s': NetState)
    returns (acts: seq<C.Action>)
    requires WellFormed(config) && DistinctEndpoints(config)
    requires NetRuns(config, NewNetwork(config), before, s) && OwnSlices(config, before) && AllUp(s)
    requires NetRuns(config, s, es, s') && AllSteady(es)
    ensures |acts| <= |es| && CentralRuns(config, Abs(s), acts, Abs(s'))
  {
    hide WellFormed, NetRuns, OwnSlices, DistinctEndpoints, AllUp, NetInv, CentralRuns, Abs;
    UpIsReady(config, before, s);
    acts := NetworkRefinesCentral(config, s, es, s');
  }

  // ---- Bringing a network up ----

  lemma {:induction false} RunsConcat(config: Config, s: NetState, a: seq<(nat, NetEvent)>, s1: NetState,
                                      b: seq<(nat, NetEvent)>, s2: NetState)
    requires NetRuns(config, s, a, s1) && NetRuns(config, s1, b, s2)
    ensures NetRuns(config, s, a + b, s2)
    decreases |a|
  {
    hide Inv, Step, Sent;
    if a == [] {
      assert a + b == b;
    } else {
      assert (a + b)[1..] == a[1..] + b;
      RunsConcat(config, NetStep(config, s, a[0].0, a[0].1), a[1..], s1, b, s2);
    }
  }

  /** One event of a node as a run. */
  lemma OneEvent(config: Config, s: NetState, k: nat, e: NetEvent) returns (es: seq<(nat, NetEvent)>, s': NetState)
    requires WellFormed(config) && UpInv(config, s) && CanHappen(config, s, k, e) && OwnSlice(config, k, e)
    ensures NetRuns(config, s, es, s') && OwnSlices(config, es) && UpInv(config, s')
    ensures |s.nodes| == |s'.nodes| == |config.nodes| && k < |s.nodes|
    ensures Inv(s.nodes[k]) && Enabled(s.nodes[k], EventOf(e))
    ensures s'.nodes == s.nodes[k := Step(s.nodes[k], EventOf(e))]
    ensures s' == NetStep(config, s, k, e)
  {
    hide WellFormed, Inv, Holding, WellAddressed, Step, Sent, OwnSlice, Enabled;
    ReadyEnabled(config, s, k, e);
    es, s' := [(k, e)], NetStep(config, s, k, e);
    UpStep(config, s, k, e);
    assert NetRuns(config, s', es[1..], s');
  }

  /** Deploying a node's slice and starting it, from any reachable state. */
  lemma BringOneUp(config: Config, s: NetState, k: nat, samples: Name -> Data)
    returns (es: seq<(nat, NetEvent)>, s': NetState)
    requires WellFormed(config) && UpInv(config, s) && k < |config.nodes|
    ensures NetRuns(config, s, es, s') && OwnSlices(config, es) && UpInv(config, s')
    ensures |s.nodes| == |s'.nodes| == |config.nodes|
    ensures forall j :: 0 <= j < |s.nodes| && j != k ==> s'.nodes[j] == s.nodes[j]
    ensures |s'.nodes[k].routers| > 1 && CurrentRouter(s'.nodes[k]).started
  {
    hide WellFormed, Inv, AllInv, Holding, WellAddressed, PrimarySlice, Tables.Deployed, RouterOk, NetRuns, Step,
         Enabled;
    var here := config.nodes[k];
    assert here in config.nodes;
    var deploy := Event.Deploy(PrimarySlice(config, here), samples);
    Deployable(config, s, k, samples);
    var es0, s1 := OneEvent(config, s, k, Local(deploy));
    DeployedTables(s.nodes[k], deploy.packet, samples);
    var start := Event.Start(samples);
    Startable(config, s1, k, samples);
    var es1, s2 := OneEvent(config, s1, k, Local(start));
    StepFlag(s1.nodes[k], start);
    TablesStay(s1.nodes[k], start);
    RunsConcat(config, s, es0, s1, es1, s2);
    es, s' := es0 + es1, s2;
  }

  lemma Deployable(config: Config, s: NetState, k: nat, samples: Name -> Data)
    requires WellFormed(config) && |s.nodes| == |config.nodes| && k < |config.nodes|
    ensures config.nodes[k] in config.nodes
    ensures var e := Local(Deploy(PrimarySlice(config, config.nodes[k]), samples));
            CanHappen(config, s, k, e) && OwnSlice(config, k, e)
  {
    hide WellFormed, PrimarySlice, Tables.Deployed;
    assert config.nodes[k] in config.nodes;
    OwnSliceDeployable(config, config.nodes[k], s.nodes[k], samples);
  }

  lemma Startable(config: Config, s: NetState, k: nat, samples: Name -> Data)
    requires WellFormed(config) && |s.nodes| == |config.nodes| && k < |config.nodes|
    ensures CanHappen(config, s, k, Local(Event.Start(samples))) && OwnSlice(config, k, Local(Event.Start(samples)))
  {
  }

  /** Every well-formed configuration can be brought up. */
  lemma {:induction false} BringUp(config: Config, samples: Name -> Data, n: nat)
    returns (es: seq<(nat, NetEvent)>, s: NetState)
    requires WellFormed(config) && n <= |config.nodes|
    ensures NetRuns(config, NewNetwork(config), es, s) && OwnSlices(config, es) && UpInv(config, s)
    ensures |s.nodes| == |config.nodes|
    ensures forall k :: 0 <= k < n ==> |s.nodes[k].routers| > 1 && CurrentRouter(s.nodes[k]).started
    ensures n == |config.nodes| ==> AllUp(s)
  {
    hide WellFormed, UpInv, NetRuns;
    if n == 0 {
      NewNetworkUp(config);
      es, s := [], NewNetwork(config);
      NoEvents(config, s);
    } else {
      var es0, s0 := BringUp(config, samples, n - 1);
      var es1, s1 := BringOneUp(config, s0, n - 1, samples);
      RunsConcat(config, NewNetwork(config), es0, s0, es1, s1);
      es, s := es0 + es1, s1;
    }
  }

  lemma NoEvents(config: Config, s: NetState)
    ensures NetRuns(config, s, [], s)
  {
  }
}
