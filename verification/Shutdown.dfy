/** What draining is for: a network whose generators have been stopped while their
    packets are still on the way to nodes that go on running. */
module Shutdown {
  import opened Configuration
  import opened Routing
  import opened Runtime
  import opened NodeMachine
  import opened NodeSafety
  import opened SliceProperties
  import opened Deployment
  import opened Network
  import opened Refinement
  import opened Lifecycle
  import opened Drain
  import opened Paths
  import Tables
  import C = Central

  /** The network has been shut down at a node with a packet still in flight, and no
      generator is running; the other nodes are. */
  ghost predicate ShutDown(config: Config, s: NetState, k: nat) {
    && k < |s.nodes| == |config.nodes| && NoneTurning(s) && s.flight != multiset{}
    && forall j :: 0 <= j < |s.nodes| ==> |s.nodes[j].routers| > 0 && (CurrentRouter(s.nodes[j]).started <==> j != k)
  }

  // ---- A generator's first packet ----

  lemma FirstRoutePosted(n: NodeState, comp: Name, samples: Name -> Data)
    requires Inv(n) && GeneratorAt(CurrentRouter(n), comp)
    ensures var route := Task.DoRoute(Current(n), InstPtr(Current(n), comp), Generated(samples(comp)));
            route in Step(n, Event.Start(samples)).pool
  {
    var id, r := Current(n), CurrentRouter(n);
    assert RouterOk(id, r) && EntryOk(id, r, comp);
    OkValid(id, r);
    var routes := set x | x in Generators(r) ::
        Task.DoRoute(CompAt(r, x).router, CompAt(r, x).self, Generated(samples(x)));
    assert comp in Generators(r);
    assert Task.DoRoute(CompAt(r, comp).router, CompAt(r, comp).self, Generated(samples(comp))) in routes;
    assert FirstRoutes(r, Generators(r), samples) == multiset(routes);
  }

  lemma {:induction false} RemotePartMember(config: Config, here: Name, cs: seq<Connection>, c: Connection)
    requires c in cs && !PlacedAt(config, c.dest, here)
    ensures c in RemotePart(config, here, cs)
  {
    var init := cs[..|cs| - 1];
    if c != cs[|cs| - 1] {
      RemotePartMember(config, here, init, c);
    }
  }

  /** The routes of a connection to another node. */
  lemma RoutedAway(config: Config, here: Name, id: RouterId, r: RouterState, c: Connection)
    requires Realizes(config, here, id, r) && c in config.connections
    requires PlacedAt(config, c.source, here) && !PlacedAt(config, c.dest, here)
    ensures c.source in r.entries && RoutesAt(r, c.source, c.sourceOut).remote != []
  {
    hide PlacedAt, LocalExact, OwnEntry, IsEndpointOf;
    var cs := OutgoingAt(config.connections, c.source, c.sourceOut);
    Tables.OutgoingAtMember(config.connections, c.source, c.sourceOut, c);
    RemotePartMember(config, here, cs, c);
    assert RemoteExact(config, r, RoutesAt(r, c.source, c.sourceOut).remote, RemotePart(config, here, cs));
  }

  /** Distributing a generator's emission sends a packet along such a connection. */
  lemma EmissionSent(config: Config, here: Name, n: NodeState, t: Task, c: Connection, d: Data)
    requires Inv(n) && t in n.pool && CurrentRouter(n).started && Realizes(config, here, Current(n), CurrentRouter(n))
    requires c in config.connections && PlacedAt(config, c.source, here) && !PlacedAt(config, c.dest, here)
    requires c.sourceOut == 0 || c.sourceOut == 1
    requires t == Task.DoRoute(Current(n), InstPtr(Current(n), c.source), Generated(d))
    ensures Sent(n, Run(t, d)) != []
  {
    hide Realizes, RouterOk, PlacedAt;
    var r := CurrentRouter(n);
    OkValid(Current(n), r);
    RoutedAway(config, here, Current(n), r, c);
    var out := Generated(d);
    assert out[..0] == [] && Sends(out) == [] + SendsOn(d, [0, 1]);
    var sends := [Send(0, d), Send(1, d)];
    assert Sends(out) == sends && sends[..1] == [Send(0, d)] && sends[..1][..0] == [];
    assert RemoteFan(r, c.source, sends)
        == RemoteFan(r, c.source, sends[..1]) + MessagesTo(r, c.source, sends[1]);
    assert RemoteFan(r, c.source, sends[..1]) == [] + MessagesTo(r, c.source, Send(0, d));
  }

  // ---- Shutting down ----

  /** A running node that has no generator placed on it has no turn queued. */
  lemma CalmWithout(config: Config, j: nat, k: nat, n: NodeState)
    requires WellFormed(config) && j < |config.nodes| && k < |config.nodes| && j != k
    requires Inv(n) && Holding(config, config.nodes[j].name, n)
    requires forall comp :: C.Generates(config, comp) ==> PlacedAt(config, comp, config.nodes[k].name)
    ensures Calm(n)
  {
    hide WellFormed, Holding, RouterOk, PlacedAt, LocalExact, RemoteExact;
    var here := config.nodes[j].name;
    if |n.routers| > 0 && CurrentRouter(n).started {
      forall t: Task | t in n.pool && t.Generate?
        ensures RouterOf(t) != Current(n)
      {
        if RouterOf(t) == Current(n) {
          TaskNeedsTables(config, here, n, t);
          TurnOfGenerator(config, here, n, t);
          assert C.Generates(config, t.target.name);
          assert TaskOk(n.routers, t) && t.target.name in CurrentRouter(n).entries;
          PlacedOnce(config, t.target.name, here, config.nodes[k].name);
          NodeNamesDiffer(config, if j < k then j else k, if j < k then k else j);
        }
      }
    }
  }

  /** Whenever all generators are on one node and one of them is connected to another
      node, the network can get into such a state: up, one packet sent, and that node
      stopped before it arrives. */
  lemma CanShutDown(config: Config, k: nat, c: Connection, samples: Name -> Data)
    returns (es: seq<(nat, NetEvent)>, s: NetState)
    requires WellFormed(config) && k < |config.nodes|
    requires forall comp :: C.Generates(config, comp) ==> PlacedAt(config, comp, config.nodes[k].name)
    requires c in config.connections && C.Generates(config, c.source) && (c.sourceOut == 0 || c.sourceOut == 1)
    requires !PlacedAt(config, c.dest, config.nodes[k].name)
    ensures NetRuns(config, NewNetwork(config), es, s) && OwnSlices(config, es) && UpInv(config, s)
            && ShutDown(config, s, k)
  {
    hide WellFormed, Inv, Holding, Realizes, PlacedAt, NetRuns, Step, Enabled, WellAddressed, Sent, OwnSlice, Calm;
    var here := config.nodes[k].name;
    var es0, s0 := BringUp(config, samples, |config.nodes|);
    Startable(config, s0, k, samples);
    var es1, s1 := OneEvent(config, s0, k, Local(Event.Start(samples)));
    var d, id := samples(c.source), Current(s0.nodes[k]);
    var t := Task.DoRoute(id, InstPtr(id, c.source), Generated(d));
    UpRealizes(config, s0, k);
    GeneratorThere(config, here, id, CurrentRouter(s0.nodes[k]), c.source);
    FirstRoutePosted(s0.nodes[k], c.source, samples);
    TablesStay(s0.nodes[k], Event.Start(samples));
    StepFlag(s0.nodes[k], Event.Start(samples));
    UpRealizes(config, s1, k);
    Runnable(config, s1, k, t, d);
    EmissionSent(config, here, s1.nodes[k], t, c, d);
    var es2, s2 := OneEvent(config, s1, k, Local(Run(t, d)));
    assert s2.flight == s1.flight + multiset(Sent(s1.nodes[k], Run(t, d)));
    assert Sent(s1.nodes[k], Run(t, d))[0] in s2.flight;
    Stoppable(config, s2, k);
    var es3, s3 := OneEvent(config, s2, k, Local(Stop));
    StepFlag(s2.nodes[k], Stop);
    NothingSentByStop(s2.nodes[k]);
    RunsConcat(config, NewNetwork(config), es0, s0, es1, s1);
    RunsConcat(config, NewNetwork(config), es0 + es1, s1, es2, s2);
    RunsConcat(config, NewNetwork(config), es0 + es1 + es2, s2, es3, s3);
    es, s := es0 + es1 + es2 + es3, s3;
    assert s.flight == s2.flight + multiset(Sent(s2.nodes[k], Stop));
    forall j | 0 <= j < |s.nodes|
      ensures Calm(s.nodes[j])
    {
      if j == k {
        CalmStopped(s.nodes[k]);
      } else {
        CalmWithout(config, j, k, s.nodes[j]);
      }
    }
  }

  lemma UpRealizes(config: Config, s: NetState, k: nat)
    requires UpInv(config, s) && k < |s.nodes| && |s.nodes[k].routers| > 1
    ensures Realizes(config, config.nodes[k].name, Current(s.nodes[k]), CurrentRouter(s.nodes[k]))
  {
    hide Realizes, Inv;
    assert Holding(config, config.nodes[k].name, s.nodes[k]);
  }

  lemma Runnable(config: Config, s: NetState, k: nat, t: Task, d: Data)
    requires WellFormed(config) && |s.nodes| == |config.nodes| && k < |s.nodes| && t in s.nodes[k].pool
    ensures CanHappen(config, s, k, Local(Run(t, d))) && OwnSlice(config, k, Local(Run(t, d)))
  {
  }

  lemma Stoppable(config: Config, s: NetState, k: nat)
    requires WellFormed(config) && |s.nodes| == |config.nodes| && k < |s.nodes|
    ensures CanHappen(config, s, k, Local(Stop)) && OwnSlice(config, k, Local(Stop))
  {
  }

  lemma NothingSentByStop(n: NodeState)
    requires Inv(n)
    ensures Enabled(n, Stop) && Sent(n, Stop) == []
  {
  }

  // ---- A network of two nodes ----

  const TWO: Config := Config(
    [Component("source", "generator"), Component("sink", "terminator")],
    [Connection("source", 0, "sink", 0)],
    [NodeDecl("left", Address("10.0.0.1", 9000, 0), None), NodeDecl("right", Address("10.0.0.2", 9000, 0), None)],
    [Mapping("source", "left"), Mapping("sink", "right")])

  lemma TwoListed()
    ensures TWO.components[0] in TWO.components && TWO.components[1] in TWO.components
    ensures TWO.nodes[0] in TWO.nodes && TWO.nodes[1] in TWO.nodes
    ensures TWO.mappings[0] in TWO.mappings && TWO.mappings[1] in TWO.mappings
  {
  }

  lemma TwoPairs()
    ensures forall n, n' :: n in TWO.nodes && n' in TWO.nodes ==> n.name != PairName(n'.name)
  {
    assert |PairName("left")| > 5 && |PairName("right")| > 5;
  }

  lemma TwoWellFormed()
    ensures WellFormed(TWO)
  {
    TwoListed();
    TwoPairs();
    hide KindOf, KindName, PairName;
    assert DeclaredNode(TWO, "left") && DeclaredNode(TWO, "right");
    assert DeclaredComponent(TWO, "source") && DeclaredComponent(TWO, "sink");
    assert IsMapped(TWO.mappings, "source") && IsMapped(TWO.mappings, "sink");
  }

  lemma TwoPlaced()
    ensures PlacedAt(TWO, "source", "left") && PlacedAt(TWO, "sink", "right")
  {
    TwoListed();
    assert TWO.mappings[..1] == [Mapping("source", "left")];
  }

  lemma TwoGenerates()
    ensures forall comp :: C.Generates(TWO, comp) <==> comp == "source"
  {
    TwoListed();
    assert KindName(Generator) == "generator" && KindName(TimedGenerator) == "timed_generator";
    assert |"generator"| == 9 && |"terminator"| == 10 && |"timed_generator"| == 15;
  }

  lemma SinkLeadsNowhere(b: Name, n: nat)
    ensures Path(TWO.connections, "sink", b, n) <==> n == 0 && b == "sink"
  {
  }

  lemma TwoAcyclic()
    ensures Acyclic(TWO.connections)
  {
    var g := TWO.connections;
    forall a, n: nat | n > 0
      ensures !Path(g, a, a, n)
    {
      SinkLeadsNowhere(a, n - 1);
    }
  }

  /** There is such a network: everything asked for by the drain theorems holds of it,
      and it still has something to do. */
  lemma TwoShutDown() returns (es: seq<(nat, NetEvent)>, s: NetState)
    ensures WellFormed(TWO) && Acyclic(TWO.connections)
    ensures NetRuns(TWO, NewNetwork(TWO), es, s) && OwnSlices(TWO, es) && UpInv(TWO, s) && ShutDown(TWO, s, 0)
  {
    hide WellFormed, Acyclic, PlacedAt;
    TwoWellFormed();
    TwoPlaced();
    TwoGenerates();
    TwoAcyclic();
    if PlacedAt(TWO, "sink", "left") {
      PlacedOnce(TWO, "sink", "left", "right");
      assert false;
    }
    assert TWO.connections[0] in TWO.connections;
    es, s := CanShutDown(TWO, 0, TWO.connections[0], _ => Data(0.0, 0, 0));
  }
}
