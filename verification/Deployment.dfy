/** The whole deployment: index on the terminal, slice per node, tables on the
    node. The tables of all primary nodes together are the configured graph. */
module Deployment {
  import opened Configuration
  import opened DeployIndex
  import opened Routing
  import opened SliceProperties
  import Slice
  import Tables

  // ---- The graph as one node must see it ----

  /** The connections of a list whose destination is on a node. */
  function LocalPart(config: Config, here: Name, cs: seq<Connection>): seq<Connection> {
    if cs == [] then [] else
      var c := cs[|cs| - 1];
      LocalPart(config, here, cs[..|cs| - 1]) + if PlacedAt(config, c.dest, here) then [c] else []
  }

  /** The connections of a list whose destination is on another node. */
  function RemotePart(config: Config, here: Name, cs: seq<Connection>): seq<Connection> {
    if cs == [] then [] else
      var c := cs[|cs| - 1];
      RemotePart(config, here, cs[..|cs| - 1]) + if PlacedAt(config, c.dest, here) then [] else [c]
  }

  ghost predicate IsEndpointOf(config: Config, comp: Name, e: Endpoint) {
    exists n :: n in config.nodes && PlacedAt(config, comp, n.name) && e == Endpoint(n.host.ip, n.host.port)
  }

  ghost predicate LocalExact(id: RouterId, routes: seq<LocalRoute>, cs: seq<Connection>) {
    && |routes| == |cs|
    && forall i :: 0 <= i < |cs| ==> routes[i] == LocalRoute(cs[i].destIn, InstPtr(id, cs[i].dest))
  }

  ghost predicate RemoteExact(config: Config, r: RouterState, routes: seq<RemoteRoute>, cs: seq<Connection>) {
    && |routes| == |cs|
    && forall i :: 0 <= i < |cs| ==>
         && routes[i].inPort == cs[i].destIn && routes[i].dest == cs[i].dest
         && routes[i].client < |r.endpoints| && IsEndpointOf(config, cs[i].dest, r.endpoints[routes[i].client])
  }

  /** The entry of a component is its own, of the declared kind. */
  predicate OwnEntry(config: Config, id: RouterId, e: Entry, comp: Name) {
    && e.name == comp
    && e.comp.Some?
    && e.comp.value.router == id
    && e.comp.value.self == InstPtr(id, comp)
    && Component(comp, KindName(e.comp.value.kind)) in config.components
  }

  /** A router holds exactly the part of the configured graph that starts on its
      node: the placed components and, for each of them and each port, the
      connections in configuration order, local exactly when co-located. */
  ghost predicate Realizes(config: Config, here: Name, id: RouterId, r: RouterState) {
    && (forall comp :: comp in r.entries <==> PlacedAt(config, comp, here))
    && (forall comp :: comp in r.entries ==> OwnEntry(config, id, r.entries[comp], comp))
    && (forall comp, port: Port :: comp in r.entries ==>
          && LocalExact(id, RoutesAt(r, comp, port).local,
                        LocalPart(config, here, OutgoingAt(config.connections, comp, port)))
          && RemoteExact(config, r, RoutesAt(r, comp, port).remote,
                         RemotePart(config, here, OutgoingAt(config.connections, comp, port))))
  }

  // ---- The node reads its slice back ----

  lemma {:induction false} InfoTableResolves(ns: seq<NodeDecl>, n: NodeDecl)
    requires UniqueNodes(ns) && n in ns
    ensures Get(Tables.InfoTable(ns), n.name, Tables.NO_INFO) == Slice.InfoOf(n)
    ensures n.name in Tables.InfoTable(ns)
  {
    var last := ns[|ns| - 1];
    if n in ns[..|ns| - 1] {
      InfoTableResolves(ns[..|ns| - 1], n);
    } else {
      NotInTable(ns[..|ns| - 1], n.name);
    }
  }

  lemma {:induction false} NotInTable(ns: seq<NodeDecl>, name: Name)
    requires forall n :: n in ns ==> n.name != name
    ensures name !in Tables.InfoTable(ns)
  {
    if ns != [] {
      assert ns[|ns| - 1] in ns;
      NotInTable(ns[..|ns| - 1], name);
    }
  }

  lemma {:induction false} CompToNodeResolves(t: map<Name, Slice.NodeInfo>, ms: seq<Mapping>, m: Mapping)
    requires MappedOnce(ms) && m in ms
    ensures Get(Tables.CompToNode(t, ms), m.compName, Tables.NO_INFO) == Get(t, m.nodeName, Tables.NO_INFO)
  {
    if m in ms[..|ms| - 1] {
      CompToNodeResolves(t, ms[..|ms| - 1], m);
      MappedKeys(t, ms[..|ms| - 1], m.compName);
    } else {
      MappedKeys(t, ms[..|ms| - 1], m.compName);
      assert !IsMapped(ms[..|ms| - 1], m.compName);
    }
  }

  lemma {:induction false} MappedKeys(t: map<Name, Slice.NodeInfo>, ms: seq<Mapping>, comp: Name)
    ensures comp in Tables.CompToNode(t, ms) <==> IsMapped(ms, comp)
  {
    if ms != [] {
      MappedKeys(t, ms[..|ms| - 1], comp);
      assert ms == ms[..|ms| - 1] + [ms[|ms| - 1]];
    }
  }

  /** The component-to-node table a node rebuilds from its slice: the placement,
      for every component the slice mentions. */
  ghost predicate Rebuilt(config: Config, p: Slice.Packet, c2n: map<Name, Slice.NodeInfo>) {
    && (forall e :: e in p.maps ==>
          exists n :: n in config.nodes && PlacedAt(config, e.instance, n.name)
                      && Get(c2n, e.instance, Tables.NO_INFO) == Slice.InfoOf(n))
    && (forall comp :: (forall e :: e in p.maps ==> e.instance != comp) ==> comp !in c2n)
  }

  lemma SliceRebuilt(config: Config, here: NodeDecl)
    requires WellFormed(config) && here in config.nodes
    ensures Rebuilt(config, PrimarySlice(config, here), Tables.C2N(Tables.ConfigOf(PrimarySlice(config, here))))
  {
    hide PrimarySlice, WellFormed;
    var p := PrimarySlice(config, here);
    var conf := Tables.ConfigOf(p);
    SliceClosed(config, here);
    var t := Tables.InfoTable(conf.nodes);
    forall e | e in p.maps
      ensures exists n :: n in config.nodes && PlacedAt(config, e.instance, n.name)
                && Get(Tables.C2N(conf), e.instance, Tables.NO_INFO) == Slice.InfoOf(n)
    {
      var i :| 0 <= i < |p.maps| && p.maps[i] == e;
      assert conf.mappings[i] == Mapping(e.instance, e.node);
      CompToNodeResolves(t, conf.mappings, Mapping(e.instance, e.node));
      MapNodeInfo(config, here, e);
    }
    forall comp | forall e :: e in p.maps ==> e.instance != comp
      ensures comp !in Tables.C2N(conf)
    {
      MappedKeys(t, conf.mappings, comp);
      forall m | m in conf.mappings
        ensures m.compName != comp
      {
        var i :| 0 <= i < |conf.mappings| && conf.mappings[i] == m;
        assert p.maps[i] in p.maps;
      }
    }
  }

  lemma MapNodeInfo(config: Config, here: NodeDecl, e: Slice.MapEntry)
    requires WellFormed(config) && here in config.nodes && e in PrimarySlice(config, here).maps
    ensures exists n :: n in config.nodes && n.name == e.node &&
              Get(Tables.InfoTable(Tables.ConfigOf(PrimarySlice(config, here)).nodes), e.node, Tables.NO_INFO)
              == Slice.InfoOf(n)
  {
    hide PrimarySlice;
    var p := PrimarySlice(config, here);
    SliceClosed(config, here);
    assert PlacedAt(config, e.instance, e.node);
    assert exists x :: x in p.maps && x.instance == e.instance;
    assert PlacedAt(config, e.instance, here.name) || LeadsTo(p.connections, e.instance);
    assert HasInfo(p.nodeInfos, e.node);
    var i :| 0 <= i < |p.nodeInfos| && p.nodeInfos[i].name == e.node;
    assert p.nodeInfos[i] in p.nodeInfos;
    var n :| n in config.nodes && p.nodeInfos[i] == Slice.InfoOf(n);
    var nodes := Tables.ConfigOf(p).nodes;
    assert UniqueNodes(nodes) && nodes[i] in nodes;
    InfoTableResolves(nodes, nodes[i]);
  }

  // ---- Deploying a primary node ----

  function DeployedOn(config: Config, here: NodeDecl, id: RouterId): RouterState
    requires WellFormed(config) && here in config.nodes
  {
    Tables.Deployed(id, PrimarySlice(config, here))
  }

  /** The instance phase creates exactly the components placed on the node. */
  lemma InstancesPlaced(config: Config, here: NodeDecl, id: RouterId)
    requires WellFormed(config) && here in config.nodes
    ensures var conf := Tables.ConfigOf(PrimarySlice(config, here));
            var r := Tables.WithInstances(id, here.name, Tables.C2N(conf), NEW_ROUTER, conf.components);
            && r == NEW_ROUTER.(entries := r.entries)
            && (forall comp :: comp in r.entries <==> PlacedAt(config, comp, here.name))
            && (forall comp :: comp in r.entries ==>
                  OwnEntry(config, id, r.entries[comp], comp) && r.entries[comp].ports == map[])
  {
    hide PrimarySlice, WellFormed;
    var p := PrimarySlice(config, here);
    var conf := Tables.ConfigOf(p);
    var c2n := Tables.C2N(conf);
    SliceContents(config, here, "");
    assert UniqueComponents(conf.components);
    Tables.InstancesOf(id, here.name, c2n, NEW_ROUTER, conf.components);
    var r := Tables.WithInstances(id, here.name, c2n, NEW_ROUTER, conf.components);
    assert InstancesBuilt(p, here.name, id, r) by {
      BuiltOnce(p, here.name, id, r);
    }
    forall comp
      ensures comp in r.entries <==> PlacedAt(config, comp, here.name)
      ensures comp in r.entries ==> OwnEntry(config, id, r.entries[comp], comp) && r.entries[comp].ports == map[]
    {
      InstancePlaced(config, here, id, comp, r);
    }
  }

  /** The instance phase as the node's own tables describe it. */
  ghost predicate InstancesBuilt(p: Slice.Packet, here: Name, id: RouterId, r: RouterState) {
    var conf := Tables.ConfigOf(p);
    var c2n := Tables.C2N(conf);
    && (forall c :: c in conf.components && Tables.NodeOf(c2n, c.name) == here ==>
          c.name in r.entries && r.entries[c.name] == Tables.NewEntry(id, KindOf(c.kind), c.name))
    && (forall name :: name in r.entries ==>
          && Tables.NodeOf(c2n, name) == here
          && exists c :: c in conf.components && c.name == name)
  }

  lemma BuiltOnce(p: Slice.Packet, here: Name, id: RouterId, r: RouterState)
    requires UniqueComponents(Tables.ConfigOf(p).components)
    requires forall name ::
             Tables.InstanceFor(id, here, Tables.C2N(Tables.ConfigOf(p)), r.entries, Tables.ConfigOf(p).components,
                                name)
    ensures InstancesBuilt(p, here, id, r)
  {
    hide UniqueComponents, Tables.ConfigOf, Tables.C2N, Tables.NodeOf;
    var conf := Tables.ConfigOf(p);
    var c2n := Tables.C2N(conf);
    forall c | c in conf.components && Tables.NodeOf(c2n, c.name) == here
      ensures c.name in r.entries && r.entries[c.name] == Tables.NewEntry(id, KindOf(c.kind), c.name)
    {
      Tables.LastOfUnique(conf.components, c);
      assert Tables.InstanceFor(id, here, c2n, r.entries, conf.components, c.name);
    }
    forall name | name in r.entries
      ensures Tables.NodeOf(c2n, name) == here && exists c :: c in conf.components && c.name == name
    {
      assert Tables.InstanceFor(id, here, c2n, r.entries, conf.components, name);
    }
  }

  lemma InstancePlaced(config: Config, here: NodeDecl, id: RouterId, comp: Name, r: RouterState)
    requires WellFormed(config) && here in config.nodes
    requires InstancesBuilt(PrimarySlice(config, here), here.name, id, r)
    ensures comp in r.entries <==> PlacedAt(config, comp, here.name)
    ensures comp in r.entries ==> OwnEntry(config, id, r.entries[comp], comp) && r.entries[comp].ports == map[]
  {
    hide PrimarySlice, WellFormed, Outgoing, PlacedAt, Tables.C2N;
    if comp in r.entries {
      EntryPlaced(config, here, id, comp, r);
    }
    if PlacedAt(config, comp, here.name) {
      var p := PrimarySlice(config, here);
      var conf := Tables.ConfigOf(p);
      SliceContents(config, here, comp);
      var c := HostedInstance(config, here, comp);
      var kind := KindOf(c.kind);
      assert Slice.Instance(comp, kind) in p.instances;
      var i :| 0 <= i < |p.instances| && p.instances[i] == Slice.Instance(comp, kind);
      assert conf.components[i] == c && conf.components[i] in conf.components;
    }
  }

  lemma EntryPlaced(config: Config, here: NodeDecl, id: RouterId, comp: Name, r: RouterState)
    requires WellFormed(config) && here in config.nodes && comp in r.entries
    requires InstancesBuilt(PrimarySlice(config, here), here.name, id, r)
    ensures PlacedAt(config, comp, here.name)
  {
    hide PrimarySlice, WellFormed, Outgoing, PlacedAt, Tables.C2N;
    var p := PrimarySlice(config, here);
    var conf := Tables.ConfigOf(p);
    SliceContents(config, here, comp);
    var c :| c in conf.components && c.name == comp;
    var i :| 0 <= i < |p.instances| && conf.components[i] == c;
    assert p.instances[i] in p.instances && p.instances[i] == Slice.Instance(comp, p.instances[i].kind);
  }

  /** A component placed on a node is declared, and the node knows it as its own. */
  lemma HostedInstance(config: Config, here: NodeDecl, comp: Name) returns (c: Component)
    requires WellFormed(config) && here in config.nodes && PlacedAt(config, comp, here.name)
    ensures c in config.components && c.name == comp && KnownKind(c.kind) && KindName(KindOf(c.kind)) == c.kind
    ensures Tables.NodeOf(Tables.C2N(Tables.ConfigOf(PrimarySlice(config, here))), comp) == here.name
  {
    hide PrimarySlice;
    MappingOfPlace(config.mappings, comp);
    assert DeclaredComponent(config, comp);
    c :| c in config.components && c.name == comp;
    KindRoundTrip(c.kind);
    SliceClosed(config, here);
    SliceRebuilt(config, here);
    var p := PrimarySlice(config, here);
    var e :| e in p.maps && e.instance == comp;
    var n :| n in config.nodes && PlacedAt(config, e.instance, n.name)
      && Get(Tables.C2N(Tables.ConfigOf(p)), e.instance, Tables.NO_INFO) == Slice.InfoOf(n);
  }

  /** The node sees each destination of its connections where the configuration places it. */
  lemma DestinationSeen(config: Config, here: NodeDecl, c: Connection) returns (n: NodeDecl)
    requires WellFormed(config) && here in config.nodes && c in PrimarySlice(config, here).connections
    ensures n in config.nodes && PlacedAt(config, c.dest, n.name)
    ensures Get(Tables.C2N(Tables.ConfigOf(PrimarySlice(config, here))), c.dest, Tables.NO_INFO) == Slice.InfoOf(n)
  {
    var p := PrimarySlice(config, here);
    SliceRebuilt(config, here);
    SliceClosed(config, here);
    assert LeadsTo(p.connections, c.dest);
    var e :| e in p.maps && e.instance == c.dest;
    n :| n in config.nodes && PlacedAt(config, e.instance, n.name)
      && Get(Tables.C2N(Tables.ConfigOf(p)), e.instance, Tables.NO_INFO) == Slice.InfoOf(n);
  }

  /** A slice never makes the node insert an entry without a component. */
  lemma SliceIsClosed(config: Config, here: NodeDecl, instances: set<Name>)
    requires WellFormed(config) && here in config.nodes
    requires forall comp :: comp in instances <==> PlacedAt(config, comp, here.name)
    ensures Tables.Closed(here.name, Tables.C2N(Tables.ConfigOf(PrimarySlice(config, here))), instances,
                          PrimarySlice(config, here).connections)
  {
    var p := PrimarySlice(config, here);
    forall c | c in p.connections && Tables.NodeOf(Tables.C2N(Tables.ConfigOf(p)), c.dest) == here.name
      ensures c.dest in instances
    {
      var n := DestinationSeen(config, here, c);
    }
  }

  lemma {:induction false} LocalPartExact(config: Config, here: NodeDecl, id: RouterId, cs: seq<Connection>)
    requires WellFormed(config) && here in config.nodes
    requires forall c :: c in cs ==> c in PrimarySlice(config, here).connections
    ensures LocalExact(id, Tables.LocalOf(id, here.name, Tables.C2N(Tables.ConfigOf(PrimarySlice(config, here))), cs),
                       LocalPart(config, here.name, cs))
  {
    if cs != [] {
      LocalPartExact(config, here, id, cs[..|cs| - 1]);
      assert cs[|cs| - 1] in cs;
      var n := DestinationSeen(config, here, cs[|cs| - 1]);
    }
  }

  lemma {:induction false} RemotePartExact(config: Config, here: NodeDecl, r: RouterState, routed: seq<Connection>,
                                           cs: seq<Connection>)
    requires WellFormed(config) && here in config.nodes
    requires forall c :: c in routed ==> c in PrimarySlice(config, here).connections
    requires Tables.ClientsOk(here.name, Tables.C2N(Tables.ConfigOf(PrimarySlice(config, here))), r, routed)
    requires forall c :: c in cs ==> c in routed
    ensures RemoteExact(config, r,
                        Tables.RemoteOf(here.name, Tables.C2N(Tables.ConfigOf(PrimarySlice(config, here))), r.clients,
                                        cs),
                        RemotePart(config, here.name, cs))
  {
    hide WellFormed, PrimarySlice, Tables.ClientsOk, PlacedAt;
    if cs != [] {
      RemotePartExact(config, here, r, routed, cs[..|cs| - 1]);
      var c := cs[|cs| - 1];
      assert c in cs;
      var n := DestinationSeen(config, here, c);
      if n.name != here.name {
        ClientEndpoint(config, here, r, routed, c, n);
        PlacedElsewhere(config, c.dest, n.name, here.name);
      }
    }
  }

  lemma PlacedElsewhere(config: Config, comp: Name, there: Name, here: Name)
    requires PlacedAt(config, comp, there) && there != here
    ensures !PlacedAt(config, comp, here)
  {
  }

  /** Whichever destination a client was created for, it is connected to the
      declared address of that destination's node. */
  lemma ClientEndpoint(config: Config, here: NodeDecl, r: RouterState, routed: seq<Connection>, c: Connection,
                       n: NodeDecl)
    requires WellFormed(config) && here in config.nodes && n in config.nodes && n.name != here.name
    requires forall x :: x in routed ==> x in PrimarySlice(config, here).connections
    requires Tables.ClientsOk(here.name, Tables.C2N(Tables.ConfigOf(PrimarySlice(config, here))), r, routed)
    requires c in routed && Tables.NodeOf(Tables.C2N(Tables.ConfigOf(PrimarySlice(config, here))), c.dest) == n.name
    ensures n.name in r.clients && r.clients[n.name] < |r.endpoints|
    ensures r.endpoints[r.clients[n.name]] == Endpoint(n.host.ip, n.host.port)
  {
    hide PrimarySlice, WellFormed, Tables.C2N;
    var p := PrimarySlice(config, here);
    var c2n := Tables.C2N(Tables.ConfigOf(p));
    assert Tables.Reached(c2n, routed, n.name);
    var e := r.endpoints[r.clients[n.name]];
    assert Tables.ConnectedFor(c2n, routed, n.name, e);
    var i :| 0 <= i < |routed| && Tables.NodeOf(c2n, routed[i].dest) == n.name
        && e == Tables.EndpointFor(c2n, routed[i].dest);
    var n' := DestinationSeen(config, here, routed[i]);
    SameDecl(config, n, n');
  }

  lemma SameDecl(config: Config, n: NodeDecl, n': NodeDecl)
    requires WellFormed(config) && n in config.nodes && n' in config.nodes && n.name == n'.name
    ensures n == n'
  {
    DeclOfMember(config.nodes, n);
    DeclOfMember(config.nodes, n');
  }

  lemma DeployedEntries(config: Config, here: NodeDecl, id: RouterId)
    requires WellFormed(config) && here in config.nodes
    ensures var r := DeployedOn(config, here, id);
            && (forall comp :: comp in r.entries <==> PlacedAt(config, comp, here.name))
            && (forall comp :: comp in r.entries ==> OwnEntry(config, id, r.entries[comp], comp))
  {
    hide PrimarySlice, WellFormed, PlacedAt;
    var p := PrimarySlice(config, here);
    var conf := Tables.ConfigOf(p);
    var c2n := Tables.C2N(conf);
    SliceContents(config, here, "");
    InstancesPlaced(config, here, id);
    var r := Tables.WithInstances(id, here.name, c2n, NEW_ROUTER, conf.components);
    SliceIsClosed(config, here, r.entries.Keys);
    Tables.KeysStay(id, here.name, c2n, r, p.connections);
    Tables.ClosedKeys(id, here.name, c2n, r, p.connections);
    NamesStay(id, here.name, c2n, r, p.connections);
  }

  /** Deployment preserves the graph, node by node. */
  lemma DeployRealizes(config: Config, here: NodeDecl, id: RouterId)
    requires WellFormed(config) && here in config.nodes
    ensures Realizes(config, here.name, id, DeployedOn(config, here, id))
  {
    hide PrimarySlice, WellFormed, PlacedAt, LocalExact, RemoteExact, DeployedOn, OwnEntry;
    DeployedEntries(config, here, id);
    var r := DeployedOn(config, here, id);
    forall comp, port: Port | comp in r.entries
      ensures LocalExact(id, RoutesAt(r, comp, port).local,
                         LocalPart(config, here.name, OutgoingAt(config.connections, comp, port)))
      ensures RemoteExact(config, r, RoutesAt(r, comp, port).remote,
                          RemotePart(config, here.name, OutgoingAt(config.connections, comp, port)))
    {
      DeployedRoutes(config, here, id, comp, port);
    }
  }

  lemma {:induction false} NamesStay(id: RouterId, here: Name, c2n: map<Name, Slice.NodeInfo>, r: RouterState,
                                     cs: seq<Connection>)
    ensures forall name :: name in r.entries ==>
              && name in Tables.WithConnections(id, here, c2n, r, cs).entries
              && Tables.WithConnections(id, here, c2n, r, cs).entries[name].name == r.entries[name].name
  {
    if cs != [] {
      NamesStay(id, here, c2n, r, cs[..|cs| - 1]);
    }
  }

  lemma DeployedRoutes(config: Config, here: NodeDecl, id: RouterId, comp: Name, port: Port)
    requires WellFormed(config) && here in config.nodes && PlacedAt(config, comp, here.name)
    ensures var r := DeployedOn(config, here, id);
            && LocalExact(id, RoutesAt(r, comp, port).local,
                          LocalPart(config, here.name, OutgoingAt(config.connections, comp, port)))
            && RemoteExact(config, r, RoutesAt(r, comp, port).remote,
                           RemotePart(config, here.name, OutgoingAt(config.connections, comp, port)))
  {
    hide PrimarySlice, WellFormed, OwnEntry, LocalExact, RemoteExact;
    var p := PrimarySlice(config, here);
    var conf := Tables.ConfigOf(p);
    var c2n := Tables.C2N(conf);
    InstancesPlaced(config, here, id);
    SliceContents(config, here, comp);
    var r := Tables.WithInstances(id, here.name, c2n, NEW_ROUTER, conf.components);
    SliceIsClosed(config, here, r.entries.Keys);
    Tables.RoutesExact(id, here.name, c2n, r, p.connections, comp, port);
    Tables.ClientsExact(id, here.name, c2n, r, p.connections);
    Tables.ClosedRouted(here.name, c2n, r.entries.Keys, p.connections);
    var routed := Tables.Routed(here.name, c2n, r.entries.Keys, p.connections);
    OutgoingAtOutgoing(p.connections, comp, port);
    OutgoingAtOutgoing(config.connections, comp, port);
    var cs := OutgoingAt(config.connections, comp, port);
    forall c | c in cs
      ensures c in routed && c in p.connections
    {
      Tables.OutgoingAtMember(p.connections, comp, port, c);
    }
    LocalPartExact(config, here, id, cs);
    RemotePartExact(config, here, DeployedOn(config, here, id), routed, cs);
  }

  // ---- The clients of a deployed node ----

  /** The connections a deployed node has routed, and its clients for them. */
  lemma DeployedByRouted(config: Config, here: NodeDecl, id: RouterId) returns (routed: seq<Connection>)
    requires WellFormed(config) && here in config.nodes
    ensures forall c ::
            c in routed <==> c in PrimarySlice(config, here).connections && PlacedAt(config, c.source, here.name)
    ensures Tables.ClientsOk(here.name, Tables.C2N(Tables.ConfigOf(PrimarySlice(config, here))),
                             DeployedOn(config, here, id), routed)
    ensures forall comp, port: Port :: PlacedAt(config, comp, here.name) ==>
              RoutesAt(DeployedOn(config, here, id), comp, port).remote
              == Tables.RemoteOf(here.name, Tables.C2N(Tables.ConfigOf(PrimarySlice(config, here))),
                                 DeployedOn(config, here, id).clients, OutgoingAt(routed, comp, port))
  {
    hide PrimarySlice, WellFormed, PlacedAt, OwnEntry, Tables.ClientsOk;
    var p := PrimarySlice(config, here);
    var conf := Tables.ConfigOf(p);
    var c2n := Tables.C2N(conf);
    SliceContents(config, here, "");
    InstancesPlaced(config, here, id);
    var r := Tables.WithInstances(id, here.name, c2n, NEW_ROUTER, conf.components);
    SliceIsClosed(config, here, r.entries.Keys);
    Tables.ClientsExact(id, here.name, c2n, r, p.connections);
    Tables.ClosedRouted(here.name, c2n, r.entries.Keys, p.connections);
    routed := Tables.Routed(here.name, c2n, r.entries.Keys, p.connections);
    forall comp, port: Port | PlacedAt(config, comp, here.name)
      ensures RoutesAt(DeployedOn(config, here, id), comp, port).remote
           == Tables.RemoteOf(here.name, c2n, DeployedOn(config, here, id).clients, OutgoingAt(routed, comp, port))
    {
      Tables.RoutesExact(id, here.name, c2n, r, p.connections, comp, port);
    }
  }

  /** Some connection leads from a component on one node to a component on the other. */
  ghost predicate ConnectsTo(config: Config, here: Name, there: Name) {
    exists c :: c in config.connections && PlacedAt(config, c.source, here) && PlacedAt(config, c.dest, there)
  }

  /** A deployed node has exactly one client for each other node some connection
      of its components leads to, connected to that node's declared address. */
  lemma DeployedClients(config: Config, here: NodeDecl, id: RouterId)
    requires WellFormed(config) && here in config.nodes
    ensures var r := DeployedOn(config, here, id);
            && |r.clients| == |r.endpoints|
            && (forall n, n' :: n in r.clients && n' in r.clients && n != n' ==> r.clients[n] != r.clients[n'])
            && (forall node :: node in r.clients <==> node != here.name && ConnectsTo(config, here.name, node))
            && (forall n :: n in config.nodes && n.name in r.clients ==>
                  r.clients[n.name] < |r.endpoints|
                    && r.endpoints[r.clients[n.name]] == Endpoint(n.host.ip, n.host.port))
  {
    hide PrimarySlice, WellFormed, PlacedAt, DeployedOn, Tables.C2N, Tables.NodeOf, Tables.ConnectedFor, ConnectsTo;
    var p := PrimarySlice(config, here);
    var c2n := Tables.C2N(Tables.ConfigOf(p));
    var r := DeployedOn(config, here, id);
    var routed := DeployedByRouted(config, here, id);
    forall node
      ensures Tables.Reached(c2n, routed, node) <==> ConnectsTo(config, here.name, node)
    {
      LeadsThere(config, here, routed, node);
    }
    forall n | n in config.nodes && n.name in r.clients
      ensures r.clients[n.name] < |r.endpoints| && r.endpoints[r.clients[n.name]] == Endpoint(n.host.ip, n.host.port)
    {
      var c :| c in routed && Tables.NodeOf(c2n, c.dest) == n.name;
      ClientEndpoint(config, here, r, routed, c, n);
    }
  }

  lemma PlacedOnce(config: Config, comp: Name, a: Name, b: Name)
    requires PlacedAt(config, comp, a) && PlacedAt(config, comp, b)
    ensures a == b
  {
  }

  lemma LeadsThere(config: Config, here: NodeDecl, routed: seq<Connection>, node: Name)
    requires WellFormed(config) && here in config.nodes
    requires forall c ::
             c in routed <==> c in PrimarySlice(config, here).connections && PlacedAt(config, c.source, here.name)
    ensures Tables.Reached(Tables.C2N(Tables.ConfigOf(PrimarySlice(config, here))), routed, node)
            <==> ConnectsTo(config, here.name, node)
  {
    hide PrimarySlice, WellFormed, PlacedAt, Tables.C2N;
    var p := PrimarySlice(config, here);
    var c2n := Tables.C2N(Tables.ConfigOf(p));
    forall c: Connection | PlacedAt(config, c.source, here.name)
      ensures c in p.connections <==> c in config.connections
      ensures c in p.connections ==> PlacedAt(config, c.dest, Tables.NodeOf(c2n, c.dest))
    {
      SliceContents(config, here, c.source);
      OutgoingMember(p.connections, c.source, c);
      OutgoingMember(config.connections, c.source, c);
      if c in p.connections {
        var n := DestinationSeen(config, here, c);
      }
    }
    if ConnectsTo(config, here.name, node) {
      var c :| c in config.connections && PlacedAt(config, c.source, here.name) && PlacedAt(config, c.dest, node);
      PlacedOnce(config, c.dest, Tables.NodeOf(c2n, c.dest), node);
      assert c in routed;
    }
  }

  /** All remote routes to one node share its one client. */
  lemma RoutesShareClients(config: Config, here: NodeDecl, id: RouterId, comp: Name, port: Port, i: nat, node: Name)
    requires WellFormed(config) && here in config.nodes && PlacedAt(config, comp, here.name)
    requires i < |RoutesAt(DeployedOn(config, here, id), comp, port).remote|
    requires PlacedAt(config, RoutesAt(DeployedOn(config, here, id), comp, port).remote[i].dest, node)
    ensures var r := DeployedOn(config, here, id);
            node in r.clients && RoutesAt(r, comp, port).remote[i].client == r.clients[node]
  {
    hide PrimarySlice, WellFormed, PlacedAt, DeployedOn, RoutesAt, Tables.C2N, Tables.NodeOf, Tables.ConnectedFor;
    var r := DeployedOn(config, here, id);
    var c2n := Tables.C2N(Tables.ConfigOf(PrimarySlice(config, here)));
    var routed := DeployedByRouted(config, here, id);
    var c := Tables.RemoteFrom(here.name, c2n, r.clients, OutgoingAt(routed, comp, port), i);
    Tables.OutgoingAtMember(routed, comp, port, c);
    assert Tables.Reached(c2n, routed, Tables.NodeOf(c2n, c.dest));
    SeenWherePlaced(config, here, c, node);
  }

  lemma SeenWherePlaced(config: Config, here: NodeDecl, c: Connection, node: Name)
    requires WellFormed(config) && here in config.nodes && c in PrimarySlice(config, here).connections
    requires PlacedAt(config, c.dest, node)
    ensures Tables.NodeOf(Tables.C2N(Tables.ConfigOf(PrimarySlice(config, here))), c.dest) == node
  {
    hide PrimarySlice, WellFormed, PlacedAt, Tables.C2N;
    var n := DestinationSeen(config, here, c);
    PlacedOnce(config, c.dest, n.name, node);
  }

  // ---- All nodes together ----

  /** The edges a router's routes at one component and port denote. */
  function EdgesAt(r: RouterState, comp: Name, port: Port): seq<Connection> {
    var rs := RoutesAt(r, comp, port);
    seq(|rs.local|, i requires 0 <= i < |rs.local| =>
      Connection(comp, port, rs.local[i].target.name, rs.local[i].inPort)) +
    seq(|rs.remote|, i requires 0 <= i < |rs.remote| =>
      Connection(comp, port, rs.remote[i].dest, rs.remote[i].inPort))
  }

  /** How often a router holds an edge. */
  function Held(r: RouterState, c: Connection): nat {
    multiset(EdgesAt(r, c.source, c.sourceOut))[c]
  }

  function HeldByAll(rs: seq<RouterState>, c: Connection): nat {
    if rs == [] then 0 else HeldByAll(rs[..|rs| - 1], c) + Held(rs[|rs| - 1], c)
  }

  lemma Appended(l: seq<Connection>, r: seq<Connection>, c: Connection)
    ensures multiset((l + [c]) + r) == multiset(l + (r + [c])) == multiset(l + r) + multiset{c}
    ensures l + [] == l && r + [] == r
  {
  }

  lemma {:induction false} PartsTogether(config: Config, here: Name, cs: seq<Connection>)
    ensures multiset(LocalPart(config, here, cs) + RemotePart(config, here, cs)) == multiset(cs)
  {
    if cs != [] {
      var init := cs[..|cs| - 1];
      PartsTogether(config, here, init);
      assert cs == init + [cs[|cs| - 1]];
      Appended(LocalPart(config, here, init), RemotePart(config, here, init), cs[|cs| - 1]);
      hide PlacedAt;
    }
  }

  lemma {:induction false} OutgoingAtCount(cs: seq<Connection>, c: Connection)
    ensures multiset(OutgoingAt(cs, c.source, c.sourceOut))[c] == multiset(cs)[c]
  {
    if cs != [] {
      OutgoingAtCount(cs[..|cs| - 1], c);
      assert cs == cs[..|cs| - 1] + [cs[|cs| - 1]];
    }
  }

  lemma {:induction false} PartsMembers(config: Config, here: Name, cs: seq<Connection>, comp: Name, port: Port)
    requires forall c :: c in cs ==> c.source == comp && c.sourceOut == port
    ensures forall c :: c in LocalPart(config, here, cs) || c in RemotePart(config, here, cs) ==>
              c.source == comp && c.sourceOut == port
  {
    if cs != [] {
      assert cs[|cs| - 1] in cs;
      PartsMembers(config, here, cs[..|cs| - 1], comp, port);
    }
  }

  /** The edges at a component and port are the configured ones, local ones first. */
  lemma EdgesExact(config: Config, here: Name, id: RouterId, r: RouterState, comp: Name, port: Port)
    requires Realizes(config, here, id, r) && comp in r.entries
    ensures var cs := OutgoingAt(config.connections, comp, port);
            EdgesAt(r, comp, port) == LocalPart(config, here, cs) + RemotePart(config, here, cs)
  {
    hide PlacedAt, IsEndpointOf;
    var cs := OutgoingAt(config.connections, comp, port);
    var local, remote := LocalPart(config, here, cs), RemotePart(config, here, cs);
    forall x | x in cs
      ensures x.source == comp && x.sourceOut == port
    {
      Tables.OutgoingAtMember(config.connections, comp, port, x);
    }
    PartsMembers(config, here, cs, comp, port);
    var edges := EdgesAt(r, comp, port);
    var rs := RoutesAt(r, comp, port);
    assert LocalExact(id, rs.local, local) && RemoteExact(config, r, rs.remote, remote);
    forall i | 0 <= i < |edges|
      ensures edges[i] == (local + remote)[i]
    {
      if i < |local| {
        assert local[i] in local;
      } else {
        assert remote[i - |local|] in remote;
      }
    }
  }

  /** A router holds the configured edges of its own components, as often as
      they are configured, and no others. */
  lemma HeldExactly(config: Config, here: Name, id: RouterId, r: RouterState, c: Connection)
    requires Realizes(config, here, id, r)
    ensures Held(r, c) == if PlacedAt(config, c.source, here) then multiset(config.connections)[c] else 0
  {
    hide PlacedAt, LocalExact, RemoteExact, OwnEntry;
    if PlacedAt(config, c.source, here) {
      EdgesExact(config, here, id, r, c.source, c.sourceOut);
      PartsTogether(config, here, OutgoingAt(config.connections, c.source, c.sourceOut));
      OutgoingAtCount(config.connections, c);
    }
  }

  /** Every node has been deployed from its slice, into whichever router object. */
  predicate AllDeployed(config: Config, ids: seq<RouterId>, rs: seq<RouterState>)
    requires WellFormed(config)
  {
    && |rs| == |config.nodes| == |ids|
    && forall k :: 0 <= k < |rs| ==>
       config.nodes[k] in config.nodes && rs[k] == DeployedOn(config, config.nodes[k], ids[k])
  }

  lemma NodeNamesDiffer(config: Config, j: nat, k: nat)
    requires WellFormed(config) && j < k < |config.nodes|
    ensures config.nodes[j].name != config.nodes[k].name
  {
  }

  lemma {:induction false} HeldUpTo(config: Config, ids: seq<RouterId>, rs: seq<RouterState>, c: Connection, n: nat)
    requires WellFormed(config) && AllDeployed(config, ids, rs) && n <= |rs|
    ensures HeldByAll(rs[..n], c) ==
            if exists k :: 0 <= k < n && PlacedAt(config, c.source, config.nodes[k].name)
            then multiset(config.connections)[c] else 0
  {
    hide WellFormed, Held, Realizes, DeployedOn;
    if n > 0 {
      HeldUpTo(config, ids, rs, c, n - 1);
      assert rs[..n][..n - 1] == rs[..n - 1];
      DeployRealizes(config, config.nodes[n - 1], ids[n - 1]);
      HeldExactly(config, config.nodes[n - 1].name, ids[n - 1], rs[n - 1], c);
      if PlacedAt(config, c.source, config.nodes[n - 1].name) {
        forall k | 0 <= k < n - 1
          ensures !PlacedAt(config, c.source, config.nodes[k].name)
        {
          NodeNamesDiffer(config, k, n - 1);
        }
      }
    }
  }

  /** Deployment preserves the graph: over all primary nodes, every edge is held
      exactly as often as it is configured. */
  lemma GraphPreserved(config: Config, ids: seq<RouterId>, rs: seq<RouterState>, c: Connection)
    requires WellFormed(config) && AllDeployed(config, ids, rs)
    ensures HeldByAll(rs, c) == multiset(config.connections)[c]
  {
    hide WellFormed, Held, DeployedOn;
    HeldUpTo(config, ids, rs, c, |rs|);
    assert rs[..|rs|] == rs;
    if c in config.connections {
      var k := SourcePlaced(config, c);
    }
  }

  lemma SourcePlaced(config: Config, c: Connection) returns (k: nat)
    requires WellFormed(config) && c in config.connections
    ensures k < |config.nodes| && PlacedAt(config, c.source, config.nodes[k].name)
  {
    assert DeclaredComponent(config, c.source);
    var d :| d in config.components && d.name == c.source;
    MappingOfPlace(config.mappings, c.source);
    var m := Mapping(c.source, Place(config.mappings, c.source));
    var n :| n in config.nodes && n.name == m.nodeName;
    k :| 0 <= k < |config.nodes| && config.nodes[k] == n;
  }
}
