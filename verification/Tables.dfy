/** The routing tables a node builds from a configuration. */
module Tables {
  import opened Configuration
  import opened DeployIndex
  import opened Routing
  import Slice

  /** Node infos by the name of a component or a node. */
  type CompNodes = map<Name, Slice.NodeInfo>

  // ---- From component to node ----

  const NO_INFO: Slice.NodeInfo := Slice.NodeInfo("", "", 0)

  /** Node infos by name; the first one inserted stays. */
  function InfoTable(infos: seq<NodeDecl>): CompNodes {
    if infos == [] then map[] else
      var t := InfoTable(infos[..|infos| - 1]);
      var n := infos[|infos| - 1];
      if n.name in t then t else t[n.name := Slice.InfoOf(n)]
  }

  /** The node info of each mapped component; the first mapping stays. */
  function CompToNode(t: CompNodes, ms: seq<Mapping>): CompNodes {
    if ms == [] then map[] else
      var c := CompToNode(t, ms[..|ms| - 1]);
      var m := ms[|ms| - 1];
      if m.compName in c then c else c[m.compName := Get(t, m.nodeName, NO_INFO)]
  }

  function NodeOf(c2n: CompNodes, comp: Name): Name {
    Get(c2n, comp, NO_INFO).name
  }

  /** Of several nodes of one name, and of several maps of one component, the first stays. */
  lemma FirstOnesStay(t: CompNodes, ns: seq<NodeDecl>, n: NodeDecl, ms: seq<Mapping>, m: Mapping)
    ensures InfoTable(ns + [n])
         == if n.name in InfoTable(ns) then InfoTable(ns) else InfoTable(ns)[n.name := Slice.InfoOf(n)]
    ensures m.compName in CompToNode(t, ms) ==> CompToNode(t, ms + [m]) == CompToNode(t, ms)
  {
    assert (ns + [n])[..|ns|] == ns && (ms + [m])[..|ms|] == ms;
  }

  // ---- Filling a router ----

  function NewEntry(id: RouterId, kind: Kind, name: Name): Entry {
    Entry(Some(Comp(kind, id, InstPtr(id, name), 0, false)), name, map[])
  }

  predicate KindsKnown(cs: seq<Component>) {
    forall c :: c in cs ==> KnownKind(c.kind)
  }

  function WithInstances(id: RouterId, here: Name, c2n: CompNodes, r: RouterState, cs: seq<Component>): RouterState
    requires KindsKnown(cs)
  {
    if cs == [] then r else
      var c := cs[|cs| - 1];
      assert c in cs;
      var r' := WithInstances(id, here, c2n, r, cs[..|cs| - 1]);
      if NodeOf(c2n, c.name) != here then r' else
        r'.(entries := r'.entries[c.name := NewEntry(id, KindOf(c.kind), c.name)])
  }

  function AddLocal(e: Entry, port: Port, route: LocalRoute): Entry {
    var rs := Get(e.ports, port, NO_ROUTES);
    e.(ports := e.ports[port := rs.(local := rs.local + [route])])
  }

  function AddRemote(e: Entry, port: Port, route: RemoteRoute): Entry {
    var rs := Get(e.ports, port, NO_ROUTES);
    e.(ports := e.ports[port := rs.(remote := rs.remote + [route])])
  }

  /** One turn of the connection loop. */
  function WithConnection(id: RouterId, here: Name, c2n: CompNodes, r: RouterState, c: Connection): RouterState {
    if c.source !in r.entries then r
    else if NodeOf(c2n, c.dest) == here then
      var es := Touch(r.entries, c.dest, NO_ENTRY);
      r.(entries := es[c.source := AddLocal(es[c.source], c.sourceOut, LocalRoute(c.destIn, InstPtr(id, c.dest)))])
    else
      var node := NodeOf(c2n, c.dest);
      var info := Get(c2n, c.dest, NO_INFO);
      var connected := if node in r.clients then r else
        r.(clients := r.clients[node := |r.endpoints|],
           endpoints := r.endpoints + [Endpoint(info.address, info.port)]);
      connected.(entries := r.entries[c.source :=
        AddRemote(r.entries[c.source], c.sourceOut, RemoteRoute(c.destIn, c.dest, connected.clients[node]))])
  }

  function WithConnections(id: RouterId, here: Name, c2n: CompNodes, r: RouterState, cs: seq<Connection>): RouterState {
    if cs == [] then r else
      WithConnection(id, here, c2n, WithConnections(id, here, c2n, r, cs[..|cs| - 1]), cs[|cs| - 1])
  }

  function C2N(conf: Config): CompNodes {
    CompToNode(InfoTable(conf.nodes), conf.mappings)
  }

  /** The tables `deploy_from_config` adds to a router. */
  function Built(id: RouterId, here: Name, r: RouterState, conf: Config): RouterState
    requires KindsKnown(conf.components)
  {
    WithConnections(id, here, C2N(conf), WithInstances(id, here, C2N(conf), r, conf.components), conf.connections)
  }

  /** The configuration a node reads back out of a deploy packet. */
  function ConfigOf(p: Slice.Packet): (conf: Config)
    ensures KindsKnown(conf.components)
  {
    Config(
      seq(|p.instances|, i requires 0
          <= i < |p.instances| => Component(p.instances[i].name, KindName(p.instances[i].kind))),
      p.connections,
      seq(|p.nodeInfos|, i requires 0 <= i < |p.nodeInfos| =>
        NodeDecl(p.nodeInfos[i].name, Address(p.nodeInfos[i].address, p.nodeInfos[i].port, 0), None)),
      seq(|p.maps|, i requires 0 <= i < |p.maps| => Mapping(p.maps[i].instance, p.maps[i].node)))
  }

  /** The router a node has after deploying a packet into a new router object. */
  function Deployed(id: RouterId, p: Slice.Packet): RouterState {
    Built(id, p.thisNode, NEW_ROUTER, ConfigOf(p))
  }

  // ---- The loops against their specification ----

  /** The local routes of a list of connections: those placed here, in order. */
  function LocalOf(id: RouterId, here: Name, c2n: CompNodes, cs: seq<Connection>): seq<LocalRoute> {
    if cs == [] then [] else
      var c := cs[|cs| - 1];
      LocalOf(id, here, c2n, cs[..|cs| - 1]) +
      if NodeOf(c2n, c.dest) == here then [LocalRoute(c.destIn, InstPtr(id, c.dest))] else []
  }

  /** The remote routes of a list of connections, in order, through the clients of a table. */
  function RemoteOf(here: Name, c2n: CompNodes, clients: map<Name, nat>, cs: seq<Connection>): seq<RemoteRoute> {
    if cs == [] then [] else
      var c := cs[|cs| - 1];
      RemoteOf(here, c2n, clients, cs[..|cs| - 1]) +
      if NodeOf(c2n, c.dest) == here then []
      else [RemoteRoute(c.destIn, c.dest, Get(clients, NodeOf(c2n, c.dest), 0))]
  }

  /** Every destination placed here is an instance here, for the connections of instances. */
  predicate Closed(here: Name, c2n: CompNodes, instances: set<Name>, cs: seq<Connection>) {
    forall c :: c in cs && c.source in instances && NodeOf(c2n, c.dest) == here ==> c.dest in instances
  }

  /** The names in the component table after some connections: the subscript on a
      local destination puts it there if the source was there. */
  function Names(here: Name, c2n: CompNodes, names: set<Name>, cs: seq<Connection>): set<Name> {
    if cs == [] then names else
      var c := cs[|cs| - 1];
      var known := Names(here, c2n, names, cs[..|cs| - 1]);
      if c.source in known && NodeOf(c2n, c.dest) == here then known + {c.dest} else known
  }

  /** The connections that find their source in the component table at their turn. */
  function Routed(here: Name, c2n: CompNodes, names: set<Name>, cs: seq<Connection>): seq<Connection> {
    if cs == [] then [] else
      var c := cs[|cs| - 1];
      var before := Routed(here, c2n, names, cs[..|cs| - 1]);
      if c.source in Names(here, c2n, names, cs[..|cs| - 1]) then before + [c] else before
  }

  /** Some connection leads to the node. */
  predicate Reached(c2n: CompNodes, cs: seq<Connection>, node: Name) {
    exists c :: c in cs && NodeOf(c2n, c.dest) == node
  }

  /** The clients for some routed connections: exactly one for each other node they
      reach, each at the address recorded for the first destination on its node. */
  ghost predicate ClientsOk(here: Name, c2n: CompNodes, r: RouterState, cs: seq<Connection>) {
    && ClientNumbers(r)
    && (forall n :: n in r.clients <==> n != here && Reached(c2n, cs, n))
    && (forall n :: n in r.clients ==> ConnectedFor(c2n, cs, n, r.endpoints[r.clients[n]]))
  }

  /** Nodes with a client and clients correspond one to one. */
  predicate ClientNumbers(r: RouterState) {
    && |r.clients| == |r.endpoints|
    && (forall n :: n in r.clients ==> r.clients[n] < |r.endpoints|)
    && (forall n, n' :: n in r.clients && n' in r.clients && n != n' ==> r.clients[n] != r.clients[n'])
  }

  /** The endpoint is the address recorded for the first destination on the node. */
  ghost predicate ConnectedFor(c2n: CompNodes, cs: seq<Connection>, node: Name, e: Endpoint) {
    exists i :: 0 <= i < |cs| && NodeOf(c2n, cs[i].dest) == node && e == EndpointFor(c2n, cs[i].dest)
                && !Reached(c2n, cs[..i], node)
  }

  function EndpointFor(c2n: CompNodes, comp: Name): Endpoint {
    Endpoint(Get(c2n, comp, NO_INFO).address, Get(c2n, comp, NO_INFO).port)
  }

  predicate Named(cs: seq<Component>, name: Name) {
    exists c :: c in cs && c.name == name
  }

  /** The last component of a name, which is the one that stays. */
  function LastNamed(cs: seq<Component>, name: Name): (c: Component)
    requires Named(cs, name)
    ensures c in cs && c.name == name
  {
    var c := cs[|cs| - 1];
    if c.name == name then c
    else
      assert cs == cs[..|cs| - 1] + [c];
      LastNamed(cs[..|cs| - 1], name)
  }

  /** A name has an instance exactly if it names a component placed here; the
      instance is new and of the kind last given for the name. */
  predicate InstanceFor(id: RouterId, here: Name, c2n: CompNodes, entries: map<Name, Entry>, cs: seq<Component>,
                        name: Name)
    requires KindsKnown(cs)
  {
    && (name in entries <==> NodeOf(c2n, name) == here && Named(cs, name))
    && (name in entries ==> entries[name] == NewEntry(id, KindOf(LastNamed(cs, name).kind), name))
  }

  lemma NamedSnoc(cs: seq<Component>, name: Name)
    requires cs != []
    ensures var init, c := cs[..|cs| - 1], cs[|cs| - 1];
            && (Named(cs, name) <==> Named(init, name) || c.name == name)
            && (c.name == name ==> LastNamed(cs, name) == c)
            && (c.name != name && Named(init, name) ==> LastNamed(cs, name) == LastNamed(init, name))
  {
    assert cs == cs[..|cs| - 1] + [cs[|cs| - 1]];
  }

  /** Instances are created for the components placed here and nothing else. */
  lemma {:induction false} InstancesOf(id: RouterId, here: Name, c2n: CompNodes, r: RouterState, cs: seq<Component>)
    requires KindsKnown(cs) && r.entries == map[]
    ensures var r' := WithInstances(id, here, c2n, r, cs);
            r' == r.(entries := r'.entries) && forall name :: InstanceFor(id, here, c2n, r'.entries, cs, name)
  {
    hide InstanceFor;
    if cs != [] {
      InstancesOf(id, here, c2n, r, cs[..|cs| - 1]);
    }
    forall name
      ensures InstanceFor(id, here, c2n, WithInstances(id, here, c2n, r, cs).entries, cs, name)
    {
      if cs == [] {
        assert InstanceFor(id, here, c2n, map[], [], name) by {
          NoInstance(id, here, c2n, name);
        }
      } else {
        var init, last := cs[..|cs| - 1], cs[|cs| - 1];
        InstanceSnoc(id, here, c2n, WithInstances(id, here, c2n, r, init).entries, cs, name);
      }
    }
  }

  lemma NoInstance(id: RouterId, here: Name, c2n: CompNodes, name: Name)
    ensures InstanceFor(id, here, c2n, map[], [], name)
  {
  }

  lemma InstanceSnoc(id: RouterId, here: Name, c2n: CompNodes, es: map<Name, Entry>, cs: seq<Component>, name: Name)
    requires KindsKnown(cs) && cs != [] && InstanceFor(id, here, c2n, es, cs[..|cs| - 1], name)
    ensures var c := cs[|cs| - 1];
            && KnownKind(c.kind)
            && InstanceFor(id, here, c2n,
                           if NodeOf(c2n, c.name) != here then es
                             else es[c.name := NewEntry(id, KindOf(c.kind), c.name)], cs, name)
  {
    hide Named, LastNamed, KindOf, NodeOf, NewEntry;
    NamedSnoc(cs, name);
  }

  lemma {:induction false} LastOfUnique(cs: seq<Component>, c: Component)
    requires UniqueComponents(cs) && c in cs
    ensures Named(cs, c.name) && LastNamed(cs, c.name) == c
  {
    if cs[|cs| - 1] != c {
      assert cs == cs[..|cs| - 1] + [cs[|cs| - 1]];
      LastOfUnique(cs[..|cs| - 1], c);
    }
  }

  lemma {:induction false} KeysStay(id: RouterId, here: Name, c2n: CompNodes, r: RouterState, cs: seq<Connection>)
    ensures var r' := WithConnections(id, here, c2n, r, cs);
            && r.entries.Keys <= r'.entries.Keys
            && (forall name :: name in r.entries ==> r'.entries[name].comp == r.entries[name].comp)
            && r' == r.(entries := r'.entries, clients := r'.clients, endpoints := r'.endpoints)
  {
    if cs != [] {
      KeysStay(id, here, c2n, r, cs[..|cs| - 1]);
    }
  }

  /** For any connections, the names in the table are those the subscripts put there. */
  lemma {:induction false} NamesExact(id: RouterId, here: Name, c2n: CompNodes, r: RouterState, cs: seq<Connection>)
    ensures WithConnections(id, here, c2n, r, cs).entries.Keys == Names(here, c2n, r.entries.Keys, cs)
  {
    if cs != [] {
      NamesExact(id, here, c2n, r, cs[..|cs| - 1]);
    }
  }

  lemma {:induction false} NamesGrow(here: Name, c2n: CompNodes, names: set<Name>, cs: seq<Connection>)
    ensures names <= Names(here, c2n, names, cs)
    ensures Closed(here, c2n, names, cs) ==> Names(here, c2n, names, cs) == names
  {
    if cs != [] {
      NamesGrow(here, c2n, names, cs[..|cs| - 1]);
      assert cs[|cs| - 1] in cs;
    }
  }

  lemma ClosedKeys(id: RouterId, here: Name, c2n: CompNodes, r: RouterState, cs: seq<Connection>)
    requires Closed(here, c2n, r.entries.Keys, cs)
    ensures WithConnections(id, here, c2n, r, cs).entries.Keys == r.entries.Keys
  {
    NamesExact(id, here, c2n, r, cs);
    NamesGrow(here, c2n, r.entries.Keys, cs);
  }

  /** The connections routed, if no destination has to be put into the table. */
  lemma {:induction false} ClosedRouted(here: Name, c2n: CompNodes, names: set<Name>, cs: seq<Connection>)
    requires Closed(here, c2n, names, cs)
    ensures forall c :: c in Routed(here, c2n, names, cs) <==> c in cs && c.source in names
  {
    if cs != [] {
      var init, last := cs[..|cs| - 1], cs[|cs| - 1];
      assert cs == init + [last];
      ClosedRouted(here, c2n, names, init);
      NamesGrow(here, c2n, names, init);
    }
  }

  lemma OutgoingAtSnoc(cs: seq<Connection>, c: Connection, comp: Name, port: Port)
    ensures OutgoingAt(cs + [c], comp, port)
         == if c.source == comp && c.sourceOut == port then OutgoingAt(cs, comp, port) + [c]
            else OutgoingAt(cs, comp, port)
  {
    assert (cs + [c])[..|cs|] == cs;
  }

  /** The connections of an instance are all routed. */
  lemma {:induction false} OwnRouted(here: Name, c2n: CompNodes, names: set<Name>, cs: seq<Connection>, comp: Name,
                                     port: Port)
    requires comp in names
    ensures OutgoingAt(Routed(here, c2n, names, cs), comp, port) == OutgoingAt(cs, comp, port)
  {
    if cs != [] {
      var init, last := cs[..|cs| - 1], cs[|cs| - 1];
      OwnRouted(here, c2n, names, init, comp, port);
      NamesGrow(here, c2n, names, init);
      if last.source in Names(here, c2n, names, init) {
        OutgoingAtSnoc(Routed(here, c2n, names, init), last, comp, port);
      }
      OutgoingAtSnoc(init, last, comp, port);
      assert cs == init + [last];
    }
  }

  /** The tables have no entry without a component exactly when every destination
      placed here is an instance here. */
  lemma AllRealIffClosed(id: RouterId, here: Name, c2n: CompNodes, r: RouterState, cs: seq<Connection>)
    requires AllReal(r)
    ensures AllReal(WithConnections(id, here, c2n, r, cs)) <==> Closed(here, c2n, r.entries.Keys, cs)
  {
    var r' := WithConnections(id, here, c2n, r, cs);
    KeysStay(id, here, c2n, r, cs);
    if Closed(here, c2n, r.entries.Keys, cs) {
      ClosedKeys(id, here, c2n, r, cs);
    } else {
      var c :| c in cs && c.source in r.entries && NodeOf(c2n, c.dest) == here && c.dest !in r.entries;
      HollowEntry(id, here, c2n, r, cs, c);
    }
  }

  lemma {:induction false} HollowEntry(id: RouterId, here: Name, c2n: CompNodes, r: RouterState, cs: seq<Connection>,
                                       c: Connection)
    requires c in cs && c.source in r.entries && NodeOf(c2n, c.dest) == here && c.dest !in r.entries
    ensures c.dest in WithConnections(id, here, c2n, r, cs).entries
    ensures WithConnections(id, here, c2n, r, cs).entries[c.dest].comp.None?
  {
    var init, last := cs[..|cs| - 1], cs[|cs| - 1];
    KeysStay(id, here, c2n, r, init);
    if c in init {
      HollowEntry(id, here, c2n, r, init, c);
    } else {
      assert last == c;
      StillHollow(id, here, c2n, r, init, c.dest);
    }
  }

  lemma {:induction false} StillHollow(id: RouterId, here: Name, c2n: CompNodes, r: RouterState, cs: seq<Connection>,
                                       name: Name)
    requires name !in r.entries
    ensures name in WithConnections(id, here, c2n, r, cs).entries ==>
              WithConnections(id, here, c2n, r, cs).entries[name].comp.None?
  {
    if cs != [] {
      StillHollow(id, here, c2n, r, cs[..|cs| - 1], name);
    }
  }

  lemma {:induction false} RemoteMono(here: Name, c2n: CompNodes, a: map<Name, nat>, b: map<Name, nat>,
                                      cs: seq<Connection>)
    requires forall c :: c in cs && NodeOf(c2n, c.dest) != here ==>
               NodeOf(c2n, c.dest) in a && NodeOf(c2n, c.dest) in b && a[NodeOf(c2n, c.dest)] == b[NodeOf(c2n, c.dest)]
    ensures RemoteOf(here, c2n, a, cs) == RemoteOf(here, c2n, b, cs)
  {
    if cs != [] {
      RemoteMono(here, c2n, a, b, cs[..|cs| - 1]);
      assert cs[|cs| - 1] in cs;
    }
  }

  /** Each remote route is that of some connection to another node. */
  lemma {:induction false} RemoteFrom(here: Name, c2n: CompNodes, clients: map<Name, nat>, cs: seq<Connection>, i: nat)
    returns (c: Connection)
    requires i < |RemoteOf(here, c2n, clients, cs)|
    ensures c in cs && NodeOf(c2n, c.dest) != here
    ensures RemoteOf(here, c2n, clients, cs)[i] == RemoteRoute(c.destIn, c.dest, Get(clients, NodeOf(c2n, c.dest), 0))
  {
    var init := cs[..|cs| - 1];
    if i < |RemoteOf(here, c2n, clients, init)| {
      c := RemoteFrom(here, c2n, clients, init, i);
    } else {
      c := cs[|cs| - 1];
    }
  }

  lemma {:induction false} OutgoingAtMember(cs: seq<Connection>, comp: Name, port: Port, c: Connection)
    ensures c in OutgoingAt(cs, comp, port) <==> c in cs && c.source == comp && c.sourceOut == port
  {
    if cs != [] {
      OutgoingAtMember(cs[..|cs| - 1], comp, port, c);
      assert cs == cs[..|cs| - 1] + [cs[|cs| - 1]];
    }
  }

  /** Every routed connection to another node has a client. */
  ghost predicate RemoteConnected(here: Name, c2n: CompNodes, clients: map<Name, nat>, routed: seq<Connection>) {
    forall c :: c in routed && NodeOf(c2n, c.dest) != here ==> NodeOf(c2n, c.dest) in clients
  }

  lemma StepRoutes(id: RouterId, here: Name, c2n: CompNodes, r: RouterState, c: Connection, comp: Name, port: Port)
    ensures var r' := WithConnection(id, here, c2n, r, c);
            var before := RoutesAt(r, comp, port);
            var node := NodeOf(c2n, c.dest);
            && (c.source in r.entries && node != here ==> node in r'.clients)
            && (forall n :: n in r.clients ==> n in r'.clients && r'.clients[n] == r.clients[n])
            && RoutesAt(r', comp, port)
            == if c.source !in r.entries || c.source != comp || c.sourceOut != port then before
               else if node == here then Routes(before.local + [LocalRoute(c.destIn, InstPtr(id, c.dest))],
                                                before.remote)
               else Routes(before.local, before.remote + [RemoteRoute(c.destIn, c.dest, r'.clients[node])])
  {
  }

  /** For any connections, each name and port get exactly the routed connections
      that leave them, in order: local ones to entries here, remote ones through
      the one client of the destination's node. An instance gets all of its own. */
  lemma {:induction false} RoutesExact(id: RouterId, here: Name, c2n: CompNodes, r: RouterState, cs: seq<Connection>,
                                       comp: Name, port: Port)
    requires RoutesAt(r, comp, port) == NO_ROUTES && r.clients == map[]
    ensures var r' := WithConnections(id, here, c2n, r, cs);
            var routed := Routed(here, c2n, r.entries.Keys, cs);
            && RemoteConnected(here, c2n, r'.clients, routed)
            && RoutesAt(r', comp, port).local == LocalOf(id, here, c2n, OutgoingAt(routed, comp, port))
            && RoutesAt(r', comp, port).remote == RemoteOf(here, c2n, r'.clients, OutgoingAt(routed, comp, port))
            && (comp in r.entries ==> OutgoingAt(routed, comp, port) == OutgoingAt(cs, comp, port))
  {
    if comp in r.entries {
      OwnRouted(here, c2n, r.entries.Keys, cs, comp, port);
    }
    if cs != [] {
      var init, c := cs[..|cs| - 1], cs[|cs| - 1];
      RoutesExact(id, here, c2n, r, init, comp, port);
      NamesExact(id, here, c2n, r, init);
      RoutesSnoc(id, here, c2n, WithConnections(id, here, c2n, r, init), Routed(here, c2n, r.entries.Keys, init), c,
                 comp, port);
    }
  }

  /** One more connection, after which the tables still hold what was routed. */
  lemma RoutesSnoc(id: RouterId, here: Name, c2n: CompNodes, r: RouterState, routed: seq<Connection>,
                   c: Connection, comp: Name, port: Port)
    requires RemoteConnected(here, c2n, r.clients, routed)
    requires RoutesAt(r, comp, port).local == LocalOf(id, here, c2n, OutgoingAt(routed, comp, port))
    requires RoutesAt(r, comp, port).remote == RemoteOf(here, c2n, r.clients, OutgoingAt(routed, comp, port))
    ensures var r' := WithConnection(id, here, c2n, r, c);
            var routed' := if c.source in r.entries then routed + [c] else routed;
            && RemoteConnected(here, c2n, r'.clients, routed')
            && RoutesAt(r', comp, port).local == LocalOf(id, here, c2n, OutgoingAt(routed', comp, port))
            && RoutesAt(r', comp, port).remote == RemoteOf(here, c2n, r'.clients, OutgoingAt(routed', comp, port))
  {
    StepRoutes(id, here, c2n, r, c, comp, port);
    if c.source in r.entries {
      hide LocalOf, RemoteOf, OutgoingAt, RoutesAt, WithConnection;
      SnocRoutes(id, here, c2n, r.clients, WithConnection(id, here, c2n, r, c).clients, routed, c, comp, port);
    }
  }

  lemma SnocRoutes(id: RouterId, here: Name, c2n: CompNodes, clients: map<Name, nat>, clients': map<Name, nat>,
                   init: seq<Connection>, c: Connection, comp: Name, port: Port)
    requires RemoteConnected(here, c2n, clients, init)
    requires forall n :: n in clients ==> n in clients' && clients'[n] == clients[n]
    ensures var mine := OutgoingAt(init, comp, port);
            var here' := NodeOf(c2n, c.dest) == here;
            var leaves := c.source == comp && c.sourceOut == port;
            && LocalOf(id, here, c2n, OutgoingAt(init + [c], comp, port))
            == LocalOf(id, here, c2n, mine)
               + (if leaves && here' then [LocalRoute(c.destIn, InstPtr(id, c.dest))] else [])
            && RemoteOf(here, c2n, clients', OutgoingAt(init + [c], comp, port))
            == RemoteOf(here, c2n, clients, mine) +
               (if leaves && !here' then [RemoteRoute(c.destIn, c.dest, Get(clients', NodeOf(c2n, c.dest), 0))] else [])
  {
    var mine := OutgoingAt(init, comp, port);
    assert (init + [c])[..|init|] == init;
    assert (mine + [c])[..|mine|] == mine;
    forall x | x in mine && NodeOf(c2n, x.dest) != here
      ensures NodeOf(c2n, x.dest) in clients
    {
      OutgoingAtMember(init, comp, port, x);
    }
    RemoteMono(here, c2n, clients, clients', mine);
  }

  lemma ReachedSnoc(c2n: CompNodes, cs: seq<Connection>, c: Connection, node: Name)
    ensures Reached(c2n, cs + [c], node) <==> Reached(c2n, cs, node) || NodeOf(c2n, c.dest) == node
  {
    assert c in cs + [c];
  }

  lemma ConnectedForMore(c2n: CompNodes, cs: seq<Connection>, more: Connection, node: Name, e: Endpoint)
    requires ConnectedFor(c2n, cs, node, e)
    ensures ConnectedFor(c2n, cs + [more], node, e)
  {
    var i :| 0 <= i < |cs| && NodeOf(c2n, cs[i].dest) == node && e == EndpointFor(c2n, cs[i].dest)
             && !Reached(c2n, cs[..i], node);
    assert (cs + [more])[i] == cs[i] && (cs + [more])[..i] == cs[..i];
  }

  lemma StepClients(id: RouterId, here: Name, c2n: CompNodes, r: RouterState, c: Connection)
    ensures var r' := WithConnection(id, here, c2n, r, c);
            var node := NodeOf(c2n, c.dest);
            if c.source in r.entries && node != here && node !in r.clients
            then r'.clients == r.clients[node := |r.endpoints|]
                 && r'.endpoints == r.endpoints + [EndpointFor(c2n, c.dest)]
            else r'.clients == r.clients && r'.endpoints == r.endpoints
  {
  }

  /** Exactly one client per distinct remote node reached by a routed connection. */
  lemma {:induction false} ClientsExact(id: RouterId, here: Name, c2n: CompNodes, r: RouterState, cs: seq<Connection>)
    requires r.clients == map[] && r.endpoints == []
    ensures ClientsOk(here, c2n, WithConnections(id, here, c2n, r, cs), Routed(here, c2n, r.entries.Keys, cs))
  {
    if cs != [] {
      var init, c := cs[..|cs| - 1], cs[|cs| - 1];
      ClientsExact(id, here, c2n, r, init);
      NamesExact(id, here, c2n, r, init);
      var r1 := WithConnections(id, here, c2n, r, init);
      StepClients(id, here, c2n, r1, c);
      hide ClientsOk;
      if c.source in r1.entries {
        ClientsSnoc(here, c2n, r1, WithConnection(id, here, c2n, r1, c), Routed(here, c2n, r.entries.Keys, init), c);
      }
    }
  }

  /** In terms of the connections alone, when every local destination is an instance. */
  lemma ClientsOfInstances(id: RouterId, here: Name, c2n: CompNodes, r: RouterState, cs: seq<Connection>)
    requires r.clients == map[] && r.endpoints == [] && Closed(here, c2n, r.entries.Keys, cs)
    ensures forall n :: n in WithConnections(id, here, c2n, r, cs).clients <==>
              n != here && exists c :: c in cs && c.source in r.entries && NodeOf(c2n, c.dest) == n
  {
    ClientsExact(id, here, c2n, r, cs);
    ClosedRouted(here, c2n, r.entries.Keys, cs);
  }

  lemma ConnectedByLast(c2n: CompNodes, init: seq<Connection>, c: Connection)
    requires !Reached(c2n, init, NodeOf(c2n, c.dest))
    ensures ConnectedFor(c2n, init + [c], NodeOf(c2n, c.dest), EndpointFor(c2n, c.dest))
  {
    assert (init + [c])[|init|] == c && (init + [c])[..|init|] == init;
  }

  lemma ClientsKept(here: Name, c2n: CompNodes, r: RouterState, init: seq<Connection>, c: Connection)
    requires ClientsOk(here, c2n, r, init) && (NodeOf(c2n, c.dest) == here || NodeOf(c2n, c.dest) in r.clients)
    ensures ClientsOk(here, c2n, r, init + [c])
  {
    hide ConnectedFor, Reached, NodeOf;
    StillConnected(here, c2n, r, init, c);
  }

  lemma ClientAdded(here: Name, c2n: CompNodes, r: RouterState, r': RouterState, cs: seq<Connection>,
                    node: Name, e: Endpoint)
    requires ClientNumbers(r) && node != here && node !in r.clients
    requires r'.clients == r.clients[node := |r.endpoints|] && r'.endpoints == r.endpoints + [e]
    requires forall n :: n in r.clients || n == node <==> n != here && Reached(c2n, cs, n)
    requires forall n :: n in r.clients ==> ConnectedFor(c2n, cs, n, r.endpoints[r.clients[n]])
    requires ConnectedFor(c2n, cs, node, e)
    ensures ClientsOk(here, c2n, r', cs)
  {
    hide ConnectedFor, Reached;
    NumberAdded(r, r', node, e);
    forall n
      ensures n in r'.clients <==> n in r.clients || n == node
      ensures n in r'.clients ==>
              r'.clients[n] < |r'.endpoints| && ConnectedFor(c2n, cs, n, r'.endpoints[r'.clients[n]])
    {
      OneConnected(c2n, r, r', cs, node, e, n);
    }
    hide ClientNumbers;
  }

  lemma OneConnected(c2n: CompNodes, r: RouterState, r': RouterState, cs: seq<Connection>,
                     node: Name, e: Endpoint, n: Name)
    requires ClientNumbers(r) && node !in r.clients
    requires r'.clients == r.clients[node := |r.endpoints|] && r'.endpoints == r.endpoints + [e]
    requires n in r.clients ==> ConnectedFor(c2n, cs, n, r.endpoints[r.clients[n]])
    requires ConnectedFor(c2n, cs, node, e)
    ensures n in r'.clients <==> n in r.clients || n == node
    ensures n in r'.clients ==> r'.clients[n] < |r'.endpoints| && ConnectedFor(c2n, cs, n, r'.endpoints[r'.clients[n]])
  {
    hide ConnectedFor;
  }

  lemma NumberAdded(r: RouterState, r': RouterState, node: Name, e: Endpoint)
    requires ClientNumbers(r) && node !in r.clients
    requires r'.clients == r.clients[node := |r.endpoints|] && r'.endpoints == r.endpoints + [e]
    ensures ClientNumbers(r')
  {
    assert |r'.clients| == |r.clients| + 1;
  }

  lemma StillConnected(here: Name, c2n: CompNodes, r: RouterState, init: seq<Connection>, c: Connection)
    requires ClientsOk(here, c2n, r, init)
    ensures forall n :: Reached(c2n, init + [c], n) <==> Reached(c2n, init, n) || NodeOf(c2n, c.dest) == n
    ensures forall n :: n in r.clients ==> ConnectedFor(c2n, init + [c], n, r.endpoints[r.clients[n]])
  {
    hide ConnectedFor, Reached, NodeOf;
    forall n: Name
      ensures Reached(c2n, init + [c], n) <==> Reached(c2n, init, n) || NodeOf(c2n, c.dest) == n
      ensures n in r.clients ==> ConnectedFor(c2n, init + [c], n, r.endpoints[r.clients[n]])
    {
      ReachedSnoc(c2n, init, c, n);
      if n in r.clients {
        ConnectedForMore(c2n, init, c, n, r.endpoints[r.clients[n]]);
      }
    }
  }

  lemma ClientsSnoc(here: Name, c2n: CompNodes, r: RouterState, r': RouterState, init: seq<Connection>, c: Connection)
    requires ClientsOk(here, c2n, r, init)
    requires var node := NodeOf(c2n, c.dest);
             if node != here && node !in r.clients
             then r'.clients == r.clients[node := |r.endpoints|]
                  && r'.endpoints == r.endpoints + [EndpointFor(c2n, c.dest)]
             else r'.clients == r.clients && r'.endpoints == r.endpoints
    ensures ClientsOk(here, c2n, r', init + [c])
  {
    if NodeOf(c2n, c.dest) != here && NodeOf(c2n, c.dest) !in r.clients {
      hide ConnectedFor, Reached, EndpointFor;
      StillConnected(here, c2n, r, init, c);
      ConnectedByLast(c2n, init, c);
      ClientAdded(here, c2n, r, r', init + [c], NodeOf(c2n, c.dest), EndpointFor(c2n, c.dest));
    } else {
      ClientsKept(here, c2n, r, init, c);
    }
  }

  // ---- Tables of any packet, well formed or not ----

  /** Pointers stay inside the router: every component refers to the router it is
      in and to its own entry, local routes point at entries, remote routes at
      clients. Nothing has run yet. */
  ghost predicate Fresh(id: RouterId, r: RouterState) {
    && !r.started && r.inPackets == 0 && r.outPackets == 0
    && (forall comp :: comp in r.entries && r.entries[comp].comp.Some? ==>
          r.entries[comp].comp.value == Comp(r.entries[comp].comp.value.kind, id, InstPtr(id, comp), 0, false))
    && (forall n :: n in r.clients ==> r.clients[n] < |r.endpoints|)
    && (forall comp, port: Port :: comp in r.entries ==>
          && RemoteValid(RoutesAt(r, comp, port).remote, |r.endpoints|)
          && LocalValid(id, RoutesAt(r, comp, port).local, r.entries.Keys))
  }

  lemma {:induction false} InstancesFresh(id: RouterId, here: Name, c2n: CompNodes, cs: seq<Component>)
    requires KindsKnown(cs)
    ensures Fresh(id, WithInstances(id, here, c2n, NEW_ROUTER, cs))
    ensures forall comp :: comp in WithInstances(id, here, c2n, NEW_ROUTER, cs).entries ==>
              WithInstances(id, here, c2n, NEW_ROUTER, cs).entries[comp].ports == map[]
  {
    if cs != [] {
      InstancesFresh(id, here, c2n, cs[..|cs| - 1]);
    }
  }

  lemma ConnectionFresh(id: RouterId, here: Name, c2n: CompNodes, r: RouterState, c: Connection)
    requires Fresh(id, r)
    ensures Fresh(id, WithConnection(id, here, c2n, r, c))
  {
    var r' := WithConnection(id, here, c2n, r, c);
    if c.source in r.entries {
      forall comp, port: Port | comp in r'.entries
        ensures RemoteValid(RoutesAt(r', comp, port).remote, |r'.endpoints|)
        ensures LocalValid(id, RoutesAt(r', comp, port).local, r'.entries.Keys)
      {
        if comp in r.entries {
          StepRoutes(id, here, c2n, r, c, comp, port);
          assert r.entries.Keys <= r'.entries.Keys;
          assert RemoteValid(RoutesAt(r, comp, port).remote, |r.endpoints|);
          assert LocalValid(id, RoutesAt(r, comp, port).local, r.entries.Keys);
        }
      }
    }
  }

  lemma {:induction false} ConnectionsFresh(id: RouterId, here: Name, c2n: CompNodes, r: RouterState,
                                            cs: seq<Connection>)
    requires Fresh(id, r)
    ensures Fresh(id, WithConnections(id, here, c2n, r, cs))
  {
    if cs != [] {
      ConnectionsFresh(id, here, c2n, r, cs[..|cs| - 1]);
      ConnectionFresh(id, here, c2n, WithConnections(id, here, c2n, r, cs[..|cs| - 1]), cs[|cs| - 1]);
    }
  }

  /** Whatever the packet says, deploying it leaves no pointer out of the router. */
  lemma DeployedFresh(id: RouterId, p: Slice.Packet)
    ensures Fresh(id, Deployed(id, p))
  {
    hide Fresh;
    var conf := ConfigOf(p);
    InstancesFresh(id, p.thisNode, C2N(conf), conf.components);
    ConnectionsFresh(id, p.thisNode, C2N(conf), WithInstances(id, p.thisNode, C2N(conf), NEW_ROUTER, conf.components),
                     conf.connections);
  }
}
