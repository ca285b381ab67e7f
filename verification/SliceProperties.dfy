/** What the slice of a primary node contains: the hosted part of the graph,
    closed under one hop, without duplicates and consistent with the placement. */
module SliceProperties {
  import opened Configuration
  import opened DeployIndex
  import opened Slice

  ghost predicate Resolves(config: Config, x: Index) {
    && (forall c :: c in config.components ==> Get(x.components, c.name, NO_COMPONENT) == c)
    && (forall n :: n in config.nodes ==> Get(x.nodes, n.name, NO_NODE) == n)
    && (forall comp :: Get(x.outgoing, comp, []) == Outgoing(config.connections, comp))
    && (forall m :: m in config.mappings ==> Get(x.mappingOf, m.compName, NO_MAPPING) == m)
    && (forall n :: n in config.nodes ==> Get(x.hosted, n.name, []) == Hosted(config.mappings, n.name))
  }

  predicate PlacedAt(config: Config, comp: Name, node: Name) {
    IsMapped(config.mappings, comp) && Place(config.mappings, comp) == node
  }

  predicate HasInfo(infos: seq<NodeInfo>, node: Name) {
    exists i :: 0 <= i < |infos| && infos[i].name == node
  }

  predicate LeadsTo(cs: seq<Connection>, comp: Name) {
    exists c :: c in cs && c.dest == comp
  }

  // ---- The invariant of the cutting loops ----

  /** The maps agree with the placement, list no component twice, and list a
      remote component exactly when it is recorded as added. */
  ghost predicate MapsOk(config: Config, here: Name, ms: seq<Mapping>, d: Draft) {
    && (forall e :: e in d.packet.maps ==> PlacedAt(config, e.instance, e.node))
    && (forall i, j :: 0 <= i < j < |d.packet.maps| ==> d.packet.maps[i].instance != d.packet.maps[j].instance)
    && (forall comp :: comp in d.addedMaps <==>
          exists e :: e in d.packet.maps && e.instance == comp && e.node != here)
    && (forall comp :: MapEntry(comp, here) in d.packet.maps <==> Mapping(comp, here) in ms)
  }

  /** The node infos are declarations, name no node twice, and name exactly this
      node and the nodes recorded as added. */
  ghost predicate InfosOk(config: Config, here: Name, d: Draft) {
    && here !in d.addedNodes
    && (forall info :: info in d.packet.nodeInfos ==> exists n :: n in config.nodes && info == InfoOf(n))
    && (forall i, j :: 0 <= i < j < |d.packet.nodeInfos| ==> d.packet.nodeInfos[i].name != d.packet.nodeInfos[j].name)
    && (forall node :: HasInfo(d.packet.nodeInfos, node) <==> node == here || node in d.addedNodes)
  }

  /** Remote components and nodes are added exactly for the remote ends of the connections. */
  ghost predicate ReachOk(config: Config, here: Name, d: Draft) {
    && (forall c :: c in d.packet.connections ==> c in config.connections)
    && (forall comp :: comp in d.addedMaps <==> LeadsTo(d.packet.connections, comp) && !PlacedAt(config, comp, here))
    && (forall node :: node in d.addedNodes <==>
          node != here && exists comp :: LeadsTo(d.packet.connections, comp) && PlacedAt(config, comp, node))
  }

  ghost predicate DraftOk(config: Config, here: Name, ms: seq<Mapping>, d: Draft) {
    MapsOk(config, here, ms, d) && InfosOk(config, here, d) && ReachOk(config, here, d)
  }

  lemma HostKeepsOk(config: Config, x: Index, here: Name, ms: seq<Mapping>, d: Draft, comp: Name)
    requires WellFormed(config) && Resolves(config, x)
    requires Mapping(comp, here) in config.mappings && (forall m :: m in ms ==> m.compName != comp)
    requires KnownKind(Get(x.components, comp, NO_COMPONENT).kind)
    requires DraftOk(config, here, ms, d)
    ensures DraftOk(config, here, ms + [Mapping(comp, here)], WithHost(x, here, d, comp))
  {
    var d' := WithHost(x, here, d, comp);
    PlaceOfMapping(config.mappings, Mapping(comp, here));
    var added := MapEntry(comp, here);
    assert d'.packet.maps == d.packet.maps + [added];
    assert forall e :: e in d'.packet.maps <==> e in d.packet.maps || e == added;
    forall e | e in d.packet.maps
      ensures e.instance != comp
    {
      assert PlacedAt(config, e.instance, e.node);
      assert Mapping(comp, here) !in ms && added !in d.packet.maps;
    }
  }

  lemma LeadsToSnoc(cs: seq<Connection>, c: Connection)
    ensures forall comp :: LeadsTo(cs + [c], comp) <==> LeadsTo(cs, comp) || comp == c.dest
  {
    forall comp: Name
      ensures LeadsTo(cs + [c], comp) <==> LeadsTo(cs, comp) || comp == c.dest
    {
      if LeadsTo(cs, comp) {
        var y :| y in cs && y.dest == comp;
        assert y in cs + [c];
      }
      if comp == c.dest {
        assert c in cs + [c];
      }
    }
  }

  lemma HasInfoSnoc(infos: seq<NodeInfo>, info: NodeInfo)
    ensures forall node :: HasInfo(infos + [info], node) <==> HasInfo(infos, node) || node == info.name
  {
    forall node: Name
      ensures HasInfo(infos + [info], node) <==> HasInfo(infos, node) || node == info.name
    {
      if HasInfo(infos, node) {
        var i :| 0 <= i < |infos| && infos[i].name == node;
        assert (infos + [info])[i].name == node;
      }
      if node == info.name {
        assert (infos + [info])[|infos|].name == node;
      }
    }
  }

  /** In a well-formed configuration a destination is placed on one declared node. */
  lemma DestPlaced(config: Config, x: Index, c: Connection) returns (n: NodeDecl)
    requires WellFormed(config) && Resolves(config, x) && c in config.connections
    ensures n in config.nodes && PlacedAt(config, c.dest, n.name)
    ensures Get(x.mappingOf, c.dest, NO_MAPPING).nodeName == n.name && Get(x.nodes, n.name, NO_NODE) == n
  {
    var comp :| comp in config.components && comp.name == c.dest;
    MappingOfPlace(config.mappings, c.dest);
    var m := Mapping(c.dest, Place(config.mappings, c.dest));
    n :| n in config.nodes && n.name == m.nodeName;
  }

  lemma LinkKeepsMaps(config: Config, x: Index, here: Name, ms: seq<Mapping>, d: Draft, c: Connection)
    requires WellFormed(config) && Resolves(config, x) && c in config.connections
    requires MapsOk(config, here, ms, d)
    ensures MapsOk(config, here, ms, WithLink(x, here, d, c))
  {
    var n := DestPlaced(config, x, c);
    var d' := WithLink(x, here, d, c);
    var added := MapEntry(c.dest, n.name);
    if n.name != here && c.dest !in d.addedMaps {
      assert d'.packet.maps == d.packet.maps + [added];
      assert forall e :: e in d'.packet.maps <==> e in d.packet.maps || e == added;
      forall e | e in d.packet.maps
        ensures e.instance != c.dest
      {
        assert PlacedAt(config, e.instance, e.node);
      }
      assert added in d'.packet.maps;
    } else {
      assert d'.packet.maps == d.packet.maps;
      assert d'.addedMaps == d.addedMaps;
    }
  }

  lemma LinkKeepsInfos(config: Config, x: Index, here: Name, d: Draft, c: Connection)
    requires WellFormed(config) && Resolves(config, x) && c in config.connections
    requires InfosOk(config, here, d)
    ensures InfosOk(config, here, WithLink(x, here, d, c))
  {
    var n := DestPlaced(config, x, c);
    var d' := WithLink(x, here, d, c);
    if n.name != here && n.name !in d.addedNodes {
      HasInfoSnoc(d.packet.nodeInfos, InfoOf(n));
      assert d'.packet.nodeInfos == d.packet.nodeInfos + [InfoOf(n)];
      forall i | 0 <= i < |d.packet.nodeInfos|
        ensures d.packet.nodeInfos[i].name != n.name
      {
        assert HasInfo(d.packet.nodeInfos, d.packet.nodeInfos[i].name);
      }
    } else {
      assert d'.packet.nodeInfos == d.packet.nodeInfos && d'.addedNodes == d.addedNodes;
    }
  }

  lemma LinkKeepsReach(config: Config, x: Index, here: Name, d: Draft, c: Connection)
    requires WellFormed(config) && Resolves(config, x) && c in config.connections
    requires ReachOk(config, here, d)
    ensures ReachOk(config, here, WithLink(x, here, d, c))
  {
    var n := DestPlaced(config, x, c);
    hide WellFormed, Resolves, PlacedAt;
    var d' := WithLink(x, here, d, c);
    LeadsToSnoc(d.packet.connections, c);
    assert d'.packet.connections == d.packet.connections + [c];
    assert LeadsTo(d'.packet.connections, c.dest);
    if n.name != here {
      assert d'.addedNodes == d.addedNodes + {n.name};
    }
  }

  lemma {:induction false} LinksKeepOk(config: Config, x: Index, here: Name, ms: seq<Mapping>, d: Draft,
                                       cs: seq<Connection>)
    requires WellFormed(config) && Resolves(config, x) && (forall c :: c in cs ==> c in config.connections)
    requires DraftOk(config, here, ms, d)
    ensures DraftOk(config, here, ms, WithLinks(x, here, d, cs))
  {
    if cs != [] {
      var init, c := cs[..|cs| - 1], cs[|cs| - 1];
      assert c in cs;
      LinksKeepOk(config, x, here, ms, d, init);
      var d1 := WithLinks(x, here, d, init);
      LinkKeepsMaps(config, x, here, ms, d1, c);
      LinkKeepsInfos(config, x, here, d1, c);
      LinkKeepsReach(config, x, here, d1, c);
    }
  }

  lemma HostedKeepsOk(config: Config, x: Index, here: Name, ms: seq<Mapping>, d: Draft, comp: Name)
    requires WellFormed(config) && Resolves(config, x)
    requires Mapping(comp, here) in config.mappings && (forall m :: m in ms ==> m.compName != comp)
    requires KnownKind(Get(x.components, comp, NO_COMPONENT).kind)
    requires DraftOk(config, here, ms, d)
    ensures DraftOk(config, here, ms + [Mapping(comp, here)],
                    WithLinks(x, here, WithHost(x, here, d, comp), Get(x.outgoing, comp, [])))
  {
    HostKeepsOk(config, x, here, ms, d, comp);
    forall c | c in Get(x.outgoing, comp, [])
      ensures c in config.connections
    {
      OutgoingMember(config.connections, comp, c);
    }
    LinksKeepOk(config, x, here, ms + [Mapping(comp, here)], WithHost(x, here, d, comp), Get(x.outgoing, comp, []));
  }

  lemma StartedOk(config: Config, x: Index, here: NodeDecl)
    requires WellFormed(config) && Resolves(config, x) && here in config.nodes
    ensures DraftOk(config, here.name, [], Started(x, here.name))
  {
    var d := Started(x, here.name);
    assert d.packet.nodeInfos == [] + [InfoOf(here)];
    HasInfoSnoc([], InfoOf(here));
  }

  lemma {:induction false} CutOk(config: Config, x: Index, here: NodeDecl, ms: seq<Mapping>, n: nat)
    requires WellFormed(config) && Resolves(config, x) && here in config.nodes
    requires MappedOnce(ms) && (forall m :: m in ms ==> m in config.mappings && m.nodeName == here.name)
    requires n <= |ms| && KindsKnown(x, ms)
    ensures DraftOk(config, here.name, ms[..n], Cut(x, here.name, ms[..n]))
  {
    hide DraftOk, WellFormed, Resolves, WithLinks, WithHost;
    if n == 0 {
      StartedOk(config, x, here);
    } else {
      CutOk(config, x, here, ms, n - 1);
      var init, comp := ms[..n - 1], ms[n - 1].compName;
      assert ms[n - 1] in ms && ms[n - 1] == Mapping(comp, here.name);
      assert forall m :: m in init ==> m.compName != comp;
      assert ms[..n][..n - 1] == init && ms[..n] == init + [Mapping(comp, here.name)];
      HostedKeepsOk(config, x, here.name, init, Cut(x, here.name, init), comp);
    }
  }

  // ---- Instances and connections of a slice ----

  lemma {:induction false} LinksFrame(x: Index, here: Name, d: Draft, cs: seq<Connection>)
    ensures var p := WithLinks(x, here, d, cs).packet;
            && p.connections == d.packet.connections + cs
            && p.instances == d.packet.instances
            && p.thisNode == d.packet.thisNode && p.thisPort == d.packet.thisPort
  {
    if cs == [] {
      assert d.packet.connections + cs == d.packet.connections;
    } else {
      LinksFrame(x, here, d, cs[..|cs| - 1]);
      assert d.packet.connections + cs[..|cs| - 1] + [cs[|cs| - 1]] == d.packet.connections + cs;
    }
  }

  predicate InstancesMatch(x: Index, ms: seq<Mapping>, instances: seq<Instance>)
    requires KindsKnown(x, ms)
  {
    && |instances| == |ms|
    && forall i :: 0 <= i < |ms| ==>
         && ms[i] in ms
         && instances[i] == Instance(ms[i].compName, KindOf(Get(x.components, ms[i].compName, NO_COMPONENT).kind))
  }

  /** What one more hosted component adds to the instances and connections. */
  lemma CutSnoc(x: Index, here: Name, ms: seq<Mapping>)
    requires KindsKnown(x, ms) && ms != []
    ensures var comp := ms[|ms| - 1].compName;
            && ms[|ms| - 1] in ms && KindsKnown(x, ms[..|ms| - 1])
            && var p, q := Cut(x, here, ms).packet, Cut(x, here, ms[..|ms| - 1]).packet;
            && p.thisNode == q.thisNode && p.thisPort == q.thisPort
            && p.instances == q.instances + [Instance(comp, KindOf(Get(x.components, comp, NO_COMPONENT).kind))]
            && p.connections == q.connections + Get(x.outgoing, comp, [])
  {
    var comp := ms[|ms| - 1].compName;
    assert ms[|ms| - 1] in ms;
    LinksFrame(x, here, WithHost(x, here, Cut(x, here, ms[..|ms| - 1]), comp), Get(x.outgoing, comp, []));
  }

  /** The instances of a slice are the hosted components, in mapping order and
      with their declared kinds. */
  lemma {:induction false} CutInstances(x: Index, here: Name, ms: seq<Mapping>)
    requires KindsKnown(x, ms)
    ensures var p := Cut(x, here, ms).packet;
            && p.thisNode == here && p.thisPort == Get(x.nodes, here, NO_NODE).host.port
            && InstancesMatch(x, ms, p.instances)
  {
    if ms != [] {
      CutSnoc(x, here, ms);
      hide Cut, KindOf, Get;
      CutInstances(x, here, ms[..|ms| - 1]);
    }
  }

  lemma IsMappedSnoc(ms: seq<Mapping>, comp: Name)
    requires ms != [] && MappedOnce(ms)
    ensures var init, last := ms[..|ms| - 1], ms[|ms| - 1].compName;
            && MappedOnce(init)
            && (IsMapped(ms, comp) <==> IsMapped(init, comp) || last == comp)
            && (last == comp ==> !IsMapped(init, comp))
  {
    assert ms == ms[..|ms| - 1] + [ms[|ms| - 1]];
  }

  /** Each component's own connections are all that is recorded for it. */
  ghost predicate OutgoingOwn(x: Index) {
    forall c :: Get(x.outgoing, c, []) == Outgoing(Get(x.outgoing, c, []), c)
  }

  lemma OutgoingFromOther(x: Index, source: Name, comp: Name)
    requires OutgoingOwn(x)
    ensures Outgoing(Get(x.outgoing, source, []), comp) == if source == comp then Get(x.outgoing, comp, []) else []
  {
    OutgoingOfOutgoing(Get(x.outgoing, source, []), source, comp);
  }

  /** The connections of a slice are all that leave the hosted components. */
  lemma {:induction false} CutConnections(x: Index, here: Name, ms: seq<Mapping>, comp: Name)
    requires KindsKnown(x, ms) && MappedOnce(ms) && OutgoingOwn(x)
    ensures Outgoing(Cut(x, here, ms).packet.connections, comp)
         == if IsMapped(ms, comp) then Get(x.outgoing, comp, []) else []
  {
    if ms != [] {
      var init, source := ms[..|ms| - 1], ms[|ms| - 1].compName;
      CutSnoc(x, here, ms);
      IsMappedSnoc(ms, comp);
      hide Cut, Outgoing, KindOf, Get, IsMapped, MappedOnce, OutgoingOwn;
      CutConnections(x, here, init, comp);
      OutgoingConcat(Cut(x, here, init).packet.connections, Get(x.outgoing, source, []), comp);
      OutgoingFromOther(x, source, comp);
    }
  }

  /** A map of a destination on another node, at the node the terminal's tables name. */
  ghost predicate RemoteMap(x: Index, here: Name, cs: seq<Connection>, e: MapEntry) {
    exists c :: c in cs && c.dest == e.instance && Get(x.mappingOf, c.dest, NO_MAPPING).nodeName != here
                && e.node == Get(x.nodes, Get(x.mappingOf, c.dest, NO_MAPPING).nodeName, NO_NODE).name
  }

  /** The maps of a slice in the making: each hosted component on the node itself, and
      beyond these only destinations elsewhere. The node describes itself first. */
  ghost predicate OwnMaps(x: Index, here: Name, ms: seq<Mapping>, p: Packet) {
    && |p.nodeInfos| > 0
    && p.nodeInfos[0] == NodeInfo(here, Get(x.nodes, here, NO_NODE).host.ip, Get(x.nodes, here, NO_NODE).host.port)
    && (forall m :: m in ms ==> MapEntry(m.compName, here) in p.maps)
    && (forall e :: e in p.maps ==>
          (e.node == here && IsMapped(ms, e.instance)) || RemoteMap(x, here, p.connections, e))
  }

  lemma RemoteMapMore(x: Index, here: Name, cs: seq<Connection>, more: seq<Connection>, e: MapEntry)
    requires RemoteMap(x, here, cs, e)
    ensures RemoteMap(x, here, cs + more, e)
  {
    var c :| c in cs && c.dest == e.instance && Get(x.mappingOf, c.dest, NO_MAPPING).nodeName != here
             && e.node == Get(x.nodes, Get(x.mappingOf, c.dest, NO_MAPPING).nodeName, NO_NODE).name;
    assert c in cs + more;
  }

  lemma LinkKeepsOwn(x: Index, here: Name, ms: seq<Mapping>, d: Draft, c: Connection)
    requires OwnMaps(x, here, ms, d.packet)
    ensures OwnMaps(x, here, ms, WithLink(x, here, d, c).packet)
  {
    hide IsMapped;
    var p, q := d.packet, WithLink(x, here, d, c).packet;
    assert c in q.connections && q.connections == p.connections + [c];
    forall e | e in q.maps
      ensures (e.node == here && IsMapped(ms, e.instance)) || RemoteMap(x, here, q.connections, e)
    {
      if e in p.maps && RemoteMap(x, here, p.connections, e) {
        RemoteMapMore(x, here, p.connections, [c], e);
      }
    }
  }

  lemma {:induction false} LinksKeepOwn(x: Index, here: Name, ms: seq<Mapping>, d: Draft, cs: seq<Connection>)
    requires OwnMaps(x, here, ms, d.packet)
    ensures OwnMaps(x, here, ms, WithLinks(x, here, d, cs).packet)
  {
    hide OwnMaps;
    if cs != [] {
      LinksKeepOwn(x, here, ms, d, cs[..|cs| - 1]);
      LinkKeepsOwn(x, here, ms, WithLinks(x, here, d, cs[..|cs| - 1]), cs[|cs| - 1]);
    }
  }

  lemma HostKeepsOwn(x: Index, here: Name, ms: seq<Mapping>, d: Draft, m: Mapping)
    requires OwnMaps(x, here, ms, d.packet) && KnownKind(Get(x.components, m.compName, NO_COMPONENT).kind)
    ensures OwnMaps(x, here, ms + [m], WithHost(x, here, d, m.compName).packet)
  {
    hide RemoteMap;
    assert m in ms + [m];
    forall comp
      ensures IsMapped(ms, comp) || comp == m.compName ==> IsMapped(ms + [m], comp)
    {
      if IsMapped(ms, comp) {
        var y :| y in ms && y.compName == comp;
        assert y in ms + [m];
      }
    }
  }

  lemma {:induction false} CutOwn(x: Index, here: Name, ms: seq<Mapping>)
    requires KindsKnown(x, ms)
    ensures OwnMaps(x, here, ms, Cut(x, here, ms).packet)
  {
    if ms != [] {
      var init, m := ms[..|ms| - 1], ms[|ms| - 1];
      assert m in ms && ms == init + [m];
      CutOwn(x, here, init);
      hide OwnMaps;
      HostKeepsOwn(x, here, init, Cut(x, here, init), m);
      LinksKeepOwn(x, here, ms, WithHost(x, here, Cut(x, here, init), m.compName), Get(x.outgoing, m.compName, []));
    }
  }

  /** Whatever node a slice is for, pair or primary, it describes that node, carries an
      instance of each hosted component with its kind, and maps each of them to it. */
  lemma AnySlice(x: Index, here: Name)
    requires Cuttable(x, here)
    ensures var p, ms := SliceFor(x, here), Get(x.hosted, here, []);
            && p.thisNode == here && p.thisPort == Get(x.nodes, here, NO_NODE).host.port
            && InstancesMatch(x, ms, p.instances) && OwnMaps(x, here, ms, p)
  {
    CutInstances(x, here, Get(x.hosted, here, []));
    CutOwn(x, here, Get(x.hosted, here, []));
  }

  lemma {:induction false} HostedOnce(ms: seq<Mapping>, node: Name)
    requires MappedOnce(ms)
    ensures MappedOnce(Hosted(ms, node))
  {
    if ms != [] {
      var init, m := ms[..|ms| - 1], ms[|ms| - 1];
      HostedOnce(init, node);
      var rest := Hosted(init, node);
      forall i | 0 <= i < |rest|
        ensures rest[i].compName != m.compName
      {
        HostedMember(init, node, rest[i]);
      }
    }
  }

  /** A primary node of a well-formed configuration can always be cut. */
  lemma PrimaryCuttable(config: Config, x: Index, here: NodeDecl)
    requires WellFormed(config) && Resolves(config, x) && here in config.nodes
    ensures Cuttable(x, here.name)
  {
    forall m | m in Get(x.hosted, here.name, [])
      ensures KnownKind(Get(x.components, m.compName, NO_COMPONENT).kind)
    {
      HostedMember(config.mappings, here.name, m);
      var c :| c in config.components && c.name == m.compName;
    }
  }

  function PrimarySlice(config: Config, here: NodeDecl): Packet
    requires WellFormed(config) && here in config.nodes
  {
    IndexResolves(config);
    PrimaryCuttable(config, IndexOf(config), here);
    SliceFor(IndexOf(config), here.name)
  }

  /** Slices are closed and duplicate-free. The maps of a primary node's slice are
      a function that agrees with the placement; each node is described once, as
      declared; a component is mapped exactly when it is hosted here or is the
      destination of an included connection, and a node is described exactly when
      it is this one or hosts such a destination: nothing two hops away gets in. */
  lemma SliceClosed(config: Config, here: NodeDecl)
    requires WellFormed(config) && here in config.nodes
    ensures var p := PrimarySlice(config, here);
            && (forall e :: e in p.maps ==> PlacedAt(config, e.instance, e.node))
            && (forall i, j :: 0 <= i < j < |p.maps| ==> p.maps[i].instance != p.maps[j].instance)
            && (forall comp :: (exists e :: e in p.maps && e.instance == comp) <==>
                  PlacedAt(config, comp, here.name) || LeadsTo(p.connections, comp))
            && (forall info :: info in p.nodeInfos ==> exists n :: n in config.nodes && info == InfoOf(n))
            && (forall i, j :: 0 <= i < j < |p.nodeInfos| ==> p.nodeInfos[i].name != p.nodeInfos[j].name)
            && (forall node :: HasInfo(p.nodeInfos, node) <==>
                  node == here.name || exists comp :: LeadsTo(p.connections, comp) && PlacedAt(config, comp, node))
  {
    var x := IndexOf(config);
    IndexResolves(config);
    PrimaryCuttable(config, x, here);
    var ms := Hosted(config.mappings, here.name);
    HostedOnce(config.mappings, here.name);
    forall m
      ensures m in ms <==> m in config.mappings && m.nodeName == here.name
    {
      HostedMember(config.mappings, here.name, m);
    }
    CutOk(config, x, here, ms, |ms|);
    assert ms[..|ms|] == ms;
    var d := Cut(x, here.name, ms);
    forall comp
      ensures (exists e :: e in d.packet.maps && e.instance == comp) <==>
              PlacedAt(config, comp, here.name) || LeadsTo(d.packet.connections, comp)
    {
      MappedExactly(config, here, ms, d, comp);
    }
  }

  lemma MappedExactly(config: Config, here: NodeDecl, ms: seq<Mapping>, d: Draft, comp: Name)
    requires WellFormed(config) && DraftOk(config, here.name, ms, d)
    requires forall m :: m in ms <==> m in config.mappings && m.nodeName == here.name
    ensures (exists e :: e in d.packet.maps && e.instance == comp) <==>
            PlacedAt(config, comp, here.name) || LeadsTo(d.packet.connections, comp)
  {
    if PlacedAt(config, comp, here.name) {
      MappingOfPlace(config.mappings, comp);
      assert MapEntry(comp, here.name) in d.packet.maps;
    } else if e :| e in d.packet.maps && e.instance == comp {
      assert PlacedAt(config, e.instance, e.node);
      assert comp in d.addedMaps;
    }
  }

  /** What a slice says about one component: its instance if it is hosted here,
      and its connections, all of them and in configuration order. */
  lemma SliceContents(config: Config, here: NodeDecl, comp: Name)
    requires WellFormed(config) && here in config.nodes
    ensures var p := PrimarySlice(config, here);
            && p.thisNode == here.name && p.thisPort == here.host.port
            && Outgoing(p.connections, comp)
            == (if PlacedAt(config, comp, here.name) then Outgoing(config.connections, comp) else [])
            && (forall i, j :: 0 <= i < j < |p.instances| ==> p.instances[i].name != p.instances[j].name)
            && (forall kind :: Instance(comp, kind) in p.instances <==>
                  PlacedAt(config, comp, here.name) && Component(comp, KindName(kind)) in config.components)
  {
    var x := IndexOf(config);
    IndexResolves(config);
    PrimaryCuttable(config, x, here);
    var ms := Hosted(config.mappings, here.name);
    HostedOnce(config.mappings, here.name);
    forall c: Name
      ensures Get(x.outgoing, c, []) == Outgoing(Get(x.outgoing, c, []), c)
    {
      OutgoingOfOutgoing(config.connections, c, c);
    }
    CutInstances(x, here.name, ms);
    CutConnections(x, here.name, ms, comp);
    HostedExactly(config, here, comp);
    var p := PrimarySlice(config, here);
    forall kind
      ensures Instance(comp, kind) in p.instances <==>
              PlacedAt(config, comp, here.name) && Component(comp, KindName(kind)) in config.components
    {
      forall m | m in ms
        ensures m in config.mappings
      {
        HostedMember(config.mappings, here.name, m);
      }
      if IsMapped(ms, comp) {
        InstanceKind(config, x, ms, p.instances, comp, kind);
      }
    }
  }

  lemma HostedExactly(config: Config, here: NodeDecl, comp: Name)
    requires WellFormed(config)
    ensures IsMapped(Hosted(config.mappings, here.name), comp) <==> PlacedAt(config, comp, here.name)
  {
    var ms := Hosted(config.mappings, here.name);
    if IsMapped(ms, comp) {
      var m :| m in ms && m.compName == comp;
      HostedMember(config.mappings, here.name, m);
      PlaceOfMapping(config.mappings, m);
    }
    if PlacedAt(config, comp, here.name) {
      MappingOfPlace(config.mappings, comp);
      HostedMember(config.mappings, here.name, Mapping(comp, here.name));
    }
  }

  lemma InstanceKind(config: Config, x: Index, ms: seq<Mapping>, instances: seq<Instance>, comp: Name, kind: Kind)
    requires WellFormed(config) && Resolves(config, x) && (forall m :: m in ms ==> m in config.mappings)
    requires KindsKnown(x, ms) && InstancesMatch(x, ms, instances) && MappedOnce(ms) && IsMapped(ms, comp)
    ensures Instance(comp, kind) in instances <==> Component(comp, KindName(kind)) in config.components
  {
    var m :| m in ms && m.compName == comp;
    var i :| 0 <= i < |ms| && ms[i] == m;
    var c :| c in config.components && c.name == comp;
    KindRoundTrip(c.kind);
    assert instances[i] == Instance(comp, KindOf(c.kind));
    assert forall c' :: c' in config.components && c'.name == comp ==> c' == c;
  }
}
