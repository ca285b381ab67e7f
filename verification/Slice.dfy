/** The slice of an application that the terminal sends to one node. */
module Slice {
  import opened Configuration
  import opened DeployIndex

  datatype NodeInfo = NodeInfo(name: Name, address: string, port: Port)

  datatype Instance = Instance(name: Name, kind: Kind)

  datatype MapEntry = MapEntry(instance: Name, node: Name)

  datatype Packet = Packet(
    thisNode: Name,
    thisPort: Port,
    nodeInfos: seq<NodeInfo>,
    instances: seq<Instance>,
    maps: seq<MapEntry>,
    connections: seq<Connection>)

  /** A slice under construction with its two sets of things already added. */
  datatype Draft = Draft(packet: Packet, addedNodes: set<Name>, addedMaps: set<Name>)

  function InfoOf(n: NodeDecl): NodeInfo {
    NodeInfo(n.name, n.host.ip, n.host.port)
  }

  function Started(x: Index, here: Name): Draft {
    var decl := Get(x.nodes, here, NO_NODE);
    Draft(Packet(here, decl.host.port, [NodeInfo(here, decl.host.ip, decl.host.port)], [], [], []), {}, {})
  }

  function WithHost(x: Index, here: Name, d: Draft, comp: Name): Draft
    requires KnownKind(Get(x.components, comp, NO_COMPONENT).kind)
  {
    d.(packet := d.packet.(
         instances := d.packet.instances + [Instance(comp, KindOf(Get(x.components, comp, NO_COMPONENT).kind))],
         maps := d.packet.maps + [MapEntry(comp, here)]))
  }

  function WithLink(x: Index, here: Name, d: Draft, c: Connection): Draft {
    var linked := d.packet.(connections := d.packet.connections + [c]);
    var node := Get(x.mappingOf, c.dest, NO_MAPPING).nodeName;
    if node == here then d.(packet := linked) else
      var decl := Get(x.nodes, node, NO_NODE);
      var informed := if decl.name in d.addedNodes then linked
                      else linked.(nodeInfos := linked.nodeInfos + [InfoOf(decl)]);
      var mapped := if c.dest in d.addedMaps then informed
                    else informed.(maps := informed.maps + [MapEntry(c.dest, decl.name)]);
      Draft(mapped, d.addedNodes + {decl.name}, d.addedMaps + {c.dest})
  }

  function WithLinks(x: Index, here: Name, d: Draft, cs: seq<Connection>): Draft {
    if cs == [] then d else WithLink(x, here, WithLinks(x, here, d, cs[..|cs| - 1]), cs[|cs| - 1])
  }

  predicate KindsKnown(x: Index, ms: seq<Mapping>) {
    forall m :: m in ms ==> KnownKind(Get(x.components, m.compName, NO_COMPONENT).kind)
  }

  /** The draft after a number of hosted components. */
  function Cut(x: Index, here: Name, ms: seq<Mapping>): Draft
    requires KindsKnown(x, ms)
  {
    if ms == [] then Started(x, here) else
      var comp := ms[|ms| - 1].compName;
      assert ms[|ms| - 1] in ms;
      WithLinks(x, here, WithHost(x, here, Cut(x, here, ms[..|ms| - 1]), comp), Get(x.outgoing, comp, []))
  }

  /** The kinds of everything a node hosts are known: the program asserts this. */
  predicate Cuttable(x: Index, here: Name) {
    KindsKnown(x, Get(x.hosted, here, []))
  }

  function SliceFor(x: Index, here: Name): Packet
    requires Cuttable(x, here)
  {
    Cut(x, here, Get(x.hosted, here, [])).packet
  }

  // ---- Slices depend on readings only ----

  lemma {:induction false} LinksSame(x: Index, y: Index, here: Name, d: Draft, cs: seq<Connection>)
    requires SameReadings(x, y)
    ensures WithLinks(x, here, d, cs) == WithLinks(y, here, d, cs)
  {
    if cs != [] {
      LinksSame(x, y, here, d, cs[..|cs| - 1]);
    }
  }

  lemma {:induction false} CutSame(x: Index, y: Index, here: Name, ms: seq<Mapping>)
    requires SameReadings(x, y) && KindsKnown(x, ms)
    ensures KindsKnown(y, ms) && Cut(x, here, ms) == Cut(y, here, ms)
  {
    hide WithLinks;
    if ms != [] {
      var init, comp := ms[..|ms| - 1], ms[|ms| - 1].compName;
      assert ms[|ms| - 1] in ms;
      CutSame(x, y, here, init);
      LinksSame(x, y, here, WithHost(x, here, Cut(x, here, init), comp), Get(x.outgoing, comp, []));
    }
  }

  /** Tables that read the same give every node the same slice, so it does not
      matter which slices were cut from them before. */
  lemma SliceSame(x: Index, y: Index, here: Name)
    requires SameReadings(x, y) && Cuttable(x, here)
    ensures Cuttable(y, here) && SliceFor(x, here) == SliceFor(y, here)
  {
    CutSame(x, y, here, Get(x.hosted, here, []));
  }

  /** The terminal's handle of one node. */
  class RemoteNode {
    const nodeInformation: NodeDecl

    constructor (n: NodeDecl)
      ensures nodeInformation == n
    {
      nodeInformation := n;
    }

    /** Appends one connection, with its remote end if that is new. */
    method AddConnection(deploy: DeployConfiguration, d: Draft, conn: Connection, ghost x: Index) returns (d': Draft)
      requires SameReadings(deploy.View(), x)
      modifies deploy
      ensures d' == WithLink(x, nodeInformation.name, d, conn)
      ensures SameReadings(deploy.View(), x)
    {
      d' := d.(packet := d.packet.(connections := d.packet.connections + [conn]));
      var m := deploy.MappingAt(conn.dest);
      if m.nodeName != nodeInformation.name {
        var n := deploy.NodeAt(m.nodeName);
        if n.name !in d'.addedNodes {
          d' := Draft(d'.packet.(nodeInfos := d'.packet.nodeInfos + [InfoOf(n)]),
                      d'.addedNodes + {n.name}, d'.addedMaps);
        }
        if conn.dest !in d'.addedMaps {
          d' := Draft(d'.packet.(maps := d'.packet.maps + [MapEntry(conn.dest, n.name)]),
                      d'.addedNodes, d'.addedMaps + {conn.dest});
        }
        assert d.addedNodes + {n.name} == d'.addedNodes;
        assert d.addedMaps + {conn.dest} == d'.addedMaps;
      }
    }

    /** Appends one hosted component and everything it is connected to. */
    method AddComponent(deploy: DeployConfiguration, d: Draft, comp: Name, ghost x: Index) returns (d': Draft)
      requires SameReadings(deploy.View(), x)
      requires KnownKind(Get(x.components, comp, NO_COMPONENT).kind)
      modifies deploy
      ensures d' == WithLinks(x, nodeInformation.name, WithHost(x, nodeInformation.name, d, comp),
                              Get(x.outgoing, comp, []))
      ensures SameReadings(deploy.View(), x)
    {
      var c := deploy.ComponentAt(comp);
      d' := d.(packet := d.packet.(instances := d.packet.instances + [Instance(comp, KindOf(c.kind))],
                                   maps := d.packet.maps + [MapEntry(comp, nodeInformation.name)]));
      ghost var d0 := d';
      var conns := deploy.OutgoingFrom(comp);
      for j := 0 to |conns|
        invariant SameReadings(deploy.View(), x)
        invariant d' == WithLinks(x, nodeInformation.name, d0, conns[..j])
      {
        d' := AddConnection(deploy, d', conns[j], x);
        assert conns[..j + 1][..j] == conns[..j];
      }
      assert conns[..|conns|] == conns;
    }

    /** Cuts the slice of this node out of the tables. Missing table entries are
        filled with defaults on the way, which no later reading can tell. */
    method AsyncDeploy(deploy: DeployConfiguration) returns (packet: Packet)
      requires Cuttable(deploy.View(), nodeInformation.name)
      modifies deploy
      ensures packet == SliceFor(old(deploy.View()), nodeInformation.name)
      ensures forall y :: SameReadings(old(deploy.View()), y) ==>
                Cuttable(y, nodeInformation.name) && packet == SliceFor(y, nodeInformation.name)
      ensures SameReadings(deploy.View(), old(deploy.View()))
    {
      hide WithLinks, WithHost, KindOf;
      ghost var x := deploy.View();
      var here := nodeInformation.name;
      var decl := deploy.NodeAt(here);
      var d := Draft(Packet(here, decl.host.port, [NodeInfo(here, decl.host.ip, decl.host.port)], [], [], []), {}, {});
      var hosted := deploy.HostedAt(here);
      for i := 0 to |hosted|
        invariant SameReadings(deploy.View(), x)
        invariant d == Cut(x, here, hosted[..i])
      {
        d := AddComponent(deploy, d, hosted[i].compName, x);
        assert hosted[..i + 1][..i] == hosted[..i];
      }
      assert hosted[..|hosted|] == hosted;
      packet := d.packet;
      forall y | SameReadings(x, y)
        ensures Cuttable(y, here) && SliceFor(x, here) == SliceFor(y, here)
      {
        SliceSame(x, y, here);
      }
    }
  }
}
