/** Which deploy packets a node can run: the condition on the packet itself under
    which its tables have no entry without a component. */
module Packets {
  import opened Configuration
  import opened DeployIndex
  import opened Routing
  import opened SliceProperties
  import Slice
  import Tables

  /** The node the first map of a component names. */
  function FirstMap(maps: seq<Slice.MapEntry>, comp: Name): Option<Name> {
    if maps == [] then None
    else if maps[0].instance == comp then Some(maps[0].node)
    else FirstMap(maps[1..], comp)
  }

  /** Where a packet says a component is: the node of its first map, if the packet
      describes that node; otherwise the empty name. */
  function NodeIn(p: Slice.Packet, comp: Name): Name {
    var node := FirstMap(p.maps, comp);
    if node.Some? && HasInfo(p.nodeInfos, node.value) then node.value else ""
  }

  predicate HasInstance(p: Slice.Packet, comp: Name) {
    exists i :: 0 <= i < |p.instances| && p.instances[i].name == comp
  }

  /** The component becomes an instance on the node the packet is for. */
  predicate Created(p: Slice.Packet, comp: Name) {
    HasInstance(p, comp) && NodeIn(p, comp) == p.thisNode
  }

  /** Whatever an instance is connected to on this node is an instance too. */
  predicate SelfContained(p: Slice.Packet) {
    forall c :: c in p.connections && Created(p, c.source) && NodeIn(p, c.dest) == p.thisNode ==> Created(p, c.dest)
  }

  // ---- The node's own table says the same ----

  lemma {:induction false} FirstMapSnoc(maps: seq<Slice.MapEntry>, comp: Name)
    requires maps != []
    ensures var before, last := FirstMap(maps[..|maps| - 1], comp), maps[|maps| - 1];
            FirstMap(maps, comp) == if before.Some? then before else if last.instance == comp then Some(last.node)
              else None
  {
    if |maps| > 1 {
      assert maps[1..][..|maps| - 2] == maps[..|maps| - 1][1..];
      FirstMapSnoc(maps[1..], comp);
    }
  }

  lemma {:induction false} InfoNamed(ns: seq<NodeDecl>, node: Name)
    ensures node in Tables.InfoTable(ns) <==> exists n :: n in ns && n.name == node
    ensures node in Tables.InfoTable(ns) ==> Tables.InfoTable(ns)[node].name == node
  {
    if ns != [] {
      InfoNamed(ns[..|ns| - 1], node);
      assert ns == ns[..|ns| - 1] + [ns[|ns| - 1]];
    }
  }

  lemma {:induction false} FirstMapStays(t: map<Name, Slice.NodeInfo>, maps: seq<Slice.MapEntry>, ms: seq<Mapping>,
                                         comp: Name)
    requires |ms| == |maps| && forall i :: 0 <= i < |ms| ==> ms[i] == Mapping(maps[i].instance, maps[i].node)
    ensures var node := FirstMap(maps, comp);
            Get(Tables.CompToNode(t, ms), comp, Tables.NO_INFO)
            == if node.Some? then Get(t, node.value, Tables.NO_INFO) else Tables.NO_INFO
    ensures comp in Tables.CompToNode(t, ms) <==> FirstMap(maps, comp).Some?
  {
    if maps != [] {
      FirstMapStays(t, maps[..|maps| - 1], ms[..|ms| - 1], comp);
      FirstMapSnoc(maps, comp);
    }
  }

  /** The table a node builds from a packet places every component where the packet says. */
  lemma NodeInExact(p: Slice.Packet, comp: Name)
    ensures Tables.NodeOf(Tables.C2N(Tables.ConfigOf(p)), comp) == NodeIn(p, comp)
  {
    var conf := Tables.ConfigOf(p);
    FirstMapStays(Tables.InfoTable(conf.nodes), p.maps, conf.mappings, comp);
    var node := FirstMap(p.maps, comp);
    if node.Some? {
      InfoNamed(conf.nodes, node.value);
      if HasInfo(p.nodeInfos, node.value) {
        var i :| 0 <= i < |p.nodeInfos| && p.nodeInfos[i].name == node.value;
        assert conf.nodes[i] in conf.nodes;
      }
    }
  }

  lemma InstancesNamed(p: Slice.Packet, comp: Name)
    ensures Tables.Named(Tables.ConfigOf(p).components, comp) <==> HasInstance(p, comp)
  {
    var cs := Tables.ConfigOf(p).components;
    if HasInstance(p, comp) {
      var i :| 0 <= i < |p.instances| && p.instances[i].name == comp;
      assert cs[i] in cs;
    }
  }

  /** The instances a packet creates. */
  lemma CreatedExactly(id: RouterId, p: Slice.Packet, comp: Name)
    ensures var conf := Tables.ConfigOf(p);
            comp in Tables.WithInstances(id, p.thisNode, Tables.C2N(conf), NEW_ROUTER, conf.components).entries
            <==> Created(p, comp)
  {
    hide NodeIn, HasInstance, Tables.Named, Tables.NodeOf, Tables.C2N, Tables.WithInstances;
    var conf := Tables.ConfigOf(p);
    var c2n := Tables.C2N(conf);
    Tables.InstancesOf(id, p.thisNode, c2n, NEW_ROUTER, conf.components);
    var es := Tables.WithInstances(id, p.thisNode, c2n, NEW_ROUTER, conf.components).entries;
    assert Tables.InstanceFor(id, p.thisNode, c2n, es, conf.components, comp);
    NodeInExact(p, comp);
    InstancesNamed(p, comp);
  }

  /** Deploying a packet, whatever it says, leaves every entry with a component
      exactly when the packet is self-contained. */
  lemma DeployableIff(id: RouterId, p: Slice.Packet)
    ensures AllReal(Tables.Deployed(id, p)) <==> SelfContained(p)
  {
    hide Created, NodeIn, Tables.NodeOf, Tables.C2N, Tables.WithInstances, Tables.WithConnections;
    var conf := Tables.ConfigOf(p);
    var c2n := Tables.C2N(conf);
    var r := Tables.WithInstances(id, p.thisNode, c2n, NEW_ROUTER, conf.components);
    InstancesReal(id, p);
    Tables.AllRealIffClosed(id, p.thisNode, c2n, r, p.connections);
    forall comp: Name
      ensures comp in r.entries <==> Created(p, comp)
      ensures Tables.NodeOf(c2n, comp) == NodeIn(p, comp)
    {
      CreatedExactly(id, p, comp);
      NodeInExact(p, comp);
    }
  }

  lemma InstancesReal(id: RouterId, p: Slice.Packet)
    ensures var conf := Tables.ConfigOf(p);
            AllReal(Tables.WithInstances(id, p.thisNode, Tables.C2N(conf), NEW_ROUTER, conf.components))
  {
    hide Tables.NodeOf, Tables.C2N, Tables.WithInstances, Tables.Named, Tables.LastNamed;
    var conf := Tables.ConfigOf(p);
    var c2n := Tables.C2N(conf);
    Tables.InstancesOf(id, p.thisNode, c2n, NEW_ROUTER, conf.components);
    var es := Tables.WithInstances(id, p.thisNode, c2n, NEW_ROUTER, conf.components).entries;
    forall comp | comp in es
      ensures es[comp].comp.Some?
    {
      assert Tables.InstanceFor(id, p.thisNode, c2n, es, conf.components, comp);
    }
  }

  // ---- A packet that is not ----

  /** It maps component B to its node but carries no instance of it. */
  const HOLLOW: Slice.Packet := Slice.Packet(
    "node", 80,
    [Slice.NodeInfo("node", "10.0.0.1", 80)],
    [Slice.Instance("A", Calc)],
    [Slice.MapEntry("A", "node"), Slice.MapEntry("B", "node")],
    [Connection("A", 0, "B", 0)])

  lemma HollowFails(id: RouterId)
    ensures !SelfContained(HOLLOW)
    ensures !AllReal(Tables.Deployed(id, HOLLOW))
  {
    DeployableIff(id, HOLLOW);
    assert HOLLOW.nodeInfos[0].name == "node" && HOLLOW.instances[0].name == "A";
    assert FirstMap(HOLLOW.maps, "A") == Some("node");
    assert HOLLOW.maps[1..][0] == Slice.MapEntry("B", "node");
    assert FirstMap(HOLLOW.maps, "B") == Some("node");
    assert Created(HOLLOW, "A") && NodeIn(HOLLOW, "B") == "node" && !HasInstance(HOLLOW, "B");
    assert HOLLOW.connections[0] in HOLLOW.connections;
  }
}
