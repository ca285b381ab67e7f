/** The terminal's indexes over a configuration: five associative tables filled
    in one pass over each list. Reading a table with the C++ subscript operator
    inserts a default entry for a missing key; `Touch` is that insertion. */
module DeployIndex {
  import opened Configuration

  function Get<K, V>(m: map<K, V>, k: K, default: V): V {
    if k in m then m[k] else default
  }

  function Touch<K, V>(m: map<K, V>, k: K, default: V): map<K, V> {
    if k in m then m else m[k := default]
  }

  const NO_ADDRESS: Address := Address("", 0, 0)
  const NO_NODE: NodeDecl := NodeDecl("", NO_ADDRESS, None)
  const NO_MAPPING: Mapping := Mapping("", "")
  const NO_COMPONENT: Component := Component("", "")

  /** The value of the five tables. */
  datatype Index = Index(
    mappingOf: map<Name, Mapping>,
    components: map<Name, Component>,
    nodes: map<Name, NodeDecl>,
    hosted: map<Name, seq<Mapping>>,
    outgoing: map<Name, seq<Connection>>)

  const EMPTY_INDEX: Index := Index(map[], map[], map[], map[], map[])

  // ---- What each pass leaves in the tables ----

  function WithComponents(x: Index, cs: seq<Component>): Index {
    if cs == [] then x else
      var x' := WithComponents(x, cs[..|cs| - 1]);
      var c := cs[|cs| - 1];
      x'.(components := x'.components[c.name := c])
  }

  function WithConnections(x: Index, cs: seq<Connection>): Index {
    if cs == [] then x else
      var x' := WithConnections(x, cs[..|cs| - 1]);
      var c := cs[|cs| - 1];
      x'.(outgoing := x'.outgoing[c.source := Get(x'.outgoing, c.source, []) + [c]])
  }

  function PairDecl(n: NodeDecl): NodeDecl
    requires n.pairnode.Some?
  {
    NodeDecl(PairName(n.name), n.pairnode.value, None)
  }

  function WithNode(x: Index, n: NodeDecl): Index {
    var paired := if n.pairnode.Some? then x.nodes[PairName(n.name) := PairDecl(n)] else x.nodes;
    x.(nodes := paired[n.name := n])
  }

  function WithNodes(x: Index, ns: seq<NodeDecl>): Index {
    if ns == [] then x else WithNode(WithNodes(x, ns[..|ns| - 1]), ns[|ns| - 1])
  }

  /** One call of `map`. */
  function Placed(x: Index, m: Mapping): Index {
    x.(hosted := x.hosted[m.nodeName := Get(x.hosted, m.nodeName, []) + [m]],
       mappingOf := x.mappingOf[m.compName := m])
  }

  function Mirror(m: Mapping): Mapping {
    Mapping(m.compName, PairName(m.nodeName))
  }

  function WithMapping(x: Index, m: Mapping): Index {
    var t := x.(nodes := Touch(x.nodes, m.nodeName, NO_NODE));
    Placed(if t.nodes[m.nodeName].pairnode.Some? then Placed(t, Mirror(m)) else t, m)
  }

  function WithMappings(x: Index, ms: seq<Mapping>): Index {
    if ms == [] then x else WithMapping(WithMappings(x, ms[..|ms| - 1]), ms[|ms| - 1])
  }

  function IndexOf(config: Config): Index {
    WithMappings(
      WithNodes(WithConnections(WithComponents(EMPTY_INDEX, config.components), config.connections), config.nodes),
      config.mappings)
  }

  /** Two sets of tables that every subscript reads the same way. */
  ghost predicate SameReadings(x: Index, y: Index) {
    && (forall k: Name :: Get(x.mappingOf, k, NO_MAPPING) == Get(y.mappingOf, k, NO_MAPPING))
    && (forall k: Name :: Get(x.components, k, NO_COMPONENT) == Get(y.components, k, NO_COMPONENT))
    && (forall k: Name :: Get(x.nodes, k, NO_NODE) == Get(y.nodes, k, NO_NODE))
    && (forall k: Name :: Get(x.hosted, k, []) == Get(y.hosted, k, []))
    && (forall k: Name :: Get(x.outgoing, k, []) == Get(y.outgoing, k, []))
  }

  class DeployConfiguration {
    var mappingOf: map<Name, Mapping>
    var components: map<Name, Component>
    var nodes: map<Name, NodeDecl>
    var hosted: map<Name, seq<Mapping>>
    var outgoing: map<Name, seq<Connection>>

    function View(): Index
      reads this
    {
      Index(mappingOf, components, nodes, hosted, outgoing)
    }

    constructor ()
      ensures View() == EMPTY_INDEX
    {
      mappingOf, components, nodes, hosted, outgoing := map[], map[], map[], map[], map[];
    }

    /** Rebuilds the tables from a configuration; nothing of an earlier one is kept. */
    method ParseDeploy(config: Config)
      modifies this
      ensures View() == IndexOf(config)
    {
      mappingOf, components, outgoing, nodes, hosted := map[], map[], map[], map[], map[];
      AddComponents(config.components);
      AddConnections(config.connections);
      AddNodes(config.nodes);
      AddMappings(config.mappings);
    }

    method AddComponents(cs: seq<Component>)
      modifies this
      ensures View() == WithComponents(old(View()), cs)
    {
      for i := 0 to |cs|
        invariant View() == WithComponents(old(View()), cs[..i])
      {
        components := components[cs[i].name := cs[i]];
        assert cs[..i + 1][..i] == cs[..i];
      }
      assert cs[..|cs|] == cs;
    }

    method AddConnections(cs: seq<Connection>)
      modifies this
      ensures View() == WithConnections(old(View()), cs)
    {
      for i := 0 to |cs|
        invariant View() == WithConnections(old(View()), cs[..i])
      {
        outgoing := Touch(outgoing, cs[i].source, []);
        outgoing := outgoing[cs[i].source := outgoing[cs[i].source] + [cs[i]]];
        assert cs[..i + 1][..i] == cs[..i];
      }
      assert cs[..|cs|] == cs;
    }

    method AddNodes(ns: seq<NodeDecl>)
      modifies this
      ensures View() == WithNodes(old(View()), ns)
    {
      for i := 0 to |ns|
        invariant View() == WithNodes(old(View()), ns[..i])
      {
        var n := ns[i];
        if n.pairnode.Some? {
          nodes := nodes[PairName(n.name) := NodeDecl(PairName(n.name), n.pairnode.value, None)];
        }
        nodes := nodes[n.name := n];
        assert ns[..i + 1][..i] == ns[..i];
      }
      assert ns[..|ns|] == ns;
    }

    method AddMappings(ms: seq<Mapping>)
      modifies this
      ensures View() == WithMappings(old(View()), ms)
    {
      for i := 0 to |ms|
        invariant View() == WithMappings(old(View()), ms[..i])
      {
        var m := ms[i];
        nodes := Touch(nodes, m.nodeName, NO_NODE);
        if nodes[m.nodeName].pairnode.Some? {
          Map(Mapping(m.compName, PairName(m.nodeName)));
        }
        Map(m);
        assert ms[..i + 1][..i] == ms[..i];
      }
      assert ms[..|ms|] == ms;
    }

    method Map(m: Mapping)
      modifies this
      ensures View() == Placed(old(View()), m)
    {
      hosted := Touch(hosted, m.nodeName, []);
      hosted := hosted[m.nodeName := hosted[m.nodeName] + [m]];
      mappingOf := mappingOf[m.compName := m];
    }

    // The subscript reads made while a slice is cut.

    method MappingAt(comp: Name) returns (m: Mapping)
      modifies this
      ensures m == Get(old(mappingOf), comp, NO_MAPPING)
      ensures SameReadings(View(), old(View()))
    {
      mappingOf := Touch(mappingOf, comp, NO_MAPPING);
      m := mappingOf[comp];
    }

    method ComponentAt(comp: Name) returns (c: Component)
      modifies this
      ensures c == Get(old(components), comp, NO_COMPONENT)
      ensures SameReadings(View(), old(View()))
    {
      components := Touch(components, comp, NO_COMPONENT);
      c := components[comp];
    }

    method NodeAt(node: Name) returns (n: NodeDecl)
      modifies this
      ensures n == Get(old(nodes), node, NO_NODE)
      ensures SameReadings(View(), old(View()))
    {
      nodes := Touch(nodes, node, NO_NODE);
      n := nodes[node];
    }

    method HostedAt(node: Name) returns (ms: seq<Mapping>)
      modifies this
      ensures ms == Get(old(hosted), node, [])
      ensures SameReadings(View(), old(View()))
    {
      hosted := Touch(hosted, node, []);
      ms := hosted[node];
    }

    method OutgoingFrom(comp: Name) returns (cs: seq<Connection>)
      modifies this
      ensures cs == Get(old(outgoing), comp, [])
      ensures SameReadings(View(), old(View()))
    {
      outgoing := Touch(outgoing, comp, []);
      cs := outgoing[comp];
    }
  }

  // ---- What the tables resolve to ----

  lemma {:induction false} ComponentsFrame(x: Index, cs: seq<Component>)
    ensures WithComponents(x, cs) == x.(components := WithComponents(x, cs).components)
  {
    if cs != [] {
      ComponentsFrame(x, cs[..|cs| - 1]);
    }
  }

  lemma {:induction false} ComponentsResolve(x: Index, cs: seq<Component>, c: Component)
    requires UniqueComponents(cs) && c in cs
    ensures Get(WithComponents(x, cs).components, c.name, NO_COMPONENT) == c
  {
    var last := cs[|cs| - 1];
    if c != last {
      ComponentsResolve(x, cs[..|cs| - 1], c);
      var i :| 0 <= i < |cs| && cs[i] == c;
      assert c.name != last.name;
    }
  }

  /** The connection table lists each component's connections in configuration order. */
  lemma {:induction false} ConnectionsResolve(x: Index, cs: seq<Connection>, comp: Name)
    requires x.outgoing == map[]
    ensures Get(WithConnections(x, cs).outgoing, comp, []) == Outgoing(cs, comp)
    ensures WithConnections(x, cs) == x.(outgoing := WithConnections(x, cs).outgoing)
  {
    if cs != [] {
      ConnectionsResolve(x, cs[..|cs| - 1], comp);
      ConnectionsResolve(x, cs[..|cs| - 1], cs[|cs| - 1].source);
    }
  }

  lemma {:induction false} NodesFrame(x: Index, ns: seq<NodeDecl>)
    ensures WithNodes(x, ns) == x.(nodes := WithNodes(x, ns).nodes)
  {
    if ns != [] {
      NodesFrame(x, ns[..|ns| - 1]);
    }
  }

  /** No declared node is taken for the pair of another one. */
  predicate NoPairNames(ns: seq<NodeDecl>) {
    forall n, n' :: n in ns && n' in ns ==> n.name != PairName(n'.name)
  }

  lemma {:induction false} NodesResolve(x: Index, ns: seq<NodeDecl>, n: NodeDecl)
    requires UniqueNodes(ns) && NoPairNames(ns) && n in ns
    ensures n.name in WithNodes(x, ns).nodes && WithNodes(x, ns).nodes[n.name] == n
    ensures n.pairnode.Some? ==>
              PairName(n.name) in WithNodes(x, ns).nodes && WithNodes(x, ns).nodes[PairName(n.name)] == PairDecl(n)
  {
    var last := ns[|ns| - 1];
    assert last in ns;
    if n != last {
      NodesResolve(x, ns[..|ns| - 1], n);
      var i :| 0 <= i < |ns| && ns[i] == n;
      assert n.name != last.name;
      PairNameInjective(n.name, last.name);
    }
  }

  lemma PairNameInjective(a: Name, b: Name)
    ensures PairName(a) == PairName(b) <==> a == b
  {
    assert PairName(a)[|PAIR_PREFIX|..] == a;
    assert PairName(b)[|PAIR_PREFIX|..] == b;
  }

  lemma {:induction false} MappingsFrame(x: Index, ms: seq<Mapping>)
    requires forall m :: m in ms ==> m.nodeName in x.nodes
    ensures var y := WithMappings(x, ms);
            y.nodes == x.nodes && y.components == x.components && y.outgoing == x.outgoing
  {
    if ms != [] {
      MappingsFrame(x, ms[..|ms| - 1]);
    }
  }

  /** Mappings only ever add default entries to the node table. */
  lemma {:induction false} MappingsKeepNodes(x: Index, ms: seq<Mapping>, node: Name)
    ensures Get(WithMappings(x, ms).nodes, node, NO_NODE) == Get(x.nodes, node, NO_NODE)
  {
    if ms != [] {
      MappingsKeepNodes(x, ms[..|ms| - 1], node);
    }
  }

  /** The component table points at the mapping itself, never at its mirror. */
  lemma {:induction false} MappingsResolve(x: Index, ms: seq<Mapping>, m: Mapping)
    requires MappedOnce(ms) && m in ms
    ensures Get(WithMappings(x, ms).mappingOf, m.compName, NO_MAPPING) == m
  {
    var last := ms[|ms| - 1];
    if m != last {
      MappingsResolve(x, ms[..|ms| - 1], m);
      var i :| 0 <= i < |ms| && ms[i] == m;
      assert m.compName != last.compName;
    }
  }

  /** Only declared nodes have pairs. */
  lemma {:induction false} PairedAreDeclared(x: Index, ns: seq<NodeDecl>, node: Name)
    requires x.nodes == map[]
    requires Get(WithNodes(x, ns).nodes, node, NO_NODE).pairnode.Some?
    ensures exists n :: n in ns && n.name == node
  {
    if ns != [] {
      var last := ns[|ns| - 1];
      assert last in ns;
      if node != last.name && Get(WithNodes(x, ns[..|ns| - 1]).nodes, node, NO_NODE).pairnode.Some? {
        PairedAreDeclared(x, ns[..|ns| - 1], node);
        var n :| n in ns[..|ns| - 1] && n.name == node;
        assert n in ns;
      }
    }
  }

  /** Every node that is not somebody's pair hosts its mappings, in configuration order. */
  lemma {:induction false} HostedResolve(x: Index, ms: seq<Mapping>, node: Name)
    requires x.hosted == map[]
    requires forall m :: m in ms && node == PairName(m.nodeName) ==> Get(x.nodes, m.nodeName, NO_NODE).pairnode.None?
    ensures Get(WithMappings(x, ms).hosted, node, []) == Hosted(ms, node)
  {
    if ms != [] {
      HostedResolve(x, ms[..|ms| - 1], node);
      MappingsKeepNodes(x, ms[..|ms| - 1], ms[|ms| - 1].nodeName);
      assert ms[|ms| - 1] in ms;
    }
  }

  function Mirrors(ms: seq<Mapping>): (r: seq<Mapping>)
    ensures |r| == |ms|
    ensures forall i :: 0 <= i < |ms| ==> r[i].compName == ms[i].compName && r[i].nodeName == PairName(ms[i].nodeName)
  {
    seq(|ms|, i requires 0 <= i < |ms| => Mirror(ms[i]))
  }

  /** A paired node's mirror hosts the mirrored mappings in the same order. */
  lemma {:induction false} MirrorResolve(x: Index, ms: seq<Mapping>, node: Name)
    requires x.hosted == map[]
    requires forall m :: m in ms ==> m.nodeName != PairName(node)
    requires node in x.nodes && x.nodes[node].pairnode.Some?
    ensures Get(WithMappings(x, ms).hosted, PairName(node), []) == Mirrors(Hosted(ms, node))
  {
    if ms != [] {
      var init, m := ms[..|ms| - 1], ms[|ms| - 1];
      assert m in ms;
      MirrorResolve(x, init, node);
      MappingsKeepNodes(x, init, node);
      PairNameInjective(m.nodeName, node);
      if m.nodeName == node {
        assert Mirrors(Hosted(ms, node)) == Mirrors(Hosted(init, node)) + [Mirror(m)];
      }
    } else {
      assert Mirrors([]) == [];
    }
  }

  // ---- The tables of a well-formed configuration ----

  /** The tables before the mappings are read. */
  function BeforeMappings(config: Config): Index {
    WithNodes(WithConnections(WithComponents(EMPTY_INDEX, config.components), config.connections), config.nodes)
  }

  lemma BeforeMappingsFrame(config: Config)
    ensures BeforeMappings(config).hosted == map[] && BeforeMappings(config).mappingOf == map[]
    ensures WithConnections(WithComponents(EMPTY_INDEX, config.components), config.connections).nodes == map[]
    ensures BeforeMappings(config).components == WithComponents(EMPTY_INDEX, config.components).components
    ensures forall comp :: Get(BeforeMappings(config).outgoing, comp, []) == Outgoing(config.connections, comp)
  {
    var x1 := WithComponents(EMPTY_INDEX, config.components);
    ComponentsFrame(EMPTY_INDEX, config.components);
    var x2 := WithConnections(x1, config.connections);
    NodesFrame(x2, config.nodes);
    forall comp: Name
      ensures Get(BeforeMappings(config).outgoing, comp, []) == Outgoing(config.connections, comp)
    {
      ConnectionsResolve(x1, config.connections, comp);
    }
    ConnectionsResolve(x1, config.connections, "");
  }

  lemma DeclaredNodesIndexed(config: Config)
    requires WellFormed(config)
    ensures forall n :: n in config.nodes ==>
              n.name in BeforeMappings(config).nodes && BeforeMappings(config).nodes[n.name] == n
    ensures forall m :: m in config.mappings ==> m.nodeName in BeforeMappings(config).nodes
  {
    var x2 := WithConnections(WithComponents(EMPTY_INDEX, config.components), config.connections);
    forall n | n in config.nodes
      ensures n.name in BeforeMappings(config).nodes && BeforeMappings(config).nodes[n.name] == n
    {
      NodesResolve(x2, config.nodes, n);
    }
  }

  /** Of several components or nodes of one name the last one stays, and of several
      mappings of one component the last one. */
  lemma LastOnesStay(x: Index, cs: seq<Component>, c: Component, ns: seq<NodeDecl>, n: NodeDecl,
                     ms: seq<Mapping>, m: Mapping)
    ensures Get(WithComponents(x, cs + [c]).components, c.name, NO_COMPONENT) == c
    ensures Get(WithNodes(x, ns + [n]).nodes, n.name, NO_NODE) == n
    ensures Get(WithMappings(x, ms + [m]).mappingOf, m.compName, NO_MAPPING) == m
  {
    assert (cs + [c])[..|cs|] == cs && (ns + [n])[..|ns|] == ns && (ms + [m])[..|ms|] == ms;
  }

  /** In a well-formed configuration every subscript resolves to the declaration. */
  lemma IndexResolves(config: Config)
    requires WellFormed(config)
    ensures var x := IndexOf(config);
            && (forall c :: c in config.components ==> Get(x.components, c.name, NO_COMPONENT) == c)
            && (forall n :: n in config.nodes ==> Get(x.nodes, n.name, NO_NODE) == n)
            && (forall comp :: Get(x.outgoing, comp, []) == Outgoing(config.connections, comp))
            && (forall m :: m in config.mappings ==> Get(x.mappingOf, m.compName, NO_MAPPING) == m)
            && (forall n :: n in config.nodes ==> Get(x.hosted, n.name, []) == Hosted(config.mappings, n.name))
  {
    var b := BeforeMappings(config);
    BeforeMappingsFrame(config);
    DeclaredNodesIndexed(config);
    MappingsFrame(b, config.mappings);
    forall c | c in config.components
      ensures Get(b.components, c.name, NO_COMPONENT) == c
    {
      ComponentsResolve(EMPTY_INDEX, config.components, c);
    }
    forall m | m in config.mappings
      ensures Get(IndexOf(config).mappingOf, m.compName, NO_MAPPING) == m
    {
      MappingsResolve(b, config.mappings, m);
    }
    forall n | n in config.nodes
      ensures Get(IndexOf(config).hosted, n.name, []) == Hosted(config.mappings, n.name)
    {
      HostedResolve(b, config.mappings, n.name);
    }
  }

  /** Pair mirroring: the pair of a node hosts the same components in the same
      order, while looking up any of those components still answers the primary.
      Nothing is asked of the configuration but unambiguous node names and that
      every component is mapped once. */
  lemma PairMirroring(config: Config, n: NodeDecl)
    requires UniqueNodes(config.nodes) && NoPairNames(config.nodes) && MappedOnce(config.mappings)
    requires n in config.nodes && n.pairnode.Some?
    requires forall m :: m in config.mappings ==> m.nodeName != "pairnode." + n.name
    ensures var x, pair := IndexOf(config), "pairnode." + n.name;
            var primary := Get(x.hosted, n.name, []);
            var mirror := Get(x.hosted, pair, []);
            && primary == Hosted(config.mappings, n.name)
            && Get(x.nodes, pair, NO_NODE) == NodeDecl(pair, n.pairnode.value, None)
            && |mirror| == |primary|
            && (forall i :: 0 <= i < |mirror| ==>
                  mirror[i].compName == primary[i].compName && mirror[i].nodeName == pair)
            && (forall i :: 0 <= i < |mirror| ==>
                  Get(x.mappingOf, mirror[i].compName, NO_MAPPING).nodeName == n.name)
  {
    var b := BeforeMappings(config);
    BeforeMappingsFrame(config);
    NodesResolve(WithConnections(WithComponents(EMPTY_INDEX, config.components), config.connections), config.nodes, n);
    MappingsKeepNodes(b, config.mappings, n.name);
    MappingsKeepNodes(b, config.mappings, PairName(n.name));
    forall m | m in config.mappings && n.name == PairName(m.nodeName)
      ensures Get(b.nodes, m.nodeName, NO_NODE).pairnode.None?
    {
      if Get(b.nodes, m.nodeName, NO_NODE).pairnode.Some? {
        PairedAreDeclared(WithConnections(WithComponents(EMPTY_INDEX, config.components), config.connections),
                          config.nodes, m.nodeName);
      }
    }
    HostedResolve(b, config.mappings, n.name);
    MirrorResolve(b, config.mappings, n.name);
    var primary := Hosted(config.mappings, n.name);
    forall i | 0 <= i < |primary|
      ensures primary[i] in config.mappings && primary[i].nodeName == n.name
      ensures Get(IndexOf(config).mappingOf, primary[i].compName, NO_MAPPING) == primary[i]
    {
      HostedMember(config.mappings, n.name, primary[i]);
      MappingsResolve(b, config.mappings, primary[i]);
    }
  }
}
