/** The application graph and its placement, as the parser hands them over,
    and the conversion of component kinds used on both ends of a deployment. */
module Configuration {

  datatype Option<+T> = None | Some(value: T)

  const WORD: int := 0x1_0000_0000

  /** An unsigned 32-bit integer. */
  type Word = x: int | 0 <= x < 0x1_0000_0000

  type Name = string
  type Port = Word

  datatype Component = Component(name: Name, kind: string)

  datatype Connection = Connection(source: Name, sourceOut: Port, dest: Name, destIn: Port)

  datatype Address = Address(ip: string, port: Port, configPort: Port)

  datatype NodeDecl = NodeDecl(name: Name, host: Address, pairnode: Option<Address>)

  datatype Mapping = Mapping(compName: Name, nodeName: Name)

  datatype Config = Config(
    components: seq<Component>,
    connections: seq<Connection>,
    nodes: seq<NodeDecl>,
    mappings: seq<Mapping>)

  datatype Kind = Generator | Retranslator | Terminator | Calc | History | TimedGenerator

  predicate KnownKind(kind: string) {
    kind in {"generator", "retranslator", "terminator", "calc", "history", "timed_generator"}
  }

  /** The kind named by a string; an unknown name is an assertion failure in the program. */
  function KindOf(kind: string): Kind
    requires KnownKind(kind)
  {
    if kind == "generator" then Generator
    else if kind == "retranslator" then Retranslator
    else if kind == "terminator" then Terminator
    else if kind == "calc" then Calc
    else if kind == "history" then History
    else TimedGenerator
  }

  function KindName(kind: Kind): (name: string)
    ensures KnownKind(name) && KindOf(name) == kind
  {
    match kind
    case Generator => "generator"
    case Retranslator => "retranslator"
    case Terminator => "terminator"
    case Calc => "calc"
    case History => "history"
    case TimedGenerator => "timed_generator"
  }

  /** The two conversions are inverse to each other, so a kind survives the trip
      from the terminal's configuration to the node's component factory. */
  lemma KindRoundTrip(name: string)
    requires KnownKind(name)
    ensures KindName(KindOf(name)) == name
    ensures forall kind :: KindOf(KindName(kind)) == kind
  {
    if name == "generator" {
    } else if name == "retranslator" {
    } else if name == "terminator" {
    } else if name == "calc" {
    } else if name == "history" {
    }
  }

  // ---- Selections from a configuration, in configuration order ----

  /** The connections that leave a component. */
  function Outgoing(cs: seq<Connection>, source: Name): seq<Connection> {
    if cs == [] then [] else
      var rest := Outgoing(cs[..|cs| - 1], source);
      var c := cs[|cs| - 1];
      if c.source == source then rest + [c] else rest
  }

  /** The connections that leave a component through one port. */
  function OutgoingAt(cs: seq<Connection>, source: Name, port: Port): seq<Connection> {
    if cs == [] then [] else
      var rest := OutgoingAt(cs[..|cs| - 1], source, port);
      var c := cs[|cs| - 1];
      if c.source == source && c.sourceOut == port then rest + [c] else rest
  }

  /** The mappings to one node. */
  function Hosted(ms: seq<Mapping>, node: Name): seq<Mapping> {
    if ms == [] then [] else
      var rest := Hosted(ms[..|ms| - 1], node);
      var m := ms[|ms| - 1];
      if m.nodeName == node then rest + [m] else rest
  }

  // ---- Well-formed configurations ----

  predicate UniqueComponents(cs: seq<Component>) {
    forall i, j :: 0 <= i < j < |cs| ==> cs[i].name != cs[j].name
  }

  predicate UniqueNodes(ns: seq<NodeDecl>) {
    forall i, j :: 0 <= i < j < |ns| ==> ns[i].name != ns[j].name
  }

  predicate MappedOnce(ms: seq<Mapping>) {
    forall i, j :: 0 <= i < j < |ms| ==> ms[i].compName != ms[j].compName
  }

  predicate DeclaredNode(config: Config, node: Name) {
    exists n :: n in config.nodes && n.name == node
  }

  predicate DeclaredComponent(config: Config, comp: Name) {
    exists c :: c in config.components && c.name == comp
  }

  predicate IsMapped(ms: seq<Mapping>, comp: Name) {
    exists m :: m in ms && m.compName == comp
  }

  const PAIR_PREFIX: string := "pairnode."

  function PairName(node: Name): Name {
    PAIR_PREFIX + node
  }

  predicate WellFormed(config: Config) {
    && UniqueComponents(config.components)
    && UniqueNodes(config.nodes)
    && MappedOnce(config.mappings)
    && (forall c :: c in config.components ==> c.name != "" && KnownKind(c.kind))
    && (forall n :: n in config.nodes ==> n.name != "")
    && (forall m :: m in config.mappings ==>
          DeclaredNode(config, m.nodeName) && DeclaredComponent(config, m.compName))
    && (forall c :: c in config.components ==> IsMapped(config.mappings, c.name))
    && (forall c :: c in config.connections ==>
          DeclaredComponent(config, c.source) && DeclaredComponent(config, c.dest))
    && (forall n, n' :: n in config.nodes && n' in config.nodes ==> n.name != PairName(n'.name))
  }

  /** The node a component is placed on: the node of its mapping. */
  function Place(ms: seq<Mapping>, comp: Name): Name
    requires IsMapped(ms, comp)
  {
    var m := ms[|ms| - 1];
    if m.compName == comp then m.nodeName
    else
      assert IsMapped(ms[..|ms| - 1], comp) by {
        var x :| x in ms && x.compName == comp;
        assert x in ms[..|ms| - 1];
      }
      Place(ms[..|ms| - 1], comp)
  }

  lemma {:induction false} PlaceOfMapping(ms: seq<Mapping>, m: Mapping)
    requires MappedOnce(ms) && m in ms
    ensures IsMapped(ms, m.compName) && Place(ms, m.compName) == m.nodeName
  {
    var last := ms[|ms| - 1];
    if m != last {
      PlaceOfMapping(ms[..|ms| - 1], m);
      var i :| 0 <= i < |ms| && ms[i] == m;
      assert m.compName != last.compName;
    }
  }

  /** The converse: the place of a component is recorded by one of the mappings. */
  lemma {:induction false} MappingOfPlace(ms: seq<Mapping>, comp: Name)
    requires IsMapped(ms, comp)
    ensures Mapping(comp, Place(ms, comp)) in ms
  {
    var last := ms[|ms| - 1];
    if last.compName != comp {
      var x :| x in ms && x.compName == comp;
      assert x in ms[..|ms| - 1];
      MappingOfPlace(ms[..|ms| - 1], comp);
    }
  }

  /** Declarations by name. */
  function DeclOf(ns: seq<NodeDecl>, node: Name): NodeDecl
    requires exists n :: n in ns && n.name == node
  {
    var n := ns[|ns| - 1];
    if n.name == node then n
    else
      assert exists n :: n in ns[..|ns| - 1] && n.name == node by {
        var x :| x in ns && x.name == node;
        assert x in ns[..|ns| - 1];
      }
      DeclOf(ns[..|ns| - 1], node)
  }

  lemma {:induction false} DeclOfMember(ns: seq<NodeDecl>, n: NodeDecl)
    requires UniqueNodes(ns) && n in ns
    ensures DeclOf(ns, n.name) == n
  {
    var last := ns[|ns| - 1];
    if n != last {
      DeclOfMember(ns[..|ns| - 1], n);
      var i :| 0 <= i < |ns| && ns[i] == n;
      assert n.name != last.name;
    }
  }

  // ---- Small facts about the selections ----

  lemma {:induction false} OutgoingMember(cs: seq<Connection>, source: Name, c: Connection)
    ensures c in Outgoing(cs, source) <==> c in cs && c.source == source
  {
    if cs != [] {
      OutgoingMember(cs[..|cs| - 1], source, c);
      assert cs == cs[..|cs| - 1] + [cs[|cs| - 1]];
    }
  }

  lemma {:induction false} HostedMember(ms: seq<Mapping>, node: Name, m: Mapping)
    ensures m in Hosted(ms, node) <==> m in ms && m.nodeName == node
  {
    if ms != [] {
      HostedMember(ms[..|ms| - 1], node, m);
      assert ms == ms[..|ms| - 1] + [ms[|ms| - 1]];
    }
  }

  lemma {:induction false} OutgoingConcat(a: seq<Connection>, b: seq<Connection>, source: Name)
    ensures Outgoing(a + b, source) == Outgoing(a, source) + Outgoing(b, source)
  {
    if b == [] {
      assert a + b == a;
    } else {
      assert (a + b)[..|a + b| - 1] == a + b[..|b| - 1];
      OutgoingConcat(a, b[..|b| - 1], source);
    }
  }

  /** Selecting by port after selecting by component is selecting by both. */
  lemma {:induction false} OutgoingAtOutgoing(cs: seq<Connection>, source: Name, port: Port)
    ensures OutgoingAt(Outgoing(cs, source), source, port) == OutgoingAt(cs, source, port)
  {
    if cs != [] {
      var init, c := cs[..|cs| - 1], cs[|cs| - 1];
      OutgoingAtOutgoing(init, source, port);
      var rest := Outgoing(init, source);
      assert (rest + [c])[..|rest|] == rest;
    }
  }

  /** Selecting at a component's port only looks at that component's connections. */
  lemma {:induction false} OutgoingOfOutgoing(cs: seq<Connection>, source: Name, other: Name)
    ensures Outgoing(Outgoing(cs, source), other) == if other == source then Outgoing(cs, source) else []
  {
    if cs != [] {
      var init, c := cs[..|cs| - 1], cs[|cs| - 1];
      OutgoingOfOutgoing(init, source, other);
      var rest := Outgoing(init, source);
      assert (rest + [c])[..|rest|] == rest;
    }
  }
}
