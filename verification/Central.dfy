/** The application graph run on one machine: an interpreter that delivers every
    emission along every matching connection of the configured graph. */
module Central {
  import opened Configuration
  import opened Runtime

  datatype Work =
    | Input(comp: Name, port: Port, payload: Data)
    | Emit(comp: Name, outputs: seq<Output>)
    | Turn(comp: Name)

  /** One payload delivered along each of some connections. */
  function Along(cs: seq<Connection>, payload: Data): multiset<Work> {
    if cs == [] then multiset{} else
      var c := cs[|cs| - 1];
      Along(cs[..|cs| - 1], payload) + multiset{Input(c.dest, c.destIn, payload)}
  }

  /** Everything a component's sends deliver in the graph. */
  function Delivered(g: seq<Connection>, comp: Name, sends: seq<Send>): multiset<Work> {
    if sends == [] then multiset{} else
      var s := sends[|sends| - 1];
      Delivered(g, comp, sends[..|sends| - 1]) + Along(OutgoingAt(g, comp, s.port), s.payload)
  }

  datatype Action =
    | Consume(comp: Name, kind: Kind, port: Port, payload: Data)
    | Distribute(comp: Name, outputs: seq<Output>)
    | Generate(comp: Name, sample: Data)
    | Begin(which: set<Name>, samples: Name -> Data)

  /** The work one action adds, and the work it consumes. */
  function Added(config: Config, a: Action): multiset<Work> {
    match a
    case Consume(comp, kind, port, payload) =>
      var out := Emission(kind, port, payload);
      if out == [] then multiset{} else multiset{Emit(comp, out)}
    case Distribute(comp, outputs) => Delivered(config.connections, comp, Sends(outputs))
    case Generate(comp, d) => multiset{Emit(comp, Generated(d)), Turn(comp)}
    case Begin(which, samples) =>
      multiset(set comp | comp in which :: Emit(comp, Generated(samples(comp))))
        + multiset(set comp | comp in which :: Turn(comp))
  }

  function Consumed(a: Action): multiset<Work> {
    match a
    case Consume(comp, _, port, payload) => multiset{Input(comp, port, payload)}
    case Distribute(comp, outputs) => multiset{Emit(comp, outputs)}
    case Generate(comp, _) => multiset{Turn(comp)}
    case Begin(_, _) => multiset{}
  }

  /** How many packets an action can put on the network: only distributing an
      emission sends any. */
  function Spread(config: Config, a: Action): nat {
    if a.Distribute? then |Added(config, a)| else 0
  }

  predicate HasKind(config: Config, comp: Name, kind: Kind) {
    Component(comp, KindName(kind)) in config.components
  }

  predicate Generates(config: Config, comp: Name) {
    HasKind(config, comp, Generator) || HasKind(config, comp, TimedGenerator)
  }

  /** A component consumes inputs as its declared kind does; only generators generate. */
  predicate Allowed(config: Config, a: Action) {
    match a
    case Consume(comp, kind, _, _) => HasKind(config, comp, kind)
    case Distribute(_, _) => true
    case Generate(comp, _) => Generates(config, comp)
    case Begin(which, _) => forall comp :: comp in which ==> Generates(config, comp)
  }

  /** One step of the central interpreter. */
  predicate Acts(config: Config, w: multiset<Work>, a: Action, w': multiset<Work>) {
    Allowed(config, a) && Consumed(a) <= w && w' == w - Consumed(a) + Added(config, a)
  }

  lemma AlongSnoc(cs: seq<Connection>, c: Connection, payload: Data)
    ensures Along(cs + [c], payload) == Along(cs, payload) + multiset{Input(c.dest, c.destIn, payload)}
  {
    assert (cs + [c])[..|cs|] == cs;
  }
}
