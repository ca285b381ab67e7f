/** What a router and its components do: the tasks they post, the packets they
    send and the counters they move, as functions of the router's state. */
module Runtime {
  import opened Configuration
  import opened Routing

  /** The data record components exchange. */
  datatype Data = Data(val: real, time: int, address: int)

  datatype Output = Output(payload: Data, ports: seq<Port>)

  /** A task in the service's queue; components are named by the entry they live in. */
  datatype Task =
    | Process(target: InstPtr, port: Port, payload: Data)
    | DoRoute(router: RouterId, inst: InstPtr, outputs: seq<Output>)
    | Generate(target: InstPtr)

  /** A communication packet handed to a client connected to an endpoint. */
  datatype Message = Message(to: Endpoint, source: Name, sourcePort: Port, dest: Name, destPort: Port, payload: Data)

  function Inc(w: Word, n: nat): Word {
    (w + n) % WORD
  }

  predicate IsGenerator(kind: Kind) {
    kind.Generator? || kind.TimedGenerator?
  }

  /** What a component emits for one input: nothing for the absorbing kinds. */
  function Emission(kind: Kind, port: Port, payload: Data): seq<Output> {
    match kind
    case Retranslator => if port == 0 || port == 1 then [Output(payload, [0, 1])] else []
    case Calc => [Output(payload.(val := payload.val * 100.0), [0])]
    case _ => []
  }

  function Generated(d: Data): seq<Output> {
    [Output(d, [0, 1])]
  }

  // ---- Fanning out ----

  datatype Send = Send(port: Port, payload: Data)

  function SendsOn(payload: Data, ports: seq<Port>): (s: seq<Send>)
    ensures |s| == |ports| && forall i :: 0 <= i < |s| ==> s[i] == Send(ports[i], payload)
  {
    seq(|ports|, i requires 0 <= i < |ports| => Send(ports[i], payload))
  }

  /** The (port, payload) pairs of a list of outputs, in order. */
  function Sends(outputs: seq<Output>): seq<Send> {
    if outputs == [] then [] else
      var o := outputs[|outputs| - 1];
      Sends(outputs[..|outputs| - 1]) + SendsOn(o.payload, o.ports)
  }

  function TasksTo(routes: seq<LocalRoute>, payload: Data): (ts: seq<Task>)
    ensures |ts| == |routes|
    ensures forall i :: 0 <= i < |ts| ==> ts[i] == Process(routes[i].target, routes[i].inPort, payload)
  {
    seq(|routes|, i requires 0 <= i < |routes| => Process(routes[i].target, routes[i].inPort, payload))
  }

  function MessageFor(r: RouterState, comp: Name, s: Send, route: RemoteRoute): Message
    requires route.client < |r.endpoints|
  {
    Message(r.endpoints[route.client], comp, s.port, route.dest, route.inPort, s.payload)
  }

  ghost function MessagesTo(r: RouterState, comp: Name, s: Send): (ms: seq<Message>)
    requires ClientsValid(r)
    ensures var routes := RoutesAt(r, comp, s.port).remote;
            && |ms| == |routes|
            && forall i :: 0 <= i < |ms| ==>
                 routes[i].client < |r.endpoints| && ms[i] == MessageFor(r, comp, s, routes[i])
  {
    var routes := RoutesAt(r, comp, s.port).remote;
    assert RemoteValid(routes, |r.endpoints|) by {
      if comp !in r.entries {
        assert routes == [];
      }
    }
    seq(|routes|, i requires 0 <= i < |routes| => MessageFor(r, comp, s, routes[i]))
  }

  /** The tasks posted for a list of sends. */
  function LocalFan(r: RouterState, comp: Name, sends: seq<Send>): seq<Task> {
    if sends == [] then [] else
      var s := sends[|sends| - 1];
      LocalFan(r, comp, sends[..|sends| - 1]) + TasksTo(RoutesAt(r, comp, s.port).local, s.payload)
  }

  /** The packets sent for a list of sends. */
  ghost function RemoteFan(r: RouterState, comp: Name, sends: seq<Send>): seq<Message>
    requires ClientsValid(r)
  {
    if sends == [] then [] else
      RemoteFan(r, comp, sends[..|sends| - 1]) + MessagesTo(r, comp, sends[|sends| - 1])
  }

  // ---- The effect of each operation ----

  datatype Effect = Effect(router: RouterState, posted: multiset<Task>, sent: seq<Message>)

  /** An incoming packet: counted even when the router is stopped, then handed to
      the named component if there is one. */
  function RouteEffect(id: RouterId, r: RouterState, dest: Name, port: Port, payload: Data): Effect {
    var counted := r.(inPackets := Inc(r.inPackets, 1));
    if r.started && dest in r.entries
    then Effect(counted, multiset{Process(InstPtr(id, dest), port, payload)}, [])
    else Effect(counted, multiset{}, [])
  }

  ghost function DoRouteEffect(r: RouterState, comp: Name, outputs: seq<Output>): Effect
    requires ClientsValid(r)
  {
    if !r.started then Effect(r, multiset{}, []) else
      var messages := RemoteFan(r, comp, Sends(outputs));
      Effect(r.(outPackets := Inc(r.outPackets, |messages|)),
             multiset(LocalFan(r, comp, Sends(outputs))),
             messages)
  }

  predicate Real(r: RouterState, comp: Name) {
    comp in r.entries && r.entries[comp].comp.Some?
  }

  function CompAt(r: RouterState, comp: Name): Comp
    requires Real(r, comp)
  {
    r.entries[comp].comp.value
  }

  function WithComp(r: RouterState, comp: Name, c: Comp): RouterState
    requires comp in r.entries
  {
    r.(entries := r.entries[comp := r.entries[comp].(comp := Some(c))])
  }

  /** Processing one input; `alive` says whether the component's weak reference to
      its router can still be locked. */
  function ProcessEffect(r: RouterState, comp: Name, port: Port, payload: Data, alive: bool): Effect
    requires Real(r, comp)
  {
    var c := CompAt(r, comp);
    var out := Emission(c.kind, port, payload);
    Effect(WithComp(r, comp, c.(inCount := Inc(c.inCount, 1))),
           if out != [] && alive then multiset{DoRoute(c.router, c.self, out)} else multiset{},
           [])
  }

  /** One turn of a generator: emit, and post the next turn. */
  function GenerateEffect(r: RouterState, comp: Name, d: Data, alive: bool): Effect
    requires Real(r, comp)
  {
    var c := CompAt(r, comp);
    Effect(r,
           if c.running && alive then multiset{DoRoute(c.router, c.self, Generated(d)), Generate(c.self)}
             else multiset{},
           [])
  }

  function Generators(r: RouterState): set<Name>
    requires AllReal(r)
  {
    set comp | comp in r.entries && IsGenerator(CompAt(r, comp).kind)
  }

  /** The entries with some of the generators switched. */
  function Switched(r: RouterState, which: set<Name>, on: bool): map<Name, Entry>
    requires AllReal(r)
  {
    map comp | comp in r.entries ::
      if comp in which && IsGenerator(CompAt(r, comp).kind)
      then r.entries[comp].(comp := Some(CompAt(r, comp).(running := on)))
      else r.entries[comp]
  }

  /** Starting one component: only a generator does anything. */
  function StartOneEffect(r: RouterState, comp: Name, sample: Data): Effect
    requires Real(r, comp)
  {
    var c := CompAt(r, comp);
    if IsGenerator(c.kind)
    then Effect(WithComp(r, comp, c.(running := true)),
                multiset{DoRoute(c.router, c.self, Generated(sample))} + multiset{Generate(c.self)}, [])
    else Effect(r, multiset{}, [])
  }

  function FirstRoutes(r: RouterState, which: set<Name>, samples: Name -> Data): multiset<Task>
    requires AllReal(r) && which <= r.entries.Keys
  {
    multiset(set comp | comp in which ::
             DoRoute(CompAt(r, comp).router, CompAt(r, comp).self, Generated(samples(comp))))
  }

  function NextTurns(r: RouterState, which: set<Name>): multiset<Task>
    requires AllReal(r) && which <= r.entries.Keys
  {
    multiset(set comp | comp in which :: Generate(CompAt(r, comp).self))
  }

  /** What starting some generators posts: for each its first emission and its next turn. */
  function FirstTurns(r: RouterState, which: set<Name>, samples: Name -> Data): multiset<Task>
    requires AllReal(r) && which <= r.entries.Keys
  {
    FirstRoutes(r, which, samples) + NextTurns(r, which)
  }

  function StartEffect(r: RouterState, samples: Name -> Data): Effect
    requires AllReal(r)
  {
    Effect(r.(started := true, entries := Switched(r, r.entries.Keys, true)),
           FirstTurns(r, Generators(r), samples),
           [])
  }

  function StopEffect(r: RouterState): RouterState
    requires AllReal(r)
  {
    r.(started := false, entries := Switched(r, r.entries.Keys, false))
  }

  // ---- Posting one more ----

  lemma FirstRoutesSnoc(id: RouterId, r: RouterState, done: set<Name>, comp: Name, samples: Name -> Data)
    requires AllReal(r) && done <= r.entries.Keys && comp in r.entries && comp !in done
    requires forall x :: x in r.entries ==> CompAt(r, x).self == InstPtr(id, x)
    ensures FirstRoutes(r, done + {comp}, samples) == FirstRoutes(r, done, samples)
         + multiset{DoRoute(CompAt(r, comp).router, CompAt(r, comp).self, Generated(samples(comp)))}
  {
    var routes := set x | x in done :: DoRoute(CompAt(r, x).router, CompAt(r, x).self, Generated(samples(x)));
    var route := DoRoute(CompAt(r, comp).router, CompAt(r, comp).self, Generated(samples(comp)));
    assert route !in routes;
    assert (set x | x in done + {comp} :: DoRoute(CompAt(r, x).router, CompAt(r, x).self, Generated(samples(x))))
        == routes + {route};
    assert multiset(routes + {route}) == multiset(routes) + multiset{route};
  }

  lemma NextTurnsSnoc(id: RouterId, r: RouterState, done: set<Name>, comp: Name)
    requires AllReal(r) && done <= r.entries.Keys && comp in r.entries && comp !in done
    requires forall x :: x in r.entries ==> CompAt(r, x).self == InstPtr(id, x)
    ensures NextTurns(r, done + {comp}) == NextTurns(r, done) + multiset{Generate(CompAt(r, comp).self)}
  {
    var turns := set x | x in done :: Generate(CompAt(r, x).self);
    var turn := Generate(CompAt(r, comp).self);
    assert turn !in turns;
    assert (set x | x in done + {comp} :: Generate(CompAt(r, x).self)) == turns + {turn};
    assert multiset(turns + {turn}) == multiset(turns) + multiset{turn};
  }

  lemma IncInc(w: Word, a: nat, b: nat)
    ensures Inc(Inc(w, a), b) == Inc(w, a + b)
  {
  }

  lemma IncNone(w: Word)
    ensures Inc(w, 0) == w
  {
  }

  /** One more on a wrapping counter. */
  function IncOne(w: Word): (w': Word)
    ensures w' == Inc(w, 1)
  {
    if w == WORD - 1 then 0 else w + 1
  }
}
