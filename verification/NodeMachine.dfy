/** One node as a state machine: its routers, the current one last, and the
    pool of tasks all of them share. Tasks may run in any order; packets and
    terminal commands may arrive at any time. */
module NodeMachine {
  import opened Configuration
  import opened Routing
  import opened Runtime
  import opened Multisets
  import Slice
  import Tables

  datatype NodeState = NodeState(routers: seq<RouterState>, pool: multiset<Task>)

  const NEW_NODE: NodeState := NodeState([NEW_ROUTER], multiset{})

  function Current(n: NodeState): RouterId
    requires |n.routers| > 0
  {
    |n.routers| - 1
  }

  function CurrentRouter(n: NodeState): RouterState
    requires |n.routers| > 0
  {
    n.routers[|n.routers| - 1]
  }

  datatype Event =
    | Run(task: Task, sample: Data)
    | Receive(dest: Name, port: Port, payload: Data)
    | Start(samples: Name -> Data)
    | Stop
    | Deploy(packet: Slice.Packet, samples: Name -> Data)

  /** The router object a task belongs to. */
  function RouterOf(t: Task): RouterId {
    match t
    case Process(p, _, _) => p.router
    case DoRoute(g, _, _) => g
    case Generate(p) => p.router
  }

  /** A router object exists while it is the current one or a queued DoRoute holds it. */
  ghost predicate Alive(current: RouterId, pool: multiset<Task>, g: RouterId) {
    g == current || exists t :: t in pool && t.DoRoute? && t.router == g
  }

  // ---- The invariant ----

  ghost predicate RouterOk(id: RouterId, r: RouterState) {
    && (forall comp :: comp in r.entries ==> EntryOk(id, r, comp))
    && (forall comp, port: Port :: comp in r.entries ==>
          && RemoteValid(RoutesAt(r, comp, port).remote, |r.endpoints|)
          && LocalValid(id, RoutesAt(r, comp, port).local, r.entries.Keys))
  }

  /** A component refers to its own router and entry, and a generator runs
      exactly while its router is started. */
  predicate EntryOk(id: RouterId, r: RouterState, comp: Name)
    requires comp in r.entries
  {
    && Real(r, comp)
    && CompAt(r, comp).router == id
    && CompAt(r, comp).self == InstPtr(id, comp)
    && (CompAt(r, comp).running <==> r.started && IsGenerator(CompAt(r, comp).kind))
  }

  predicate PtrOk(routers: seq<RouterState>, p: InstPtr) {
    p.router < |routers| && p.name in routers[p.router].entries
  }

  predicate GeneratorAt(r: RouterState, comp: Name) {
    Real(r, comp) && IsGenerator(CompAt(r, comp).kind)
  }

  predicate TaskOk(routers: seq<RouterState>, t: Task) {
    match t
    case Process(p, _, _) => PtrOk(routers, p)
    case DoRoute(g, inst, _) => inst.router == g && PtrOk(routers, inst)
    case Generate(p) => PtrOk(routers, p) && GeneratorAt(routers[p.router], p.name)
  }

  ghost predicate Inv(n: NodeState) {
    && |n.routers| > 0
    && (forall g: nat :: g < |n.routers| ==> RouterOk(g, n.routers[g]))
    && (forall g: nat :: g < |n.routers| - 1 ==> !n.routers[g].started)
    && (forall t :: t in n.pool ==> TaskOk(n.routers, t))
  }

  // ---- The steps ----

  /** Deploying is possible whenever it leaves no entry without a component. */
  predicate Enabled(n: NodeState, e: Event) {
    match e
    case Run(t, _) => t in n.pool
    case Deploy(p, _) => AllReal(Tables.Deployed(|n.routers|, p))
    case _ => true
  }

  lemma OkValid(id: RouterId, r: RouterState)
    requires RouterOk(id, r)
    ensures AllReal(r) && ClientsValid(r)
  {
  }

  /** What running a task does to the router it belongs to. */
  ghost function TaskEffect(n: NodeState, t: Task, sample: Data): Effect
    requires Inv(n) && t in n.pool
  {
    var r := n.routers[RouterOf(t)];
    OkValid(RouterOf(t), r);
    var alive := Alive(Current(n), n.pool - multiset{t}, RouterOf(t));
    match t
    case Process(p, port, payload) => ProcessEffect(r, p.name, port, payload, alive)
    case DoRoute(_, inst, outputs) => DoRouteEffect(r, inst.name, outputs)
    case Generate(p) => GenerateEffect(r, p.name, sample, alive)
  }

  ghost function AfterTask(n: NodeState, t: Task, sample: Data): NodeState
    requires Inv(n) && t in n.pool
  {
    var e := TaskEffect(n, t, sample);
    NodeState(n.routers[RouterOf(t) := e.router], n.pool - multiset{t} + e.posted)
  }

  /** The current router, replaced by the outcome of an effect on it. */
  function AfterEffect(n: NodeState, e: Effect): NodeState
    requires |n.routers| > 0
  {
    NodeState(n.routers[|n.routers| - 1 := e.router], n.pool + e.posted)
  }

  /** What deploying into a new router and perhaps starting it does. */
  function DeployEffect(id: RouterId, p: Slice.Packet, start: bool, samples: Name -> Data): Effect
    requires AllReal(Tables.Deployed(id, p))
  {
    var next := Tables.Deployed(id, p);
    if start then StartEffect(next, samples) else Effect(next, multiset{}, [])
  }

  /** A new router is deployed, started if the previous one was, and the previous
      one is stopped. */
  ghost function AfterDeploy(n: NodeState, p: Slice.Packet, samples: Name -> Data): NodeState
    requires Inv(n) && Enabled(n, Deploy(p, samples))
  {
    var previous := CurrentRouter(n);
    OkValid(Current(n), previous);
    var e := DeployEffect(|n.routers|, p, previous.started, samples);
    NodeState(n.routers[|n.routers| - 1 := StopEffect(previous)] + [e.router], n.pool + e.posted)
  }

  ghost function Step(n: NodeState, e: Event): NodeState
    requires Inv(n) && Enabled(n, e)
  {
    OkValid(Current(n), CurrentRouter(n));
    match e
    case Run(t, sample) => AfterTask(n, t, sample)
    case Receive(dest, port, payload) => AfterEffect(n, RouteEffect(Current(n), CurrentRouter(n), dest, port, payload))
    case Start(samples) => AfterEffect(n, StartEffect(CurrentRouter(n), samples))
    case Stop => AfterEffect(n, Effect(StopEffect(CurrentRouter(n)), multiset{}, []))
    case Deploy(p, samples) => AfterDeploy(n, p, samples)
  }

  /** The packets a step hands to the network. */
  ghost function Sent(n: NodeState, e: Event): seq<Message>
    requires Inv(n) && Enabled(n, e)
  {
    match e
    case Run(t, sample) => TaskEffect(n, t, sample).sent
    case _ => []
  }

  /** Runs of a node. */
  ghost predicate Runs(n: NodeState, es: seq<Event>, n': NodeState)
    decreases |es|
  {
    if es == [] then n' == n else
      Inv(n) && Enabled(n, es[0]) && Runs(Step(n, es[0]), es[1..], n')
  }

  // ---- Every step keeps the invariant ----

  predicate PostedOk(id: RouterId, r: RouterState, t: Task) {
    match t
    case Process(p, _, _) => p.router == id && p.name in r.entries
    case DoRoute(g, inst, _) => g == inst.router == id && inst.name in r.entries
    case Generate(p) => p.router == id && p.name in r.entries && GeneratorAt(r, p.name)
  }

  /** An effect is confined to its router: same tables, same started flag unless
      said otherwise, and all it posts belongs to that router. */
  ghost predicate Confined(id: RouterId, r: RouterState, e: Effect) {
    && SameTables(r, e.router)
    && RouterOk(id, e.router)
    && forall t :: t in e.posted ==> PostedOk(id, r, t)
  }

  lemma SameTablesOk(id: RouterId, r: RouterState, r': RouterState)
    requires RouterOk(id, r) && SameTables(r, r')
    requires forall comp :: comp in r'.entries ==> EntryOk(id, r', comp)
    ensures RouterOk(id, r')
  {
    forall comp, port: Port | comp in r'.entries
      ensures RemoteValid(RoutesAt(r', comp, port).remote, |r'.endpoints|)
      ensures LocalValid(id, RoutesAt(r', comp, port).local, r'.entries.Keys)
    {
      assert RoutesAt(r', comp, port) == RoutesAt(r, comp, port);
    }
  }

  lemma ProcessConfined(id: RouterId, r: RouterState, comp: Name, port: Port, payload: Data, alive: bool)
    requires RouterOk(id, r) && comp in r.entries
    ensures Real(r, comp) && Confined(id, r, ProcessEffect(r, comp, port, payload, alive))
    ensures ProcessEffect(r, comp, port, payload, alive).router.started == r.started
  {
    assert EntryOk(id, r, comp);
    var e := ProcessEffect(r, comp, port, payload, alive);
    SameTablesOk(id, r, e.router);
  }

  lemma GenerateConfined(id: RouterId, r: RouterState, comp: Name, d: Data, alive: bool)
    requires RouterOk(id, r) && comp in r.entries
    ensures Real(r, comp) && Confined(id, r, GenerateEffect(r, comp, d, alive))
  {
    assert EntryOk(id, r, comp);
  }

  lemma {:induction false} LocalFanOk(id: RouterId, r: RouterState, comp: Name, sends: seq<Send>)
    requires RouterOk(id, r) && comp in r.entries
    ensures forall t :: t in LocalFan(r, comp, sends) ==> t.Process? && PostedOk(id, r, t)
  {
    if sends != [] {
      LocalFanOk(id, r, comp, sends[..|sends| - 1]);
      var s := sends[|sends| - 1];
      var routes := RoutesAt(r, comp, s.port).local;
      assert LocalValid(id, routes, r.entries.Keys);
    }
  }

  lemma DoRouteConfined(id: RouterId, r: RouterState, comp: Name, outputs: seq<Output>)
    requires RouterOk(id, r) && comp in r.entries
    ensures ClientsValid(r) && Confined(id, r, DoRouteEffect(r, comp, outputs))
    ensures DoRouteEffect(r, comp, outputs).router.started == r.started
  {
    OkValid(id, r);
    LocalFanOk(id, r, comp, Sends(outputs));
    SameTablesOk(id, r, DoRouteEffect(r, comp, outputs).router);
  }

  lemma RouteConfined(id: RouterId, r: RouterState, dest: Name, port: Port, payload: Data)
    requires RouterOk(id, r)
    ensures Confined(id, r, RouteEffect(id, r, dest, port, payload))
  {
    SameTablesOk(id, r, RouteEffect(id, r, dest, port, payload).router);
  }

  lemma SwitchedSame(r: RouterState, on: bool)
    requires AllReal(r)
    ensures SameTables(r, r.(started := on, entries := Switched(r, r.entries.Keys, on)))
  {
  }

  lemma StartConfined(id: RouterId, r: RouterState, samples: Name -> Data)
    requires RouterOk(id, r) || (Tables.Fresh(id, r) && AllReal(r))
    ensures AllReal(r) && Confined(id, r, StartEffect(r, samples))
  {
    SwitchedSame(r, true);
    FreshOk(id, r);
    var e := StartEffect(r, samples);
    SameTablesOk(id, r, e.router);
  }

  lemma StopConfined(id: RouterId, r: RouterState)
    requires RouterOk(id, r)
    ensures AllReal(r) && SameTables(r, StopEffect(r)) && RouterOk(id, StopEffect(r))
  {
    SwitchedSame(r, false);
    SameTablesOk(id, r, StopEffect(r));
  }

  lemma FreshOk(id: RouterId, r: RouterState)
    requires RouterOk(id, r) || (Tables.Fresh(id, r) && AllReal(r))
    ensures RouterOk(id, r)
  {
  }

  lemma TaskConfined(n: NodeState, t: Task, sample: Data)
    requires Inv(n) && t in n.pool
    ensures RouterOf(t) < |n.routers|
    ensures Confined(RouterOf(t), n.routers[RouterOf(t)], TaskEffect(n, t, sample))
    ensures TaskEffect(n, t, sample).router.started == n.routers[RouterOf(t)].started
  {
    hide RouterOk, Confined;
    assert TaskOk(n.routers, t);
    var g := RouterOf(t);
    var r := n.routers[g];
    var alive := Alive(Current(n), n.pool - multiset{t}, g);
    OkValid(g, r);
    match t {
      case Process(p, port, payload) => ProcessConfined(g, r, p.name, port, payload, alive);
      case DoRoute(_, inst, outputs) => DoRouteConfined(g, r, inst.name, outputs);
      case Generate(p) => GenerateConfined(g, r, p.name, sample, alive);
    }
  }

  /** Replacing one router by one with the same tables and adding tasks of that
      router keeps the invariant. */
  lemma ReplaceKeepsInv(n: NodeState, g: RouterId, e: Effect, rest: multiset<Task>)
    requires Inv(n) && g < |n.routers| && Confined(g, n.routers[g], e)
    requires g < |n.routers| - 1 ==> !e.router.started
    requires forall t :: t in rest ==> t in n.pool
    ensures Inv(NodeState(n.routers[g := e.router], rest + e.posted))
  {
    hide RouterOk;
    var routers := n.routers[g := e.router];
    forall t | t in rest + e.posted
      ensures TaskOk(routers, t)
    {
      if t in rest {
        assert TaskOk(n.routers, t);
      } else {
        assert PostedOk(g, n.routers[g], t);
      }
    }
  }

  lemma DeployKeepsInv(n: NodeState, p: Slice.Packet, samples: Name -> Data)
    requires Inv(n) && Enabled(n, Deploy(p, samples))
    ensures Inv(AfterDeploy(n, p, samples))
  {
    hide RouterOk, SameTables, Tables.Fresh, Tables.Deployed, Switched, FirstTurns, AllReal;
    var id := |n.routers|;
    var next := Tables.Deployed(id, p);
    Tables.DeployedFresh(id, p);
    FreshOk(id, next);
    StartConfined(id, next, samples);
    StopConfined(Current(n), CurrentRouter(n));
    var stopped := Effect(StopEffect(CurrentRouter(n)), multiset{}, []);
    ReplaceKeepsInv(n, Current(n), stopped, n.pool);
    var n1 := NodeState(n.routers[Current(n) := stopped.router], n.pool + stopped.posted);
    var n' := AfterDeploy(n, p, samples);
    FreshUnstarted(id, p);
    forall t | t in n'.pool
      ensures TaskOk(n'.routers, t)
    {
      if t in n1.pool {
        assert TaskOk(n1.routers, t);
      } else {
        assert PostedOk(id, next, t);
        SameKeys(next, n'.routers[id]);
      }
    }
  }

  lemma SameKeys(r: RouterState, r': RouterState)
    requires r' == r || SameTables(r, r')
    ensures r.entries.Keys == r'.entries.Keys
    ensures forall comp :: GeneratorAt(r, comp) ==> GeneratorAt(r', comp)
  {
  }

  lemma FreshUnstarted(id: RouterId, p: Slice.Packet)
    ensures !Tables.Deployed(id, p).started
  {
    Tables.DeployedFresh(id, p);
  }

  /** The invariant holds of a new node and survives every event. */
  lemma StepKeepsInv(n: NodeState, e: Event)
    requires Inv(n) && Enabled(n, e)
    ensures Inv(Step(n, e))
  {
    hide RouterOk, Confined, SameTables;
    var id, r := Current(n), CurrentRouter(n);
    match e {
      case Run(t, sample) =>
        TaskConfined(n, t, sample);
        ReplaceKeepsInv(n, RouterOf(t), TaskEffect(n, t, sample), n.pool - multiset{t});
      case Receive(dest, port, payload) =>
        RouteConfined(id, r, dest, port, payload);
        ReplaceKeepsInv(n, id, RouteEffect(id, r, dest, port, payload), n.pool);
      case Start(samples) =>
        StartConfined(id, r, samples);
        ReplaceKeepsInv(n, id, StartEffect(r, samples), n.pool);
      case Stop =>
        StopKeepsInv(n);
      case Deploy(p, samples) =>
        DeployKeepsInv(n, p, samples);
    }
  }

  lemma StopKeepsInv(n: NodeState)
    requires Inv(n)
    ensures Inv(Step(n, Stop))
  {
    StopConfined(Current(n), CurrentRouter(n));
    ReplaceKeepsInv(n, Current(n), Effect(StopEffect(CurrentRouter(n)), multiset{}, []), n.pool);
  }

  lemma NewNodeInv()
    ensures Inv(NEW_NODE)
  {
    assert forall t :: t !in NEW_NODE.pool;
  }

  lemma RoutersGrow(n: NodeState, e: Event)
    requires Inv(n) && Enabled(n, e)
    ensures |Step(n, e).routers| == if e.Deploy? then |n.routers| + 1 else |n.routers|
  {
    if e.Run? {
      TaskConfined(n, e.task, e.sample);
    }
  }

  lemma {:induction false} RunsKeepInv(n: NodeState, es: seq<Event>, n': NodeState)
    requires Inv(n) && Runs(n, es, n')
    ensures Inv(n') && |n'.routers| >= |n.routers|
    decreases |es|
  {
    hide Inv;
    if es != [] {
      StepKeepsInv(n, es[0]);
      RoutersGrow(n, es[0]);
      RunsKeepInv(Step(n, es[0]), es[1..], n');
    }
  }
}
