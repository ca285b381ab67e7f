/** All nodes of a deployment with the packets in flight between them, and the
    theorem that this network only ever does what the central interpreter does. */
module Network {
  import opened Configuration
  import opened Routing
  import opened Runtime
  import opened Multisets
  import opened NodeMachine
  import opened SliceProperties
  import opened Deployment
  import C = Central

  datatype NetState = NetState(nodes: seq<NodeState>, flight: multiset<Message>)

  /** A node event that involves no packet, or the arrival of a packet in flight. */
  datatype NetEvent = Local(event: Event) | Arrive(message: Message)

  predicate AddressedTo(config: Config, k: nat, m: Message)
    requires k < |config.nodes|
  {
    m.to == Endpoint(config.nodes[k].host.ip, config.nodes[k].host.port)
  }

  function EventOf(e: NetEvent): Event {
    match e
    case Local(event) => event
    case Arrive(m) => Receive(m.dest, m.destPort, m.payload)
  }

  /** A packet arrives at the node listening at the endpoint it was sent to. */
  predicate CanHappen(config: Config, s: NetState, k: nat, e: NetEvent)
    requires |s.nodes| == |config.nodes|
  {
    && k < |s.nodes|
    && match e
       case Local(event) => !event.Receive? && Enabled(s.nodes[k], event)
       case Arrive(m) => m in s.flight && AddressedTo(config, k, m)
  }

  ghost predicate AllInv(s: NetState) {
    forall k :: 0 <= k < |s.nodes| ==> Inv(s.nodes[k])
  }

  ghost function NetStep(config: Config, s: NetState, k: nat, e: NetEvent): NetState
    requires |s.nodes| == |config.nodes| && AllInv(s) && CanHappen(config, s, k, e)
  {
    NetState(s.nodes[k := Step(s.nodes[k], EventOf(e))],
             (if e.Arrive? then s.flight - multiset{e.message} else s.flight)
             + multiset(Sent(s.nodes[k], EventOf(e))))
  }

  /** Runs of the network; each entry says which node does what. */
  ghost predicate NetRuns(config: Config, s: NetState, es: seq<(nat, NetEvent)>, s': NetState)
    decreases |es|
  {
    if es == [] then s' == s else
      && |s.nodes| == |config.nodes| && AllInv(s) && CanHappen(config, s, es[0].0, es[0].1)
      && NetRuns(config, NetStep(config, s, es[0].0, es[0].1), es[1..], s')
  }

  // ---- Deployed and started networks ----

  /** No two nodes listen at the same endpoint. */
  predicate DistinctEndpoints(config: Config) {
    forall j, k :: 0 <= j < k < |config.nodes| ==>
      Endpoint(config.nodes[j].host.ip, config.nodes[j].host.port) != Endpoint(config.nodes[k].host.ip,
                                                                               config.nodes[k].host.port)
  }

  /** Each node's current router holds its part of the graph and is started;
      packets in flight go to the node of their destination. */
  ghost predicate NetInv(config: Config, s: NetState) {
    && |s.nodes| == |config.nodes|
    && AllInv(s)
    && (forall k :: 0 <= k < |s.nodes| ==> NodeReady(config, s, k))
    && (forall m :: m in s.flight ==> IsEndpointOf(config, m.dest, m.to))
  }

  ghost predicate NodeReady(config: Config, s: NetState, k: nat)
    requires k < |s.nodes| == |config.nodes|
  {
    && |s.nodes[k].routers| > 0
    && CurrentRouter(s.nodes[k]).started
    && Realizes(config, config.nodes[k].name, Current(s.nodes[k]), CurrentRouter(s.nodes[k]))
  }

  // ---- The abstraction: queued tasks and packets in flight ----

  /** The work a task stands for; tasks of replaced routers stand for nothing. */
  function WorkOf(current: RouterId, t: Task): multiset<C.Work> {
    if RouterOf(t) != current then multiset{} else
      match t
      case Process(p, port, payload) => multiset{C.Input(p.name, port, payload)}
      case DoRoute(_, inst, outputs) => multiset{C.Emit(inst.name, outputs)}
      case Generate(p) => multiset{C.Turn(p.name)}
  }

  ghost function PoolWork(current: RouterId, pool: multiset<Task>): multiset<C.Work> {
    Image(t => WorkOf(current, t), pool)
  }

  function MessageWork(m: Message): multiset<C.Work> {
    multiset{C.Input(m.dest, m.destPort, m.payload)}
  }

  ghost function FlightWork(flight: multiset<Message>): multiset<C.Work> {
    Image(MessageWork, flight)
  }

  ghost function NodeWork(n: NodeState): multiset<C.Work> {
    if |n.routers| == 0 then multiset{} else PoolWork(Current(n), n.pool)
  }

  ghost function NodesWork(nodes: seq<NodeState>): multiset<C.Work> {
    if nodes == [] then multiset{} else NodesWork(nodes[..|nodes| - 1]) + NodeWork(nodes[|nodes| - 1])
  }

  ghost function Abs(s: NetState): multiset<C.Work> {
    NodesWork(s.nodes) + FlightWork(s.flight)
  }

  lemma {:induction false} NodesWorkUpdate(nodes: seq<NodeState>, k: nat, n: NodeState)
    requires k < |nodes|
    ensures NodeWork(nodes[k]) <= NodesWork(nodes)
    ensures NodesWork(nodes[k := n]) == NodesWork(nodes) - NodeWork(nodes[k]) + NodeWork(n)
  {
    var init, last := nodes[..|nodes| - 1], nodes[|nodes| - 1];
    if k == |nodes| - 1 {
      assert nodes[k := n][..|nodes| - 1] == init;
      ReplaceRight(NodesWork(init), NodeWork(last), NodeWork(n));
    } else {
      NodesWorkUpdate(init, k, n);
      assert nodes[k := n][..|nodes| - 1] == init[k := n];
      ReplaceLeft(NodesWork(init), NodeWork(nodes[k]), NodeWork(n), NodeWork(last));
    }
  }

  lemma {:induction false} NodesWorkMember(nodes: seq<NodeState>, w: C.Work)
    requires w in NodesWork(nodes)
    ensures exists k :: 0 <= k < |nodes| && w in NodeWork(nodes[k])
  {
    if w !in NodeWork(nodes[|nodes| - 1]) {
      NodesWorkMember(nodes[..|nodes| - 1], w);
    }
  }

  lemma PoolWorkStep(current: RouterId, pool: multiset<Task>, t: Task, posted: multiset<Task>)
    requires t in pool
    ensures WorkOf(current, t) <= PoolWork(current, pool)
    ensures PoolWork(current, pool - multiset{t} + posted)
         == PoolWork(current, pool) - WorkOf(current, t) + PoolWork(current, posted)
  {
    var f := t => WorkOf(current, t);
    ImageRemove(f, pool, t);
    ImageUnion(f, pool - multiset{t}, posted);
  }

  lemma PoolWorkUnion(current: RouterId, a: multiset<Task>, b: multiset<Task>)
    ensures PoolWork(current, a + b) == PoolWork(current, a) + PoolWork(current, b)
  {
    ImageUnion(t => WorkOf(current, t), a, b);
  }

  lemma FlightWorkUnion(a: multiset<Message>, b: multiset<Message>)
    ensures FlightWork(a + b) == FlightWork(a) + FlightWork(b)
  {
    ImageUnion(MessageWork, a, b);
  }

  // ---- Fanning out through the tables is fanning out in the graph ----

  lemma {:induction false} AlongParts(config: Config, here: Name, cs: seq<Connection>, payload: Data)
    ensures C.Along(cs, payload)
         == C.Along(LocalPart(config, here, cs), payload) + C.Along(RemotePart(config, here, cs), payload)
  {
    hide PlacedAt;
    if cs != [] {
      var init, c := cs[..|cs| - 1], cs[|cs| - 1];
      AlongParts(config, here, init, payload);
      var local, remote := LocalPart(config, here, init), RemotePart(config, here, init);
      Append(C.Along(local, payload), C.Along(remote, payload), multiset{C.Input(c.dest, c.destIn, payload)});
      if PlacedAt(config, c.dest, here) {
        assert LocalPart(config, here, cs) == local + [c] && RemotePart(config, here, cs) == remote;
        C.AlongSnoc(local, c, payload);
      } else {
        assert LocalPart(config, here, cs) == local && RemotePart(config, here, cs) == remote + [c];
        C.AlongSnoc(remote, c, payload);
      }
    }
  }

  lemma {:induction false} LocalTasksWork(id: RouterId, routes: seq<LocalRoute>, cs: seq<Connection>, payload: Data)
    requires LocalExact(id, routes, cs)
    ensures PoolWork(id, multiset(TasksTo(routes, payload))) == C.Along(cs, payload)
  {
    var f := t => WorkOf(id, t);
    var tasks := TasksTo(routes, payload);
    if cs == [] {
      assert multiset(tasks) == multiset{};
    } else {
      var k := |cs| - 1;
      LocalTasksWork(id, routes[..k], cs[..k], payload);
      assert tasks == TasksTo(routes[..k], payload) + [tasks[k]];
      assert multiset(tasks) == multiset(TasksTo(routes[..k], payload)) + multiset{tasks[k]};
      ImageInsert(f, multiset(TasksTo(routes[..k], payload)), tasks[k]);
    }
  }

  /** The packets for some remote routes, as messages one by one. */
  ghost predicate MessagesFor(config: Config, ms: seq<Message>, cs: seq<Connection>, payload: Data) {
    && |ms| == |cs|
    && forall i :: 0 <= i < |cs| ==>
         && ms[i].dest == cs[i].dest && ms[i].destPort == cs[i].destIn && ms[i].payload == payload
         && IsEndpointOf(config, ms[i].dest, ms[i].to)
  }

  lemma {:induction false} RemoteMessagesWork(config: Config, ms: seq<Message>, cs: seq<Connection>, payload: Data)
    requires MessagesFor(config, ms, cs, payload)
    ensures FlightWork(multiset(ms)) == C.Along(cs, payload)
    ensures |C.Along(cs, payload)| == |ms|
  {
    hide IsEndpointOf, Image;
    if cs == [] {
      ImageOne(MessageWork, Message(Endpoint("", 0), "", 0, "", 0, Data(0.0, 0, 0)));
      assert multiset(ms) == multiset{};
    } else {
      var k := |cs| - 1;
      RemoteMessagesWork(config, ms[..k], cs[..k], payload);
      assert ms == ms[..k] + [ms[k]];
      assert multiset(ms) == multiset(ms[..k]) + multiset{ms[k]};
      ImageInsert(MessageWork, multiset(ms[..k]), ms[k]);
    }
  }

  /** One send of a component through its router's tables. */
  lemma SendWork(config: Config, here: Name, id: RouterId, r: RouterState, comp: Name, s: Send)
    requires Realizes(config, here, id, r) && comp in r.entries && ClientsValid(r)
    ensures PoolWork(id, multiset(TasksTo(RoutesAt(r, comp, s.port).local, s.payload)))
            + FlightWork(multiset(MessagesTo(r, comp, s)))
         == C.Along(OutgoingAt(config.connections, comp, s.port), s.payload)
    ensures |MessagesTo(r, comp, s)| <= |C.Along(OutgoingAt(config.connections, comp, s.port), s.payload)|
    ensures forall m :: m in MessagesTo(r, comp, s) ==> IsEndpointOf(config, m.dest, m.to)
  {
    var cs := OutgoingAt(config.connections, comp, s.port);
    var rs := RoutesAt(r, comp, s.port);
    var local, remote := LocalPart(config, here, cs), RemotePart(config, here, cs);
    assert LocalExact(id, rs.local, local) && RemoteExact(config, r, rs.remote, remote);
    LocalTasksWork(id, rs.local, local, s.payload);
    var ms := MessagesTo(r, comp, s);
    assert MessagesFor(config, ms, remote, s.payload);
    RemoteMessagesWork(config, ms, remote, s.payload);
    AlongParts(config, here, cs, s.payload);
  }

  /** All sends of a component. */
  lemma {:induction false} FanWork(config: Config, here: Name, id: RouterId, r: RouterState, comp: Name,
                                   sends: seq<Send>)
    requires Realizes(config, here, id, r) && comp in r.entries && ClientsValid(r)
    ensures PoolWork(id, multiset(LocalFan(r, comp, sends))) + FlightWork(multiset(RemoteFan(r, comp, sends)))
         == C.Delivered(config.connections, comp, sends)
    ensures |RemoteFan(r, comp, sends)| <= |C.Delivered(config.connections, comp, sends)|
    ensures forall m :: m in RemoteFan(r, comp, sends) ==> IsEndpointOf(config, m.dest, m.to)
  {
    hide Realizes, ClientsValid, IsEndpointOf;
    if sends == [] {
      assert multiset(LocalFan(r, comp, sends)) == multiset{} && multiset(RemoteFan(r, comp, sends)) == multiset{};
    } else {
      var init, s := sends[..|sends| - 1], sends[|sends| - 1];
      FanWork(config, here, id, r, comp, init);
      SendWork(config, here, id, r, comp, s);
      var lf, rf := LocalFan(r, comp, init), RemoteFan(r, comp, init);
      var tasks, ms := TasksTo(RoutesAt(r, comp, s.port).local, s.payload), MessagesTo(r, comp, s);
      assert multiset(lf + tasks) == multiset(lf) + multiset(tasks);
      assert multiset(rf + ms) == multiset(rf) + multiset(ms);
      ImageUnion(t => WorkOf(id, t), multiset(lf), multiset(tasks));
      ImageUnion(MessageWork, multiset(rf), multiset(ms));
    }
  }

  // ---- What each effect adds, in the abstract ----

  ghost function EffectWork(id: RouterId, e: Effect): multiset<C.Work> {
    PoolWork(id, e.posted) + FlightWork(multiset(e.sent))
  }

  /** The action of the central interpreter a task corresponds to. */
  function ActionOf(r: RouterState, t: Task, sample: Data): C.Action
    requires t.Process? ==> Real(r, t.target.name)
  {
    match t
    case Process(p, port, payload) => C.Consume(p.name, CompAt(r, p.name).kind, port, payload)
    case DoRoute(_, inst, outputs) => C.Distribute(inst.name, outputs)
    case Generate(p) => C.Generate(p.name, sample)
  }

  lemma NothingSent(id: RouterId)
    ensures FlightWork(multiset([])) == multiset{} && PoolWork(id, multiset{}) == multiset{}
  {
    var none: seq<Message> := [];
    assert multiset(none) == multiset{};
  }

  lemma PostedOne(id: RouterId, t: Task)
    ensures PoolWork(id, multiset{t}) == WorkOf(id, t)
  {
    ImageOne(t => WorkOf(id, t), t);
  }

  lemma PostedTwo(id: RouterId, t: Task, u: Task)
    ensures PoolWork(id, multiset{t, u}) == WorkOf(id, t) + WorkOf(id, u)
  {
    ImageOne(t => WorkOf(id, t), t);
    ImageInsert(t => WorkOf(id, t), multiset{t}, u);
    assert multiset{t} + multiset{u} == multiset{t, u};
  }

  lemma ProcessWork(config: Config, here: Name, id: RouterId, r: RouterState, t: Task)
    requires Realizes(config, here, id, r) && t.Process? && t.target.name in r.entries && RouterOk(id, r)
    ensures Real(r, t.target.name)
    ensures var a := ActionOf(r, t, t.payload);
            && EffectWork(id, ProcessEffect(r, t.target.name, t.port, t.payload, true)) == C.Added(config, a)
            && C.Allowed(config, a)
  {
    var comp := t.target.name;
    assert EntryOk(id, r, comp);
    assert OwnEntry(config, id, r.entries[comp], comp);
    NothingSent(id);
    var out := Emission(CompAt(r, comp).kind, t.port, t.payload);
    PostedOne(id, Task.DoRoute(id, InstPtr(id, comp), out));
  }

  lemma GenerateWork(config: Config, here: Name, id: RouterId, r: RouterState, t: Task, sample: Data)
    requires Realizes(config, here, id, r) && t.Generate? && t.target.name in r.entries && RouterOk(id, r)
    ensures Real(r, t.target.name)
    ensures CompAt(r, t.target.name).running ==>
              var a := ActionOf(r, t, sample);
              && EffectWork(id, GenerateEffect(r, t.target.name, sample, true)) == C.Added(config, a)
              && C.Allowed(config, a)
  {
    var comp := t.target.name;
    assert EntryOk(id, r, comp);
    assert OwnEntry(config, id, r.entries[comp], comp);
    NothingSent(id);
    PostedTwo(id, Task.DoRoute(id, InstPtr(id, comp), Generated(sample)), Task.Generate(InstPtr(id, comp)));
  }
}
