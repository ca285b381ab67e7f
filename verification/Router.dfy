/** The router object and the service it posts to. */
module RouterObject {
  import opened Configuration
  import opened Routing
  import opened Runtime

  /** The task queue all routers of a node share, and the packets handed to clients. */
  class Service {
    var pool: multiset<Task>
    var sent: seq<Message>

    constructor ()
      ensures pool == multiset{} && sent == []
    {
      pool, sent := multiset{}, [];
    }
  }

  class Router {
    const id: RouterId
    const service: Service
    var started: bool
    var entries: map<Name, Entry>
    var clients: map<Name, nat>
    var endpoints: seq<Endpoint>
    var inPackets: Word
    var outPackets: Word

    function State(): RouterState
      reads this
    {
      RouterState(started, entries, clients, endpoints, inPackets, outPackets)
    }

    constructor (id: RouterId, service: Service)
      ensures State() == NEW_ROUTER && this.id == id && this.service == service
    {
      this.id, this.service := id, service;
      started, entries, clients, endpoints := false, map[], map[], [];
      inPackets, outPackets := 0, 0;
    }

    /** The state, the queue and the wire have moved exactly by an effect. */
    twostate predicate Did(e: Effect)
      reads this, service
    {
      && State() == e.router
      && service.pool == old(service.pool) + e.posted
      && service.sent == old(service.sent) + e.sent
    }

    method Route(dest: Name, port: Port, payload: Data)
      modifies this, service
      ensures Did(RouteEffect(id, old(State()), dest, port, payload))
    {
      inPackets := IncOne(inPackets);
      if !started {
        return;
      }
      if dest in entries {
        service.pool := service.pool + multiset{Process(InstPtr(id, dest), port, payload)};
      }
    }

    method PostLocal(routes: seq<LocalRoute>, payload: Data)
      modifies this, service
      ensures Did(Effect(old(State()), multiset(TasksTo(routes, payload)), []))
    {
      ghost var tasks := TasksTo(routes, payload);
      for i := 0 to |routes|
        invariant State() == old(State()) && service.sent == old(service.sent)
        invariant service.pool == old(service.pool) + multiset(tasks[..i])
      {
        service.pool := service.pool + multiset{Process(routes[i].target, routes[i].inPort, payload)};
        assert tasks[..i + 1] == tasks[..i] + [tasks[i]];
      }
      assert tasks[..|tasks|] == tasks;
    }

    method SendRemote(routes: seq<RemoteRoute>, comp: Name, port: Port, payload: Data)
      requires ClientsValid(State()) && routes == RoutesAt(State(), comp, port).remote
      modifies this, service
      ensures var r := old(State());
              var ms := MessagesTo(r, comp, Send(port, payload));
              Did(Effect(r.(outPackets := Inc(r.outPackets, |ms|)), multiset{}, ms))
    {
      hide ClientsValid, Inc;
      ghost var r := State();
      ghost var ms := MessagesTo(r, comp, Send(port, payload));
      IncNone(r.outPackets);
      for i := 0 to |routes|
        invariant State() == r.(outPackets := Inc(r.outPackets, i))
        invariant service.pool == old(service.pool)
        invariant service.sent == old(service.sent) + ms[..i]
      {
        var route := routes[i];
        assert ms[i] == MessageFor(r, comp, Send(port, payload), route);
        service.sent := service.sent
          + [Message(endpoints[route.client], comp, port, route.dest, route.inPort, payload)];
        outPackets := IncOne(outPackets);
        IncInc(r.outPackets, i, 1);
        assert ms[..i + 1] == ms[..i] + [ms[i]];
      }
      assert ms[..|ms|] == ms;
    }

    /** The router has served a number of sends since a given queue and wire. */
    ghost predicate Sent(r: RouterState, comp: Name, sends: seq<Send>, pool: multiset<Task>, sent: seq<Message>)
      requires ClientsValid(r)
      reads this, service
    {
      && State() == r.(outPackets := Inc(r.outPackets, |RemoteFan(r, comp, sends)|))
      && service.pool == pool + multiset(LocalFan(r, comp, sends))
      && service.sent == sent + RemoteFan(r, comp, sends)
    }

    /** Sends one payload out of one port: local routes first, then remote ones. */
    method SendOn(comp: Name, port: Port, payload: Data,
                  ghost r: RouterState, ghost sends: seq<Send>, ghost pool: multiset<Task>, ghost sent: seq<Message>)
      requires ClientsValid(r) && Sent(r, comp, sends, pool, sent)
      modifies this, service
      ensures Sent(r, comp, sends + [Send(port, payload)], pool, sent)
    {
      hide ClientsValid, MessagesTo, LocalFan, RemoteFan, RoutesAt, TasksTo, Inc;
      var routes := RoutesAt(State(), comp, port);
      SameClients(r, State());
      FanSnoc(r, comp, sends, Send(port, payload));
      SameMessages(r, State(), comp, Send(port, payload));
      IncInc(r.outPackets, |RemoteFan(r, comp, sends)|, |MessagesTo(r, comp, Send(port, payload))|);
      PostLocal(routes.local, payload);
      SendRemote(routes.remote, comp, port, payload);
    }

    /** Sends one output out of each of its ports. */
    method SendOutput(comp: Name, o: Output,
                      ghost r: RouterState, ghost before: seq<Send>, ghost pool: multiset<Task>,
                        ghost sent: seq<Message>)
      requires ClientsValid(r) && Sent(r, comp, before, pool, sent)
      modifies this, service
      ensures Sent(r, comp, before + SendsOn(o.payload, o.ports), pool, sent)
    {
      hide ClientsValid, LocalFan, RemoteFan, Inc;
      ghost var all := SendsOn(o.payload, o.ports);
      assert before + all[..0] == before;
      for j := 0 to |o.ports|
        invariant Sent(r, comp, before + all[..j], pool, sent)
      {
        SendOn(comp, o.ports[j], o.payload, r, before + all[..j], pool, sent);
        assert before + all[..j + 1] == before + all[..j] + [Send(o.ports[j], o.payload)];
      }
      assert all[..|all|] == all;
    }

    method DoRoute(comp: Name, outputs: seq<Output>)
      requires ClientsValid(State())
      modifies this, service
      ensures Did(DoRouteEffect(old(State()), comp, outputs))
    {
      if !started {
        return;
      }
      ghost var r := State();
      for i := 0 to |outputs|
        invariant Sent(r, comp, Sends(outputs[..i]), old(service.pool), old(service.sent))
      {
        SendOutput(comp, outputs[i], r, Sends(outputs[..i]), old(service.pool), old(service.sent));
        assert outputs[..i + 1][..i] == outputs[..i];
      }
      assert outputs[..|outputs|] == outputs;
    }

    /** A component takes one input: it is counted, and may post an emission. */
    method DoProcess(comp: Name, port: Port, payload: Data, alive: bool)
      requires Real(State(), comp)
      modifies this, service
      ensures Did(ProcessEffect(old(State()), comp, port, payload, alive))
    {
      var c := entries[comp].comp.value;
      entries := entries[comp := entries[comp].(comp := Some(c.(inCount := IncOne(c.inCount))))];
      var outputs: seq<Output> := [];
      match c.kind {
        case Retranslator =>
          if port == 0 || port == 1 {
            outputs := [Output(payload, [0, 1])];
          }
        case Calc =>
          outputs := [Output(payload.(val := payload.val * 100.0), [0])];
        case _ =>
      }
      if outputs != [] && alive {
        service.pool := service.pool + multiset{Task.DoRoute(c.router, c.self, outputs)};
      }
    }

    /** One turn of a generator with a fresh sample. */
    method RunGenerate(comp: Name, d: Data, alive: bool)
      requires Real(State(), comp)
      modifies service
      ensures Did(GenerateEffect(old(State()), comp, d, alive))
    {
      var c := entries[comp].comp.value;
      if !c.running {
        return;
      }
      if alive {
        service.pool := service.pool + multiset{Task.DoRoute(c.router, c.self, [Output(d, [0, 1])])};
        service.pool := service.pool + multiset{Generate(c.self)};
      }
    }

    /** Starts one component; a generator takes its first turn at once. */
    method StartOne(comp: Name, sample: Data)
      requires Real(State(), comp)
      modifies this, service
      ensures Did(StartOneEffect(old(State()), comp, sample))
    {
      var c := entries[comp].comp.value;
      if IsGenerator(c.kind) {
        entries := entries[comp := entries[comp].(comp := Some(c.(running := true)))];
        service.pool := service.pool + multiset{Task.DoRoute(c.router, c.self, [Output(sample, [0, 1])])};
        service.pool := service.pool + multiset{Generate(c.self)};
      }
    }

    /** Starts every component. */
    method Start(samples: Name -> Data)
      requires AllReal(State())
      requires forall comp :: comp in entries ==> CompAt(State(), comp).self == InstPtr(id, comp)
      modifies this, service
      ensures Did(StartEffect(old(State()), samples))
    {
      hide Switched, FirstTurns, AllReal, Generators;
      ghost var r := State();
      NoneStarted(r, samples);
      started := true;
      var todo := entries.Keys;
      ghost var done := {};
      while todo != {}
        invariant todo !! done && todo + done == r.entries.Keys
        invariant State() == StartedOnly(r, done)
        invariant service.pool == old(service.pool) + FirstTurns(r, Generators(r) * done, samples)
        invariant service.sent == old(service.sent)
        decreases todo
      {
        var comp :| comp in todo;
        StartSnoc(id, r, done, comp, samples);
        StartOne(comp, samples(comp));
        todo, done := todo - {comp}, done + {comp};
      }
      assert done == r.entries.Keys;
      AllStarted(r);
    }

    method Stop()
      requires AllReal(State())
      modifies this
      ensures State() == StopEffect(old(State()))
    {
      ghost var r := State();
      started := false;
      var todo := entries.Keys;
      assert entries == Switched(r, {}, false);
      ghost var done := {};
      while todo != {}
        invariant todo !! done && todo + done == r.entries.Keys
        invariant State() == r.(started := false, entries := Switched(r, done, false))
        decreases todo
      {
        var comp :| comp in todo;
        SwitchedSnoc(r, done, comp, false);
        var c := entries[comp].comp.value;
        if IsGenerator(c.kind) {
          entries := entries[comp := entries[comp].(comp := Some(c.(running := false)))];
        }
        todo, done := todo - {comp}, done + {comp};
      }
    }
  }

  lemma SwitchedSnoc(r: RouterState, done: set<Name>, comp: Name, on: bool)
    requires AllReal(r) && comp in r.entries && comp !in done
    ensures var es := Switched(r, done, on);
            var c := CompAt(r, comp);
            && es[comp] == r.entries[comp]
            && Switched(r, done + {comp}, on)
            == if IsGenerator(c.kind) then es[comp := es[comp].(comp := Some(c.(running := on)))] else es
  {
  }

  lemma SameClients(r: RouterState, r': RouterState)
    requires ClientsValid(r) && r' == r.(outPackets := r'.outPackets)
    ensures ClientsValid(r')
  {
    forall comp, port: Port | comp in r'.entries
      ensures RemoteValid(RoutesAt(r', comp, port).remote, |r'.endpoints|)
    {
      assert RoutesAt(r', comp, port) == RoutesAt(r, comp, port);
    }
  }

  lemma SameMessages(r: RouterState, r': RouterState, comp: Name, s: Send)
    requires ClientsValid(r) && ClientsValid(r') && r' == r.(outPackets := r'.outPackets)
    ensures MessagesTo(r', comp, s) == MessagesTo(r, comp, s)
    ensures RoutesAt(r', comp, s.port) == RoutesAt(r, comp, s.port)
  {
  }

  lemma FanSnoc(r: RouterState, comp: Name, sends: seq<Send>, s: Send)
    requires ClientsValid(r)
    ensures LocalFan(r, comp, sends + [s])
            == LocalFan(r, comp, sends) + TasksTo(RoutesAt(r, comp, s.port).local, s.payload)
    ensures RemoteFan(r, comp, sends + [s]) == RemoteFan(r, comp, sends) + MessagesTo(r, comp, s)
  {
    assert (sends + [s])[..|sends|] == sends;
  }

  /** The router while `Start` has reached only some of its components. */
  function StartedOnly(r: RouterState, done: set<Name>): RouterState
    requires AllReal(r)
  {
    r.(started := true, entries := Switched(r, done, true))
  }

  lemma NoneStarted(r: RouterState, samples: Name -> Data)
    requires AllReal(r)
    ensures Switched(r, {}, true) == r.entries && FirstTurns(r, Generators(r) * {}, samples) == multiset{}
  {
    assert Generators(r) * {} == {};
    assert forall comp :: comp !in Generators(r) * {};
  }

  lemma AllStarted(r: RouterState)
    requires AllReal(r)
    ensures Generators(r) * r.entries.Keys == Generators(r) <= r.entries.Keys
  {
  }

  /** Starting one more component moves the half-started router one step on. */
  lemma StartSnoc(id: RouterId, r: RouterState, done: set<Name>, comp: Name, samples: Name -> Data)
    requires AllReal(r) && comp in r.entries && comp !in done
    requires forall x :: x in r.entries ==> CompAt(r, x).self == InstPtr(id, x)
    ensures Real(StartedOnly(r, done), comp)
    ensures var e := StartOneEffect(StartedOnly(r, done), comp, samples(comp));
            && e.router == StartedOnly(r, done + {comp})
            && FirstTurns(r, Generators(r) * (done + {comp}), samples)
            == FirstTurns(r, Generators(r) * done, samples) + e.posted
            && e.sent == []
  {
    var gens := Generators(r) * done;
    SwitchedSnoc(r, done, comp, true);
    if comp in Generators(r) {
      assert Generators(r) * (done + {comp}) == gens + {comp};
      FirstRoutesSnoc(id, r, gens, comp, samples);
      NextTurnsSnoc(id, r, gens, comp);
    } else {
      assert Generators(r) * (done + {comp}) == gens;
    }
  }
}
