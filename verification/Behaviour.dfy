/** What components and routers put on the queue and on the wire, said of the posted
    tasks and the sent packets themselves: by the kind a component was declared with,
    and by the configured connections. */
module Behaviour {
  import opened Configuration
  import opened Routing
  import opened Runtime
  import opened RouterObject
  import opened NodeMachine
  import opened SliceProperties
  import opened Deployment
  import Slice
  import Tables
  import C = Central

  // ---- One input ----

  /** The task a component posts to have one output distributed. */
  function Distribution(c: Comp, payload: Data, ports: seq<Port>): Task {
    Task.DoRoute(c.router, c.self, [Output(payload, ports)])
  }

  /** What an input makes a component post. A retranslator passes the payload on to
      ports 0 and 1 from either of its two input ports. A calculator sends a hundred
      times the value out of port 0, from whatever port, and keeps time and address.
      Nothing else posts anything, and nobody posts to a router that is gone. */
  lemma ProcessPosts(r: RouterState, comp: Name, port: Port, payload: Data, alive: bool)
    requires Real(r, comp)
    ensures var c, e := CompAt(r, comp), ProcessEffect(r, comp, port, payload, alive);
            var kind := KindName(c.kind);
            && e.sent == []
            && e.posted ==
               if alive && kind == "retranslator" && (port == 0 || port == 1)
               then multiset{Distribution(c, payload, [0, 1])}
               else if alive && kind == "calc"
               then multiset{Distribution(c, Data(payload.val * 100.0, payload.time, payload.address), [0])}
               else multiset{}
  {
    KindsTold(CompAt(r, comp).kind);
  }

  lemma KindsTold(kind: Kind)
    ensures KindName(kind) == "retranslator" <==> kind == Retranslator
    ensures KindName(kind) == "calc" <==> kind == Calc
    ensures KindName(kind) in {"generator", "timed_generator"} <==> IsGenerator(kind)
  {
    assert KindName(Retranslator) == "retranslator" && KindName(Calc) == "calc";
    assert KindName(Generator) == "generator" && KindName(TimedGenerator) == "timed_generator";
  }

  /** A component of a deployed node acts as the kind it was declared with. */
  lemma DeclaredKind(config: Config, here: Name, id: RouterId, r: RouterState, c: Component)
    requires WellFormed(config) && Realizes(config, here, id, r) && c in config.components && c.name in r.entries
    ensures Real(r, c.name) && KindName(CompAt(r, c.name).kind) == c.kind
    ensures CompAt(r, c.name).router == id && CompAt(r, c.name).self == InstPtr(id, c.name)
  {
    hide LocalExact, RemoteExact, PlacedAt;
    assert OwnEntry(config, id, r.entries[c.name], c.name);
    OneDeclaration(config, c, Component(c.name, KindName(CompAt(r, c.name).kind)));
  }

  lemma OneDeclaration(config: Config, a: Component, b: Component)
    requires WellFormed(config) && a in config.components && b in config.components && a.name == b.name
    ensures a == b
  {
    var i :| 0 <= i < |config.components| && config.components[i] == a;
    var j :| 0 <= j < |config.components| && config.components[j] == b;
    assert i == j;
  }

  /** The same of the central interpreter, for every component of the configuration. */
  lemma ConsumeAdds(config: Config, c: Component, a: C.Action)
    requires WellFormed(config) && c in config.components && a.Consume? && a.comp == c.name && C.Allowed(config, a)
    ensures C.Added(config, a) ==
            if c.kind == "retranslator" && (a.port == 0 || a.port == 1)
            then multiset{C.Emit(c.name, [Output(a.payload, [0, 1])])}
            else if c.kind == "calc"
            then multiset{C.Emit(c.name, [Output(Data(a.payload.val * 100.0, a.payload.time, a.payload.address), [0])])}
            else multiset{}
  {
    OneDeclaration(config, c, Component(c.name, KindName(a.kind)));
    KindsTold(a.kind);
  }

  // ---- Generators ----

  /** One turn: the sample drawn goes out of ports 0 and 1, and the next turn is queued. */
  lemma GeneratePosts(r: RouterState, comp: Name, sample: Data, alive: bool)
    requires Real(r, comp)
    ensures var c, e := CompAt(r, comp), GenerateEffect(r, comp, sample, alive);
            && e.router == r && e.sent == []
            && e.posted == if c.running && alive
                           then multiset{Distribution(c, sample, [0, 1]), Task.Generate(c.self)} else multiset{}
  {
  }

  predicate DeclaredGenerator(r: RouterState, comp: Name) {
    Real(r, comp) && KindName(CompAt(r, comp).kind) in {"generator", "timed_generator"}
  }

  /** Starting posts for each generator, and only for these, its own sample once and
      its next turn once. */
  ghost predicate FirstTurnsOf(r: RouterState, samples: Name -> Data, posted: multiset<Task>) {
    && (forall comp :: DeclaredGenerator(r, comp) ==>
          && posted[Distribution(CompAt(r, comp), samples(comp), [0, 1])] == 1
          && posted[Task.Generate(CompAt(r, comp).self)] == 1)
    && (forall t :: t in posted ==>
          exists comp :: DeclaredGenerator(r, comp) &&
                         (t == Distribution(CompAt(r, comp), samples(comp), [0, 1])
                          || t == Task.Generate(CompAt(r, comp).self)))
  }

  lemma StartPosts(r: RouterState, samples: Name -> Data)
    requires AllReal(r)
    ensures FirstTurnsOf(r, samples, StartEffect(r, samples).posted) && StartEffect(r, samples).sent == []
  {
    var gens := Generators(r);
    forall comp: Name
      ensures comp in gens <==> DeclaredGenerator(r, comp)
    {
      if comp in r.entries {
        KindsTold(CompAt(r, comp).kind);
      }
    }
    var routes := set comp | comp in gens ::
      Task.DoRoute(CompAt(r, comp).router, CompAt(r, comp).self, Generated(samples(comp)));
    var turns := set comp | comp in gens :: Task.Generate(CompAt(r, comp).self);
    assert FirstTurns(r, gens, samples) == multiset(routes) + multiset(turns);
    forall comp | comp in gens
      ensures Distribution(CompAt(r, comp), samples(comp), [0, 1]) in routes
      ensures Task.Generate(CompAt(r, comp).self) in turns
    {
      assert Generated(samples(comp)) == [Output(samples(comp), [0, 1])];
      assert Task.DoRoute(CompAt(r, comp).router, CompAt(r, comp).self, Generated(samples(comp))) in routes;
    }
  }

  /** A redeploy keeps every queued task and sends nothing; on a started node it adds
      the first turns of the generators the packet creates, on a stopped one nothing. */
  lemma DeployPosts(n: NodeState, p: Slice.Packet, samples: Name -> Data)
    requires Inv(n) && Enabled(n, Deploy(p, samples))
    ensures |n.routers| > 0 && Sent(n, Deploy(p, samples)) == []
    ensures var n', next := Step(n, Deploy(p, samples)), Tables.Deployed(|n.routers|, p);
            if CurrentRouter(n).started
            then exists posted :: n'.pool == n.pool + posted && FirstTurnsOf(next, samples, posted)
            else n'.pool == n.pool
  {
    hide RouterOk, TaskOk, Tables.Deployed, FirstTurnsOf, Switched, FirstTurns;
    var next := Tables.Deployed(|n.routers|, p);
    StartPosts(next, samples);
    if CurrentRouter(n).started {
      assert Step(n, Deploy(p, samples)).pool == n.pool + StartEffect(next, samples).posted;
    }
  }

  // ---- Distributing an emission ----

  /** A packet says exactly which connection it travels along. */
  predicate Carries(m: Message, c: Connection, payload: Data) {
    && m.source == c.source && m.sourcePort == c.sourceOut
    && m.dest == c.dest && m.destPort == c.destIn
    && m.payload == payload
  }

  /** One payload out of one port: a task for each configured connection to a component
      on the node and a packet for each to another node, one for one and in order, each
      packet addressed to its destination's node. */
  lemma PortDistributed(config: Config, here: Name, id: RouterId, r: RouterState, comp: Name, payload: Data, port: Port)
    requires Realizes(config, here, id, r) && comp in r.entries && ClientsValid(r) && r.started
    ensures var e := DoRouteEffect(r, comp, [Output(payload, [port])]);
            var cs := OutgoingAt(config.connections, comp, port);
            var local, remote := LocalPart(config, here, cs), RemotePart(config, here, cs);
            && e.posted == multiset(seq(|local|, i requires 0 <= i < |local| =>
                                      Task.Process(InstPtr(id, local[i].dest), local[i].destIn, payload)))
            && |e.sent| == |remote|
            && (forall i :: 0 <= i < |remote| ==>
                  Carries(e.sent[i], remote[i], payload) && IsEndpointOf(config, e.sent[i].dest, e.sent[i].to))
  {
    var cs := OutgoingAt(config.connections, comp, port);
    var rs := RoutesAt(r, comp, port);
    var local, remote := LocalPart(config, here, cs), RemotePart(config, here, cs);
    assert LocalExact(id, rs.local, local) && RemoteExact(config, r, rs.remote, remote);
    OneOutput(r, comp, payload, port);
    forall i | 0 <= i < |remote|
      ensures remote[i].source == comp && remote[i].sourceOut == port
    {
      Leaving(config, here, comp, port, remote[i]);
    }
    assert TasksTo(rs.local, payload) == seq(|local|, i requires 0 <= i < |local| =>
                                           Task.Process(InstPtr(id, local[i].dest), local[i].destIn, payload));
  }

  lemma Leaving(config: Config, here: Name, comp: Name, port: Port, c: Connection)
    requires c in RemotePart(config, here, OutgoingAt(config.connections, comp, port))
    ensures c in config.connections && c.source == comp && c.sourceOut == port && !PlacedAt(config, c.dest, here)
  {
    RemoteOnly(config, here, OutgoingAt(config.connections, comp, port), c);
    Tables.OutgoingAtMember(config.connections, comp, port, c);
  }

  lemma {:induction false} RemoteOnly(config: Config, here: Name, cs: seq<Connection>, c: Connection)
    requires c in RemotePart(config, here, cs)
    ensures c in cs && !PlacedAt(config, c.dest, here)
  {
    hide PlacedAt;
    if c in RemotePart(config, here, cs[..|cs| - 1]) {
      RemoteOnly(config, here, cs[..|cs| - 1], c);
    }
  }

  lemma OneOutput(r: RouterState, comp: Name, payload: Data, port: Port)
    requires ClientsValid(r)
    ensures Sends([Output(payload, [port])]) == [Send(port, payload)]
    ensures LocalFan(r, comp, [Send(port, payload)]) == TasksTo(RoutesAt(r, comp, port).local, payload)
    ensures RemoteFan(r, comp, [Send(port, payload)]) == MessagesTo(r, comp, Send(port, payload))
  {
    var out, sends := [Output(payload, [port])], [Send(port, payload)];
    assert out[..0] == [] && sends[..0] == [];
    assert Sends(out) == [] + SendsOn(payload, [port]);
    assert LocalFan(r, comp, sends) == [] + TasksTo(RoutesAt(r, comp, port).local, payload);
    assert RemoteFan(r, comp, sends) == [] + MessagesTo(r, comp, Send(port, payload));
  }

  lemma {:induction false} FansAppend(r: RouterState, comp: Name, a: seq<Send>, b: seq<Send>)
    requires ClientsValid(r)
    ensures LocalFan(r, comp, a + b) == LocalFan(r, comp, a) + LocalFan(r, comp, b)
    ensures RemoteFan(r, comp, a + b) == RemoteFan(r, comp, a) + RemoteFan(r, comp, b)
    decreases |b|
  {
    hide ClientsValid, RoutesAt, TasksTo, MessagesTo;
    if b == [] {
      assert a + b == a;
    } else {
      var init, s := b[..|b| - 1], b[|b| - 1];
      FansAppend(r, comp, a, init);
      FanSnoc(r, comp, init, s);
      FanSnoc(r, comp, a + init, s);
      hide LocalFan, RemoteFan;
      assert b == init + [s] && a + b == (a + init) + [s];
    }
  }

  lemma {:induction false} SendsAppend(a: seq<Output>, b: seq<Output>)
    ensures Sends(a + b) == Sends(a) + Sends(b)
    decreases |b|
  {
    if b == [] {
      assert a + b == a;
    } else {
      var init, o := b[..|b| - 1], b[|b| - 1];
      SendsAppend(a, init);
      SendsSnoc(init, o);
      SendsSnoc(a + init, o);
      hide Sends, SendsOn;
      assert b == init + [o] && a + b == (a + init) + [o];
    }
  }

  lemma SendsSnoc(os: seq<Output>, o: Output)
    ensures Sends(os + [o]) == Sends(os) + SendsOn(o.payload, o.ports)
  {
    assert (os + [o])[..|os|] == os;
  }

  /** Several outputs are distributed one after another. */
  lemma OutputsDistributed(r: RouterState, comp: Name, a: seq<Output>, b: seq<Output>)
    requires ClientsValid(r) && r.started
    ensures var e, f, g := DoRouteEffect(r, comp, a), DoRouteEffect(r, comp, b), DoRouteEffect(r, comp, a + b);
            g.posted == e.posted + f.posted && g.sent == e.sent + f.sent
  {
    hide ClientsValid, LocalFan, RemoteFan, RoutesAt, Sends;
    SendsAppend(a, b);
    FansAppend(r, comp, Sends(a), Sends(b));
  }

  /** One output goes out of its ports one after another. */
  lemma PortsDistributed(r: RouterState, comp: Name, payload: Data, ps: seq<Port>, qs: seq<Port>)
    requires ClientsValid(r) && r.started
    ensures var e, f := DoRouteEffect(r, comp, [Output(payload, ps)]), DoRouteEffect(r, comp, [Output(payload, qs)]);
            var g := DoRouteEffect(r, comp, [Output(payload, ps + qs)]);
            g.posted == e.posted + f.posted && g.sent == e.sent + f.sent
  {
    hide ClientsValid, LocalFan, RemoteFan, RoutesAt, Sends;
    SingleSends(Output(payload, ps));
    SingleSends(Output(payload, qs));
    SingleSends(Output(payload, ps + qs));
    assert SendsOn(payload, ps + qs) == SendsOn(payload, ps) + SendsOn(payload, qs);
    FansAppend(r, comp, SendsOn(payload, ps), SendsOn(payload, qs));
  }

  lemma SingleSends(o: Output)
    ensures Sends([o]) == SendsOn(o.payload, o.ports)
  {
    assert [o][..0] == [];
    assert Sends([o]) == [] + SendsOn(o.payload, o.ports);
  }

  /** Nothing is put out for no output, nor for an output with no port. */
  lemma NothingDistributed(r: RouterState, comp: Name, payload: Data)
    requires ClientsValid(r)
    ensures DoRouteEffect(r, comp, []).posted == multiset{} && DoRouteEffect(r, comp, []).sent == []
    ensures DoRouteEffect(r, comp, [Output(payload, [])]).posted == multiset{}
    ensures DoRouteEffect(r, comp, [Output(payload, [])]).sent == []
  {
    SingleSends(Output(payload, []));
  }

  /** Every packet sent travels along a configured connection of the component it says
      it comes from, out of one of the ports and with one of the payloads to send. */
  lemma {:induction false} SentAsConfigured(config: Config, here: Name, id: RouterId, r: RouterState, comp: Name,
                                            outputs: seq<Output>, m: Message)
    requires Realizes(config, here, id, r) && comp in r.entries && ClientsValid(r) && r.started
    requires m in DoRouteEffect(r, comp, outputs).sent
    ensures m.source == comp && Connection(m.source, m.sourcePort, m.dest, m.destPort) in config.connections
    ensures !PlacedAt(config, m.dest, here) && IsEndpointOf(config, m.dest, m.to)
    ensures exists o :: o in outputs && m.sourcePort in o.ports && m.payload == o.payload
    decreases |outputs|
  {
    hide Realizes, ClientsValid, DoRouteEffect, PlacedAt, IsEndpointOf;
    if outputs == [] {
      NothingDistributed(r, comp, Data(0.0, 0, 0));
    } else {
      var init, o := outputs[..|outputs| - 1], outputs[|outputs| - 1];
      assert outputs == init + [o];
      OutputsDistributed(r, comp, init, [o]);
      if m in DoRouteEffect(r, comp, init).sent {
        SentAsConfigured(config, here, id, r, comp, init, m);
      } else {
        SentFromPorts(config, here, id, r, comp, o.payload, o.ports, m);
      }
    }
  }

  lemma {:induction false} SentFromPorts(config: Config, here: Name, id: RouterId, r: RouterState, comp: Name,
                                         payload: Data, ports: seq<Port>, m: Message)
    requires Realizes(config, here, id, r) && comp in r.entries && ClientsValid(r) && r.started
    requires m in DoRouteEffect(r, comp, [Output(payload, ports)]).sent
    ensures m.source == comp && Connection(m.source, m.sourcePort, m.dest, m.destPort) in config.connections
    ensures !PlacedAt(config, m.dest, here) && IsEndpointOf(config, m.dest, m.to)
    ensures m.sourcePort in ports && m.payload == payload
    decreases |ports|
  {
    hide Realizes, ClientsValid, DoRouteEffect, PlacedAt, IsEndpointOf;
    if ports == [] {
      NothingDistributed(r, comp, payload);
    } else {
      var init, port := ports[..|ports| - 1], ports[|ports| - 1];
      assert ports == init + [port];
      PortsDistributed(r, comp, payload, init, [port]);
      if m in DoRouteEffect(r, comp, [Output(payload, init)]).sent {
        SentFromPorts(config, here, id, r, comp, payload, init, m);
      } else {
        PortDistributed(config, here, id, r, comp, payload, port);
        var remote := RemotePart(config, here, OutgoingAt(config.connections, comp, port));
        var sent := DoRouteEffect(r, comp, [Output(payload, [port])]).sent;
        var i :| 0 <= i < |sent| && sent[i] == m;
        Leaving(config, here, comp, port, remote[i]);
      }
    }
  }

  // ---- The central interpreter ----

  /** Along connections every payload becomes one input at each one's far end. */
  lemma {:induction false} AlongExactly(cs: seq<Connection>, payload: Data)
    ensures C.Along(cs, payload)
         == multiset(seq(|cs|, i requires 0 <= i < |cs| => C.Input(cs[i].dest, cs[i].destIn, payload)))
  {
    var inputs := seq(|cs|, i requires 0 <= i < |cs| => C.Input(cs[i].dest, cs[i].destIn, payload));
    if cs == [] {
      assert inputs == [];
    } else {
      var init := cs[..|cs| - 1];
      AlongExactly(init, payload);
      assert inputs == seq(|init|, i requires 0 <= i < |init| => C.Input(init[i].dest, init[i].destIn, payload))
                       + [inputs[|init|]];
    }
  }
}
