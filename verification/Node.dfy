/** The node program: deploying a packet into its router, and serving the
    terminal's commands and the other nodes' messages. */
module NodeProgram {
  import opened Configuration
  import opened DeployIndex
  import opened Routing
  import opened Runtime
  import opened RouterObject
  import opened NodeMachine
  import Packets
  import Slice
  import Tables

  class Node {
    var nodeName: Name
    var port: Port
    var router: Router
    var nextId: RouterId
    const service: Service

    predicate Wired()
      reads this, router
    {
      router.service == service && router.id < nextId
    }

    ghost predicate Valid()
      reads this, router
    {
      Wired() && RouterOk(router.id, router.State())
    }

    constructor ()
      ensures Valid() && fresh(router) && fresh(service)
      ensures router.State() == NEW_ROUTER && service.pool == multiset{} && service.sent == []
      ensures nextId == 1
    {
      var s := new Service();
      service := s;
      router := new Router(0, s);
      nodeName, port, nextId := "", 0, 1;
    }

    // ---- Deploying ----

    method InfoTable(nodes: seq<NodeDecl>) returns (t: map<Name, Slice.NodeInfo>)
      ensures t == Tables.InfoTable(nodes)
    {
      t := map[];
      for i := 0 to |nodes|
        invariant t == Tables.InfoTable(nodes[..i])
      {
        if nodes[i].name !in t {
          t := t[nodes[i].name := Slice.NodeInfo(nodes[i].name, nodes[i].host.ip, nodes[i].host.port)];
        }
        assert nodes[..i + 1][..i] == nodes[..i];
      }
      assert nodes[..|nodes|] == nodes;
    }

    method CompToNode(conf: Config) returns (c2n: map<Name, Slice.NodeInfo>)
      ensures c2n == Tables.C2N(conf)
    {
      var nodes := InfoTable(conf.nodes);
      ghost var t := nodes;
      c2n := map[];
      var ms := conf.mappings;
      for i := 0 to |ms|
        invariant forall name :: Get(nodes, name, Tables.NO_INFO) == Get(t, name, Tables.NO_INFO)
        invariant c2n == Tables.CompToNode(t, ms[..i])
      {
        nodes := Touch(nodes, ms[i].nodeName, Tables.NO_INFO);
        if ms[i].compName !in c2n {
          c2n := c2n[ms[i].compName := nodes[ms[i].nodeName]];
        }
        assert ms[..i + 1][..i] == ms[..i];
      }
      assert ms[..|ms|] == ms;
    }

    method AddInstances(c2n: map<Name, Slice.NodeInfo>, cs: seq<Component>)
      requires Tables.KindsKnown(cs)
      modifies router
      ensures router.State() == Tables.WithInstances(router.id, nodeName, c2n, old(router.State()), cs)
    {
      for i := 0 to |cs|
        invariant Tables.KindsKnown(cs[..i])
        invariant router.State() == Tables.WithInstances(router.id, nodeName, c2n, old(router.State()), cs[..i])
      {
        var c := cs[i];
        assert c in cs;
        if Tables.NodeOf(c2n, c.name) == nodeName {
          var comp := Comp(KindOf(c.kind), router.id, InstPtr(router.id, c.name), 0, false);
          router.entries := router.entries[c.name := Entry(Some(comp), c.name, map[])];
        }
        assert cs[..i + 1][..i] == cs[..i];
      }
      assert cs[..|cs|] == cs;
    }

    method AddConnection(c2n: map<Name, Slice.NodeInfo>, c: Connection)
      modifies router
      ensures router.State() == Tables.WithConnection(router.id, nodeName, c2n, old(router.State()), c)
    {
      if c.source !in router.entries {
        return;
      }
      var destNode := Tables.NodeOf(c2n, c.dest);
      if destNode == nodeName {
        router.entries := Touch(router.entries, c.dest, NO_ENTRY);
        var e := router.entries[c.source];
        router.entries := router.entries[c.source :=
          Tables.AddLocal(e, c.sourceOut, LocalRoute(c.destIn, InstPtr(router.id, c.dest)))];
      } else {
        var client: nat;
        if destNode !in router.clients {
          var info := Get(c2n, c.dest, Tables.NO_INFO);
          client := |router.endpoints|;
          router.endpoints := router.endpoints + [Endpoint(info.address, info.port)];
          router.clients := router.clients[destNode := client];
        } else {
          client := router.clients[destNode];
        }
        var e := router.entries[c.source];
        router.entries := router.entries[c.source :=
          Tables.AddRemote(e, c.sourceOut, RemoteRoute(c.destIn, c.dest, client))];
      }
    }

    /** Creates the local components and the local and remote routes. */
    method DeployFromConfig(conf: Config)
      requires Tables.KindsKnown(conf.components)
      modifies router
      ensures router.State() == Tables.Built(router.id, nodeName, old(router.State()), conf)
    {
      var c2n := CompToNode(conf);
      AddInstances(c2n, conf.components);
      ghost var r := router.State();
      var cs := conf.connections;
      for i := 0 to |cs|
        invariant router.State() == Tables.WithConnections(router.id, nodeName, c2n, r, cs[..i])
      {
        AddConnection(c2n, cs[i]);
        assert cs[..i + 1][..i] == cs[..i];
      }
      assert cs[..|cs|] == cs;
    }

    /** Takes the name and port from the packet and deploys the rest of it. */
    method DeployFromPacket(p: Slice.Packet)
      requires router.State() == NEW_ROUTER
      modifies this`nodeName, this`port, router
      ensures nodeName == p.thisNode && port == p.thisPort
      ensures router.State() == Tables.Deployed(router.id, p)
    {
      nodeName := p.thisNode;
      port := p.thisPort;
      var components: seq<Component>, nodes: seq<NodeDecl>, mappings: seq<Mapping> := [], [], [];
      ghost var conf := Tables.ConfigOf(p);
      for i := 0 to |p.instances|
        invariant components == conf.components[..i]
      {
        components := components + [Component(p.instances[i].name, KindName(p.instances[i].kind))];
      }
      for i := 0 to |p.nodeInfos|
        invariant nodes == conf.nodes[..i]
      {
        var info := p.nodeInfos[i];
        nodes := nodes + [NodeDecl(info.name, Address(info.address, info.port, 0), None)];
      }
      for i := 0 to |p.maps|
        invariant mappings == conf.mappings[..i]
      {
        mappings := mappings + [Mapping(p.maps[i].instance, p.maps[i].node)];
      }
      assert Config(components, p.connections, nodes, mappings) == conf;
      DeployFromConfig(Config(components, p.connections, nodes, mappings));
    }

    // ---- Serving ----

    /** Swaps in a new router with the deployed tables, started if the previous
        one was; the previous one is stopped and keeps nothing running. Stopping
        the previous router and starting the new one go through the component of
        every entry. On a stopped node any packet can be deployed; the node is then
        valid exactly when the packet is self-contained. */
    method Redeploy(p: Slice.Packet, samples: Name -> Data)
      requires Wired() && AllReal(router.State())
      requires router.started ==> Packets.SelfContained(p)
      modifies this, router, service
      ensures Wired() && (Valid() <==> Packets.SelfContained(p))
      ensures fresh(router) && router.id == old(nextId) && nextId == old(nextId) + 1
      ensures old(router.started) ==> AllReal(Tables.Deployed(router.id, p))
      ensures router.State() == if old(router.started) then StartEffect(Tables.Deployed(router.id, p), samples).router
                                else Tables.Deployed(router.id, p)
      ensures service.pool == old(service.pool) +
                if old(router.started) then StartEffect(Tables.Deployed(router.id, p), samples).posted else multiset{}
      ensures service.sent == old(service.sent)
      ensures old(router).State() == StopEffect(old(router.State()))
      ensures nodeName == p.thisNode && port == p.thisPort
    {
      var started := router.started;
      var previous := router;
      router := new Router(nextId, service);
      nextId := nextId + 1;
      DeployFromPacket(p);
      Packets.DeployableIff(router.id, p);
      DeployedOk(router.id, p);
      if started {
        StartConfined(router.id, router.State(), samples);
        assert forall comp :: comp in router.entries ==> EntryOk(router.id, router.State(), comp);
        router.Start(samples);
      }
      previous.Stop();
    }

    method StartRouter(samples: Name -> Data)
      requires Valid()
      modifies router, service
      ensures Valid()
      ensures AllReal(old(router.State())) && router.Did(StartEffect(old(router.State()), samples))
    {
      OkValid(router.id, router.State());
      StartConfined(router.id, router.State(), samples);
      assert forall comp :: comp in router.entries ==> EntryOk(router.id, router.State(), comp);
      router.Start(samples);
    }

    method StopRouter()
      requires Valid()
      modifies router
      ensures Valid()
      ensures AllReal(old(router.State())) && router.State() == StopEffect(old(router.State()))
    {
      OkValid(router.id, router.State());
      StopConfined(router.id, router.State());
      router.Stop();
    }

    method OnNewMessage(dest: Name, inPort: Port, payload: Data)
      requires Wired()
      modifies router, service
      ensures Wired() && (old(Valid()) ==> Valid())
      ensures router.Did(RouteEffect(router.id, old(router.State()), dest, inPort, payload))
    {
      if RouterOk(router.id, router.State()) {
        RouteConfined(router.id, router.State(), dest, inPort, payload);
      }
      router.Route(dest, inPort, payload);
    }
  }

  /** A newly deployed router satisfies the router invariant as soon as every entry
      has a component. */
  lemma DeployedOk(id: RouterId, p: Slice.Packet)
    ensures RouterOk(id, Tables.Deployed(id, p)) <==> AllReal(Tables.Deployed(id, p))
  {
    hide Tables.Deployed, Tables.Fresh;
    Tables.DeployedFresh(id, p);
    if AllReal(Tables.Deployed(id, p)) {
      FreshOk(id, Tables.Deployed(id, p));
    } else if RouterOk(id, Tables.Deployed(id, p)) {
      OkValid(id, Tables.Deployed(id, p));
    }
  }
}
