/** A node as a running process: the node program, the routers it has replaced but
    that queued tasks may still hold, and the service that executes the queue. What
    its objects do, event by event, is what the state machine of a node does. */
module NodeProcess {
  import opened Configuration
  import opened Routing
  import opened Runtime
  import opened RouterObject
  import opened NodeMachine
  import opened NodeProgram
  import Packets
  import Slice
  import Tables

  /** The states of some router objects, in order. */
  ghost function States(rs: seq<Router>): (s: seq<RouterState>)
    reads rs
    ensures |s| == |rs| && forall i :: 0 <= i < |rs| ==> s[i] == rs[i].State()
  {
    seq(|rs|, i requires 0 <= i < |rs| reads rs => rs[i].State())
  }

  class Process {
    const node: Node
    var replaced: seq<Router>

    /** All routers there have been, in order of creation, the current one last. */
    function Routers(): seq<Router>
      reads this, node
    {
      replaced + [node.router]
    }

    /** What the state machine sees of the process. */
    ghost function State(): NodeState
      reads this, node, node.service, Routers()
    {
      NodeState(States(Routers()), node.service.pool)
    }

    ghost predicate Valid()
      reads this, node, node.service, Routers()
    {
      && node.nextId == |Routers()|
      && (forall i :: 0 <= i < |Routers()| ==> Routers()[i].id == i && Routers()[i].service == node.service)
      && Inv(State())
    }

    constructor ()
      ensures Valid() && State() == NEW_NODE && node.service.sent == []
    {
      node := new Node();
      replaced := [];
      new;
      assert States(Routers()) == [NEW_ROUTER];
      NewNodeInv();
    }

    /** The service executes one task of its queue, on the router the task belongs to.
        `alive` is whether that router still exists, which the runtime knows. */
    method Execute(t: Task, sample: Data, alive: bool)
      requires Valid() && t in node.service.pool
      requires alive <==> Alive(Current(State()), State().pool - multiset{t}, RouterOf(t))
      modifies node.service, Routers()
      ensures Valid() && State() == Step(old(State()), Run(t, sample))
      ensures node.service.sent == old(node.service.sent) + Sent(old(State()), Run(t, sample))
    {
      hide Inv, Step, Sent, TaskEffect, ProcessEffect, DoRouteEffect, GenerateEffect, Alive, ClientsValid;
      ghost var before := State();
      ghost var e := TaskEffect(before, t, sample);
      TaskPlaced(before, t, sample);
      StepKeepsInv(before, Run(t, sample));
      var router := Routers()[RouterOf(t)];
      node.service.pool := node.service.pool - multiset{t};
      match t {
        case Process(p, port, payload) => router.DoProcess(p.name, port, payload, alive);
        case DoRoute(_, inst, outputs) => router.DoRoute(inst.name, outputs);
        case Generate(p) => router.RunGenerate(p.name, sample, alive);
      }
      assert States(Routers()) == before.routers[RouterOf(t) := e.router];
    }

    /** A packet from another node. */
    method OnNewMessage(dest: Name, inPort: Port, payload: Data)
      requires Valid()
      modifies node.router, node.service
      ensures Valid() && State() == Step(old(State()), Receive(dest, inPort, payload))
      ensures node.service.sent == old(node.service.sent)
    {
      hide RouterOk, TaskOk;
      ghost var before := State();
      StepKeepsInv(before, Receive(dest, inPort, payload));
      node.OnNewMessage(dest, inPort, payload);
      assert States(Routers()) == before.routers[|replaced| := node.router.State()];
    }

    method Start(samples: Name -> Data)
      requires Valid()
      modifies node.router, node.service
      ensures Valid() && State() == Step(old(State()), Event.Start(samples))
      ensures node.service.sent == old(node.service.sent)
    {
      hide RouterOk, TaskOk, Switched, FirstTurns;
      ghost var before := State();
      StepKeepsInv(before, Event.Start(samples));
      assert before.routers[|replaced|] == node.router.State();
      node.StartRouter(samples);
      assert States(Routers()) == before.routers[|replaced| := node.router.State()];
    }

    method Stop()
      requires Valid()
      modifies node.router
      ensures Valid() && State() == Step(old(State()), Event.Stop)
      ensures node.service.sent == old(node.service.sent)
    {
      hide RouterOk, TaskOk, Switched;
      ghost var before := State();
      StepKeepsInv(before, Event.Stop);
      assert before.routers[|replaced|] == node.router.State();
      node.StopRouter();
      assert States(Routers()) == before.routers[|replaced| := node.router.State()];
    }

    method Deploy(p: Slice.Packet, samples: Name -> Data)
      requires Valid() && Packets.SelfContained(p)
      modifies this, node, node.router, node.service
      ensures Valid() && Enabled(old(State()), Event.Deploy(p, samples))
      ensures State() == Step(old(State()), Event.Deploy(p, samples))
      ensures node.service.sent == old(node.service.sent)
    {
      hide RouterOk, TaskOk, Tables.Deployed, Packets.SelfContained, Switched, FirstTurns;
      ghost var before := State();
      Packets.DeployableIff(|Routers()|, p);
      StepKeepsInv(before, Event.Deploy(p, samples));
      OkValid(Current(before), CurrentRouter(before));
      var previous := node.router;
      node.Redeploy(p, samples);
      replaced := replaced + [previous];
      assert States(Routers()) ==
        before.routers[|before.routers| - 1 := StopEffect(CurrentRouter(before))] + [node.router.State()];
    }
  }

  /** A queued task belongs to a router there is, and to a component in its table;
      running it changes that router and the queue. */
  lemma TaskPlaced(n: NodeState, t: Task, sample: Data)
    requires Inv(n) && t in n.pool
    ensures RouterOf(t) < |n.routers| && ClientsValid(n.routers[RouterOf(t)])
    ensures var g, e := RouterOf(t), TaskEffect(n, t, sample);
            && Step(n, Run(t, sample)) == NodeState(n.routers[g := e.router], n.pool - multiset{t} + e.posted)
            && Sent(n, Run(t, sample)) == e.sent
    ensures t.Process? ==> Real(n.routers[RouterOf(t)], t.target.name)
    ensures t.Generate? ==> Real(n.routers[RouterOf(t)], t.target.name)
    ensures var r := n.routers[RouterOf(t)];
            var alive := Alive(Current(n), n.pool - multiset{t}, RouterOf(t));
            TaskEffect(n, t, sample) ==
            match t
            case Process(p, port, payload) => ProcessEffect(r, p.name, port, payload, alive)
            case DoRoute(_, inst, outputs) => DoRouteEffect(r, inst.name, outputs)
            case Generate(p) => GenerateEffect(r, p.name, sample, alive)
  {
    assert TaskOk(n.routers, t);
    var g := RouterOf(t);
    OkValid(g, n.routers[g]);
  }
}
