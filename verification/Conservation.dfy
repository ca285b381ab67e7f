/** Packets are conserved: what the nodes have sent is what they have received
    plus what is in flight, modulo the width of the counters. */
module Conservation {
  import opened Configuration
  import opened Routing
  import opened Runtime
  import opened NodeMachine
  import opened Network
  import opened Lifecycle
  import Slice
  import Tables

  ghost function Received(nodes: seq<NodeState>): nat {
    if nodes == [] then 0 else
      var n := nodes[|nodes| - 1];
      Received(nodes[..|nodes| - 1]) + if |n.routers| == 0 then 0 else CurrentRouter(n).inPackets
  }

  ghost function SentTotal(nodes: seq<NodeState>): nat {
    if nodes == [] then 0 else
      var n := nodes[|nodes| - 1];
      SentTotal(nodes[..|nodes| - 1]) + if |n.routers| == 0 then 0 else CurrentRouter(n).outPackets
  }

  predicate Congruent(a: nat, b: nat) {
    a % WORD == b % WORD
  }

  predicate NoRedeploy(e: NetEvent) {
    e.Local? ==> !e.event.Deploy?
  }

  ghost predicate NoRedeploys(es: seq<(nat, NetEvent)>) {
    forall e :: e in es ==> NoRedeploy(e.1)
  }

  /** What one event does to the packet counters of a node's current router. */
  lemma StepPackets(n: NodeState, e: Event)
    requires Inv(n) && Enabled(n, e) && !e.Deploy?
    ensures |Step(n, e).routers| == |n.routers| > 0
    ensures CurrentRouter(Step(n, e)).inPackets == Inc(CurrentRouter(n).inPackets, if e.Receive? then 1 else 0)
    ensures CurrentRouter(Step(n, e)).outPackets == Inc(CurrentRouter(n).outPackets, |Sent(n, e)|)
  {
    RoutersGrow(n, e);
    IncNone(CurrentRouter(n).inPackets);
    IncNone(CurrentRouter(n).outPackets);
    if e.Run? {
      TaskPackets(n, e.task, e.sample);
    }
  }

  lemma TaskPackets(n: NodeState, t: Task, sample: Data)
    requires Inv(n) && t in n.pool
    ensures |AfterTask(n, t, sample).routers| == |n.routers|
    ensures CurrentRouter(AfterTask(n, t, sample)).inPackets == CurrentRouter(n).inPackets
    ensures CurrentRouter(AfterTask(n, t, sample)).outPackets
         == Inc(CurrentRouter(n).outPackets, |TaskEffect(n, t, sample).sent|)
  {
    assert TaskOk(n.routers, t);
    var g := RouterOf(t);
    assert RouterOk(g, n.routers[g]);
    IncNone(CurrentRouter(n).outPackets);
  }

  lemma {:induction false} CountersUpdate(nodes: seq<NodeState>, k: nat, n: NodeState)
    requires k < |nodes| && |n.routers| > 0 && |nodes[k].routers| > 0
    ensures Received(nodes[k := n]) == Received(nodes) - CurrentRouter(nodes[k]).inPackets + CurrentRouter(n).inPackets
    ensures SentTotal(nodes[k := n])
            == SentTotal(nodes) - CurrentRouter(nodes[k]).outPackets + CurrentRouter(n).outPackets
  {
    var init := nodes[..|nodes| - 1];
    if k == |nodes| - 1 {
      assert nodes[k := n][..|nodes| - 1] == init;
    } else {
      assert nodes[k := n][..|nodes| - 1] == init[k := n];
      CountersUpdate(init, k, n);
    }
  }

  lemma IncCongruent(w: Word, d: nat)
    ensures exists q: nat :: Inc(w, d) == w + d - q * WORD
  {
    var q := (w + d) / WORD;
    assert (w + d) == q * WORD + (w + d) % WORD;
  }

  lemma Multiples(a: nat, b: nat, q: int)
    requires a - b == q * WORD
    ensures Congruent(a, b)
  {
    if q >= 0 {
      AddMultiple(b, q);
    } else {
      AddMultiple(a, -q);
    }
  }

  lemma {:induction false} AddMultiple(b: nat, q: nat)
    ensures (b + q * WORD) % WORD == b % WORD
  {
    if q > 0 {
      AddMultiple(b, q - 1);
      assert b + q * WORD == (b + (q - 1) * WORD) + WORD;
    }
  }

  /** One event changes both sides of the balance alike. */
  lemma StepConserves(config: Config, s: NetState, k: nat, e: NetEvent)
    requires |s.nodes| == |config.nodes| && AllInv(s) && CanHappen(config, s, k, e) && NoRedeploy(e)
    ensures var s' := NetStep(config, s, k, e);
            && Congruent(Received(s'.nodes) + |s'.flight| + SentTotal(s.nodes),
                         Received(s.nodes) + |s.flight| + SentTotal(s'.nodes))
  {
    hide Inv, Inc, Congruent, Step, Sent, Received, SentTotal;
    var n, ev := s.nodes[k], EventOf(e);
    var n', s' := Step(n, ev), NetStep(config, s, k, e);
    StepKeepsInv(n, ev);
    StepPackets(n, ev);
    CountersUpdate(s.nodes, k, n');
    FlightSize(s.flight, e, Sent(n, ev));
    Balance(CurrentRouter(n).inPackets, CurrentRouter(n).outPackets, if e.Arrive? then 1 else 0, |Sent(n, ev)|,
            Received(s.nodes), |s.flight|, SentTotal(s.nodes),
            Received(s'.nodes), |s'.flight|, SentTotal(s'.nodes));
  }

  lemma Balance(inn: Word, out: Word, arrived: nat, sent: nat,
                received: nat, flight: nat, total: nat, received': nat, flight': nat, total': nat)
    requires received' == received - inn + Inc(inn, arrived)
    requires total' == total - out + Inc(out, sent)
    requires flight' == flight - arrived + sent
    ensures Congruent(received' + flight' + total, received + flight + total')
  {
    IncCongruent(inn, arrived);
    IncCongruent(out, sent);
    var qi: nat :| Inc(inn, arrived) == inn + arrived - qi * WORD;
    var qo: nat :| Inc(out, sent) == out + sent - qo * WORD;
    Multiples(received' + flight' + total, received + flight + total', qo - qi);
  }

  lemma FlightSize(flight: multiset<Message>, e: NetEvent, sent: seq<Message>)
    requires e.Arrive? ==> e.message in flight
    ensures |(if e.Arrive? then flight - multiset{e.message} else flight) + multiset(sent)|
         == |flight| - (if e.Arrive? then 1 else 0) + |sent|
  {
  }

  /** Packet conservation over any run without redeploy on links that lose
      nothing, with any starts and stops: if the balance holds it keeps holding. */
  lemma {:induction false} PacketsConserved(config: Config, s: NetState, es: seq<(nat, NetEvent)>, s': NetState)
    requires |s.nodes| == |config.nodes| && AllInv(s) && NetRuns(config, s, es, s') && NoRedeploys(es)
    requires Congruent(SentTotal(s.nodes), Received(s.nodes) + |s.flight|)
    ensures Congruent(SentTotal(s'.nodes), Received(s'.nodes) + |s'.flight|)
    decreases |es|
  {
    hide Inv, AllInv, NetStep;
    if es != [] {
      var (k, e) := es[0];
      assert es[0] in es;
      StepConserves(config, s, k, e);
      var s1 := NetStep(config, s, k, e);
      StepShape(config, s, k, e);
      Cancel(SentTotal(s.nodes), Received(s.nodes) + |s.flight|, SentTotal(s1.nodes), Received(s1.nodes) + |s1.flight|);
      PacketsConserved(config, s1, es[1..], s');
    }
  }

  lemma StepShape(config: Config, s: NetState, k: nat, e: NetEvent)
    requires |s.nodes| == |config.nodes| && AllInv(s) && CanHappen(config, s, k, e)
    ensures |NetStep(config, s, k, e).nodes| == |s.nodes| && AllInv(NetStep(config, s, k, e))
  {
    hide Inv, Step;
    StepKeepsInv(s.nodes[k], EventOf(e));
  }

  lemma Cancel(out: nat, inn: nat, out': nat, inn': nat)
    requires Congruent(out, inn) && Congruent(inn' + out, inn + out')
    ensures Congruent(out', inn')
  {
    var p := WordsApart(out, inn);
    var q := WordsApart(inn' + out, inn + out');
    assert out' - inn' == (p - q) * WORD;
    Multiples(out', inn', p - q);
  }

  lemma WordsApart(a: nat, b: nat) returns (q: int)
    requires Congruent(a, b)
    ensures a - b == q * WORD
  {
    q := a / WORD - b / WORD;
  }

  /** A network whose routers are all newly deployed balances at zero. */
  lemma {:induction false} FreshBalance(nodes: seq<NodeState>)
    requires forall k :: 0 <= k < |nodes| ==>
               |nodes[k].routers| > 0 && CurrentRouter(nodes[k]).inPackets == 0
                 && CurrentRouter(nodes[k]).outPackets == 0
    ensures Congruent(SentTotal(nodes), Received(nodes) + 0) && SentTotal(nodes) == 0
  {
    if nodes != [] {
      FreshBalance(nodes[..|nodes| - 1]);
      assert nodes[|nodes| - 1].routers != [];
    }
  }

  /** Packets sent since all current routers were new, with nothing in flight then. */
  lemma ConservedSinceFresh(config: Config, s: NetState, es: seq<(nat, NetEvent)>, s': NetState)
    requires |s.nodes| == |config.nodes| && AllInv(s) && NetRuns(config, s, es, s') && NoRedeploys(es)
    requires s.flight == multiset{}
    requires forall k :: 0 <= k < |s.nodes| ==>
               && |s.nodes[k].routers| > 0
               && CurrentRouter(s.nodes[k]).inPackets == 0 && CurrentRouter(s.nodes[k]).outPackets == 0
    ensures Congruent(SentTotal(s'.nodes), Received(s'.nodes) + |s'.flight|)
  {
    hide AllInv, NetRuns, NoRedeploys;
    FreshBalance(s.nodes);
    PacketsConserved(config, s, es, s');
  }

  // ---- Across redeploys: all routers a node ever had ----

  function CountedIn(rs: seq<RouterState>): nat {
    if rs == [] then 0 else CountedIn(rs[..|rs| - 1]) + rs[|rs| - 1].inPackets
  }

  function CountedOut(rs: seq<RouterState>): nat {
    if rs == [] then 0 else CountedOut(rs[..|rs| - 1]) + rs[|rs| - 1].outPackets
  }

  ghost function EverReceived(nodes: seq<NodeState>): nat {
    if nodes == [] then 0 else EverReceived(nodes[..|nodes| - 1]) + CountedIn(nodes[|nodes| - 1].routers)
  }

  ghost function EverSent(nodes: seq<NodeState>): nat {
    if nodes == [] then 0 else EverSent(nodes[..|nodes| - 1]) + CountedOut(nodes[|nodes| - 1].routers)
  }

  lemma {:induction false} CountedUpdate(rs: seq<RouterState>, g: nat, r: RouterState)
    requires g < |rs|
    ensures CountedIn(rs[g := r]) == CountedIn(rs) - rs[g].inPackets + r.inPackets
    ensures CountedOut(rs[g := r]) == CountedOut(rs) - rs[g].outPackets + r.outPackets
  {
    var init := rs[..|rs| - 1];
    if g == |rs| - 1 {
      assert rs[g := r][..|rs| - 1] == init;
    } else {
      CountedUpdate(init, g, r);
      assert rs[g := r][..|rs| - 1] == init[g := r];
    }
  }

  lemma {:induction false} EverUpdate(nodes: seq<NodeState>, k: nat, n: NodeState)
    requires k < |nodes|
    ensures EverReceived(nodes[k := n]) == EverReceived(nodes) - CountedIn(nodes[k].routers) + CountedIn(n.routers)
    ensures EverSent(nodes[k := n]) == EverSent(nodes) - CountedOut(nodes[k].routers) + CountedOut(n.routers)
  {
    var init := nodes[..|nodes| - 1];
    if k == |nodes| - 1 {
      assert nodes[k := n][..|nodes| - 1] == init;
    } else {
      EverUpdate(init, k, n);
      assert nodes[k := n][..|nodes| - 1] == init[k := n];
    }
  }

  lemma TaskCounted(n: NodeState, t: Task, sample: Data)
    requires Inv(n) && t in n.pool
    ensures RouterOf(t) < |n.routers|
    ensures var r, eff := n.routers[RouterOf(t)], TaskEffect(n, t, sample);
            eff.router.inPackets == r.inPackets && eff.router.outPackets == Inc(r.outPackets, |eff.sent|)
  {
    assert TaskOk(n.routers, t);
    var g := RouterOf(t);
    assert RouterOk(g, n.routers[g]);
    IncNone(n.routers[g].outPackets);
  }

  /** Any event moves the counters of one router: in by an arrival, out by the
      packets sent. A new router starts at zero, and the old one keeps its counts. */
  lemma StepCounted(n: NodeState, e: Event) returns (g: RouterId)
    requires Inv(n) && Enabled(n, e)
    ensures g < |n.routers|
    ensures var r, rs' := n.routers[g], Step(n, e).routers;
            && CountedIn(rs') == CountedIn(n.routers) - r.inPackets + Inc(r.inPackets, if e.Receive? then 1 else 0)
            && CountedOut(rs') == CountedOut(n.routers) - r.outPackets + Inc(r.outPackets, |Sent(n, e)|)
  {
    g := if e.Run? then RouterOf(e.task) else Current(n);
    if e.Run? {
      TaskCounted(n, e.task, e.sample);
      hide Inv;
      CountedUpdate(n.routers, g, TaskEffect(n, e.task, e.sample).router);
    } else {
      QuietCounted(n, e);
    }
  }

  lemma QuietCounted(n: NodeState, e: Event)
    requires Inv(n) && Enabled(n, e) && !e.Run?
    ensures |n.routers| > 0 && Sent(n, e) == []
    ensures var r, rs' := CurrentRouter(n), Step(n, e).routers;
            && CountedIn(rs') == CountedIn(n.routers) - r.inPackets + Inc(r.inPackets, if e.Receive? then 1 else 0)
            && CountedOut(rs') == CountedOut(n.routers) - r.outPackets + Inc(r.outPackets, |Sent(n, e)|)
  {
    hide Inv, Step, CountedIn, CountedOut, Inc;
    var r' := QuietCounters(n, e);
    var g, r := Current(n), CurrentRouter(n);
    IncNone(r.inPackets);
    IncNone(r.outPackets);
    CountedUpdate(n.routers, g, r');
    if e.Deploy? {
      NewestCounts(Step(n, e).routers, n.routers[g := r']);
    }
  }

  /** What a command or an arrival does to the routers' counters. */
  lemma QuietCounters(n: NodeState, e: Event) returns (r': RouterState)
    requires Inv(n) && Enabled(n, e) && !e.Run?
    ensures |n.routers| > 0 && Sent(n, e) == []
    ensures r'.outPackets == CurrentRouter(n).outPackets
    ensures r'.inPackets == if e.Receive? then Inc(CurrentRouter(n).inPackets, 1) else CurrentRouter(n).inPackets
    ensures var rs, rs' := n.routers[Current(n) := r'], Step(n, e).routers;
            if e.Deploy?
            then |rs'| == |rs| + 1 && rs'[..|rs|] == rs && rs'[|rs|].inPackets == rs'[|rs|].outPackets == 0
            else rs' == rs
  {
    hide RouterOk, Tables.Deployed, Tables.Fresh, Inc, Switched, FirstTurns;
    var rs' := Step(n, e).routers;
    r' := rs'[Current(n)];
    if e.Deploy? {
      NewCounts(|n.routers|, e.packet);
      assert rs'[..|n.routers|] == n.routers[Current(n) := r'];
    }
  }

  lemma NewestCounts(rs': seq<RouterState>, rs: seq<RouterState>)
    requires |rs'| == |rs| + 1 && rs'[..|rs|] == rs && rs'[|rs|].inPackets == rs'[|rs|].outPackets == 0
    ensures CountedIn(rs') == CountedIn(rs) && CountedOut(rs') == CountedOut(rs)
  {
  }

  lemma NewCounts(id: RouterId, p: Slice.Packet)
    ensures Tables.Deployed(id, p).inPackets == 0 && Tables.Deployed(id, p).outPackets == 0
  {
    Tables.DeployedFresh(id, p);
  }

  lemma StepEver(config: Config, s: NetState, k: nat, e: NetEvent)
    requires |s.nodes| == |config.nodes| && AllInv(s) && CanHappen(config, s, k, e)
    ensures var s' := NetStep(config, s, k, e);
            Congruent(EverReceived(s'.nodes) + |s'.flight| + EverSent(s.nodes),
                      EverReceived(s.nodes) + |s.flight| + EverSent(s'.nodes))
  {
    hide Inv, Inc, Congruent, Step, Sent, EverReceived, EverSent, CountedIn, CountedOut;
    var n, ev := s.nodes[k], EventOf(e);
    var n', s' := Step(n, ev), NetStep(config, s, k, e);
    var g := StepCounted(n, ev);
    EverUpdate(s.nodes, k, n');
    FlightSize(s.flight, e, Sent(n, ev));
    Balance(n.routers[g].inPackets, n.routers[g].outPackets, if e.Arrive? then 1 else 0, |Sent(n, ev)|,
            EverReceived(s.nodes), |s.flight|, EverSent(s.nodes),
            EverReceived(s'.nodes), |s'.flight|, EverSent(s'.nodes));
  }

  lemma {:induction false} EverConserved(config: Config, s: NetState, es: seq<(nat, NetEvent)>, s': NetState)
    requires |s.nodes| == |config.nodes| && AllInv(s) && NetRuns(config, s, es, s')
    requires Congruent(EverSent(s.nodes), EverReceived(s.nodes) + |s.flight|)
    ensures Congruent(EverSent(s'.nodes), EverReceived(s'.nodes) + |s'.flight|)
    decreases |es|
  {
    hide Inv, AllInv, NetStep;
    if es != [] {
      var (k, e) := es[0];
      StepEver(config, s, k, e);
      var s1 := NetStep(config, s, k, e);
      StepShape(config, s, k, e);
      Cancel(EverSent(s.nodes), EverReceived(s.nodes) + |s.flight|, EverSent(s1.nodes),
             EverReceived(s1.nodes) + |s1.flight|);
      EverConserved(config, s1, es[1..], s');
    }
  }

  lemma NewNodeCounts()
    ensures CountedIn(NEW_NODE.routers) == CountedOut(NEW_NODE.routers) == 0
  {
    assert NEW_NODE.routers[..0] == [];
  }

  lemma {:induction false} NewNodesCount(nodes: seq<NodeState>)
    requires forall k :: 0 <= k < |nodes| ==> nodes[k] == NEW_NODE
    ensures EverReceived(nodes) == EverSent(nodes) == 0
  {
    if nodes != [] {
      NewNodesCount(nodes[..|nodes| - 1]);
      NewNodeCounts();
    }
  }

  /** Packets are conserved over the whole life of a network, redeploys included:
      all that was ever sent has been received or is in flight. */
  lemma ConservedForLife(config: Config, es: seq<(nat, NetEvent)>, s: NetState)
    requires NetRuns(config, NewNetwork(config), es, s)
    ensures Congruent(EverSent(s.nodes), EverReceived(s.nodes) + |s.flight|)
  {
    hide NetRuns;
    NewNodeInv();
    NewNodesCount(NewNetwork(config).nodes);
    EverConserved(config, NewNetwork(config), es, s);
  }
}
