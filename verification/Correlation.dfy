/** Request/response correlation of the terminal link: requests carry a wrapping
    32-bit transaction id, and responses are matched through a table of pending
    callbacks. Requests are numbered by their order of issue; the number stands
    for the request, its callback and the server's answer to it. */
module Correlation {
  import opened Configuration

  datatype Packet = Message | Request(id: Word, request: nat)

  /** The server's answer to a request, with the id it was given. */
  datatype Response = Response(id: Word, answerTo: nat)

  /** The table is keyed by a signed 32-bit integer. */
  function Signed(w: Word): (i: int)
    ensures -0x8000_0000 <= i < 0x8000_0000
  {
    if w < 0x8000_0000 then w else w - WORD
  }

  function Unsigned(i: int): Word {
    i % WORD
  }

  lemma SignedRoundTrip(w: Word)
    ensures Unsigned(Signed(w)) == w
  {
  }

  datatype ClientState = ClientState(
    transactionId: Word,
    transactions: map<int, nat>,
    writing: seq<Packet>,
    headerReads: nat,
    fired: seq<(nat, nat)>)

  const NEW_CLIENT: ClientState := ClientState(0, map[], [], 0, [])

  // ---- The client's operations ----

  /** Registering does not overwrite a callback still pending under the same id. */
  function AfterRequest(c: ClientState, request: nat): ClientState {
    var key := Signed(c.transactionId);
    c.(transactions := if key in c.transactions then c.transactions else c.transactions[key := request],
       transactionId := (c.transactionId + 1) % WORD,
       writing := c.writing + [Request(c.transactionId, request)])
  }

  function AfterMessage(c: ClientState): ClientState {
    c.(writing := c.writing + [Message])
  }

  /** Only a written request starts reading a header. */
  function AfterWrite(c: ClientState): ClientState
    requires c.writing != []
  {
    c.(writing := c.writing[1..], headerReads := if c.writing[0].Request? then c.headerReads + 1 else c.headerReads)
  }

  function AfterResponse(c: ClientState, r: Response): ClientState
    requires c.headerReads > 0
  {
    var read := c.(headerReads := c.headerReads - 1);
    var key := Signed(r.id);
    if key !in c.transactions then read else
      read.(fired := c.fired + [(c.transactions[key], r.answerTo)], transactions := c.transactions - {key})
  }

  class Client {
    var transactionId: Word
    var transactions: map<int, nat>
    var writing: seq<Packet>
    var headerReads: nat
    var fired: seq<(nat, nat)>

    function State(): ClientState
      reads this
    {
      ClientState(transactionId, transactions, writing, headerReads, fired)
    }

    constructor ()
      ensures State() == NEW_CLIENT
    {
      transactionId, transactions, writing, headerReads, fired := 0, map[], [], 0, [];
    }

    method AsyncSendRequest(request: nat)
      modifies this
      ensures State() == AfterRequest(old(State()), request)
    {
      var packet := Request(transactionId, request);
      if Signed(transactionId) !in transactions {
        transactions := transactions[Signed(transactionId) := request];
      }
      transactionId := if transactionId == WORD - 1 then 0 else transactionId + 1;
      writing := writing + [packet];
    }

    method AsyncSendMessage()
      modifies this
      ensures State() == AfterMessage(old(State()))
    {
      writing := writing + [Message];
    }

    method OnPacketSent()
      requires writing != []
      modifies this
      ensures State() == AfterWrite(old(State()))
    {
      if writing[0].Request? {
        headerReads := headerReads + 1;
      }
      writing := writing[1..];
    }

    method OnNewPacket(r: Response)
      requires headerReads > 0
      modifies this
      ensures State() == AfterResponse(old(State()), r)
    {
      headerReads := headerReads - 1;
      var key := Signed(r.id);
      if key !in transactions {
        return;
      }
      fired := fired + [(transactions[key], r.answerTo)];
      transactions := transactions - {key};
    }
  }

  /** What the server sends back for a packet: a request is answered under the id
      it came with, a message is not answered. */
  function AnswerTo(p: Packet): Option<Response> {
    if p.Request? then Some(Response(p.id, p.request)) else None
  }

  /** The server answers at once; the id goes through its signed form. */
  method ServerOnNewPacket(p: Packet) returns (response: Option<Response>)
    ensures response == AnswerTo(p)
  {
    match p {
      case Message => response := None;
      case Request(id, request) =>
        var signed := Signed(id);
        SignedRoundTrip(id);
        response := Some(Response(Unsigned(signed), request));
    }
  }

  // ---- Client, server and the two directions of their link ----

  /** The first `handed` of the packets the client is writing are already with the
      link; their write callbacks have yet to run. */
  datatype System = System(client: ClientState, handed: nat, toServer: seq<Packet>, toClient: seq<Response>,
                           issued: nat)

  const NEW_SYSTEM: System := System(NEW_CLIENT, 0, [], [], 0)

  /** The client issues a request or a message; the link takes the next packet
      written; the client's write callback runs for the oldest packet taken; the
      server serves a packet; the client reads a response. */
  datatype Event = Issue | Tell | Transmit | Written | Serve | Answered

  predicate Enabled(s: System, e: Event) {
    match e
    case Issue => true
    case Tell => true
    case Transmit => s.handed < |s.client.writing|
    case Written => 0 < s.handed && s.client.writing != []
    case Serve => s.toServer != []
    case Answered => s.toClient != [] && s.client.headerReads > 0
  }

  function Step(s: System, e: Event): System
    requires Enabled(s, e)
  {
    match e
    case Issue => s.(client := AfterRequest(s.client, s.issued), issued := s.issued + 1)
    case Tell => s.(client := AfterMessage(s.client))
    case Transmit => s.(handed := s.handed + 1, toServer := s.toServer + [s.client.writing[s.handed]])
    case Written => s.(client := AfterWrite(s.client), handed := s.handed - 1)
    case Serve =>
      var answer := AnswerTo(s.toServer[0]);
      s.(toServer := s.toServer[1..], toClient := s.toClient + if answer.Some? then [answer.value] else [])
    case Answered => s.(client := AfterResponse(s.client, s.toClient[0]), toClient := s.toClient[1..])
  }

  /** The requests among some packets, in order. */
  function Requests(ps: seq<Packet>): seq<(Word, nat)> {
    if ps == [] then [] else
      (if ps[0].Request? then [(ps[0].id, ps[0].request)] else []) + Requests(ps[1..])
  }

  function Answers(rs: seq<Response>): (s: seq<(Word, nat)>)
    ensures |s| == |rs| && forall i :: 0 <= i < |rs| ==> s[i] == (rs[i].id, rs[i].answerTo)
  {
    seq(|rs|, i requires 0 <= i < |rs| => (rs[i].id, rs[i].answerTo))
  }

  /** The packets the link has taken and not yet called back for. */
  function Handed(s: System): seq<Packet> {
    s.client.writing[..if s.handed <= |s.client.writing| then s.handed else |s.client.writing|]
  }

  function Waiting(s: System): seq<Packet> {
    s.client.writing[|Handed(s)|..]
  }

  /** Every unanswered request, from the one to be answered next to the last issued. */
  function Underway(s: System): seq<(Word, nat)> {
    Answers(s.toClient) + Requests(s.toServer) + Requests(Waiting(s))
  }

  function AnsweredCount(s: System): int {
    s.issued - |Underway(s)|
  }

  function Key(request: nat): int {
    Signed(request % WORD)
  }

  // ---- What correct correlation means ----

  /** The requests underway are the last issued ones, in order, under their own ids. */
  ghost predicate InOrder(s: System) {
    && |Underway(s)| <= s.issued
    && s.client.transactionId == s.issued % WORD
    && forall i :: 0 <= i < |Underway(s)| ==>
         Underway(s)[i] == ((AnsweredCount(s) + i) % WORD, AnsweredCount(s) + i)
  }

  /** Exactly the unanswered requests have their callback pending, each under its id. */
  ghost predicate Pending(s: System) {
    && (forall k: nat :: AnsweredCount(s) <= k < s.issued ==>
          Key(k) in s.client.transactions && s.client.transactions[Key(k)] == k)
    && (forall key :: key in s.client.transactions ==>
          AnsweredCount(s) <= s.client.transactions[key] < s.issued && Key(s.client.transactions[key]) == key)
  }

  /** Every answered request has fired its own callback once, with its own answer, in order. */
  ghost predicate FiredOnce(s: System) {
    |s.client.fired| == AnsweredCount(s) && forall k :: 0 <= k < |s.client.fired| ==> s.client.fired[k] == (k, k)
  }

  /** The header reads started, together with those the write callbacks still to run
      will start, match the responses still to be read. */
  ghost predicate ReadsMatch(s: System) {
    s.client.headerReads + |Requests(Handed(s))| == |s.toClient| + |Requests(s.toServer)|
  }

  ghost predicate Good(s: System) {
    s.handed <= |s.client.writing| && InOrder(s) && Pending(s) && FiredOnce(s) && ReadsMatch(s)
  }

  // ---- Sizes ----

  lemma {:induction false} RequestsSnoc(ps: seq<Packet>, p: Packet)
    ensures Requests(ps + [p]) == Requests(ps) + if p.Request? then [(p.id, p.request)] else []
    decreases |ps|
  {
    if ps != [] {
      assert (ps + [p])[1..] == ps[1..] + [p];
      RequestsSnoc(ps[1..], p);
    }
  }

  lemma KeyCollides(j: nat, k: nat)
    requires j <= k
    ensures Key(j) == Key(k) <==> (k - j) % WORD == 0
  {
    assert Key(j) == Key(k) <==> j % WORD == k % WORD;
    ModDifference(j, k);
  }

  lemma ModDifference(j: nat, k: nat)
    requires j <= k
    ensures j % WORD == k % WORD <==> (k - j) % WORD == 0
  {
  }

  lemma {:induction false} BijectionSize(t: map<int, nat>, from: nat, to: nat)
    requires from <= to
    requires forall k: nat :: from <= k < to ==> Key(k) in t && t[Key(k)] == k
    requires forall key :: key in t ==> from <= t[key] < to && Key(t[key]) == key
    ensures |t| == to - from
    decreases (to - from)
  {
    if from == to {
      assert forall key :: key !in t;
      assert t.Keys == {};
      assert |t.Keys| == |t|;
    } else {
      var last := Key(to - 1);
      var t' := t - {last};
      forall k: nat | from <= k < to - 1
        ensures Key(k) in t'
      {
        assert t[Key(k)] != t[last];
      }
      BijectionSize(t', from, to - 1);
      assert t.Keys == t'.Keys + {last};
      assert |t.Keys| == |t'.Keys| + 1;
    }
  }

  /** Pending transactions are issued minus answered. */
  lemma PendingCount(s: System)
    requires Good(s)
    ensures |s.client.transactions| == s.issued - |s.client.fired|
  {
    BijectionSize(s.client.transactions, AnsweredCount(s), s.issued);
  }

  // ---- Steps ----

  /** Issuing a request keeps correlation correct exactly when fewer than 2^32
      callbacks are pending; otherwise the new callback is never registered. */
  lemma IssueGoodIff(s: System)
    requires Good(s)
    ensures Good(Step(s, Issue)) <==> |s.client.transactions| < WORD
    ensures |s.client.transactions| >= WORD ==>
              && Step(s, Issue).client.transactions == s.client.transactions
              && s.issued !in Step(s, Issue).client.transactions.Values
  {
    PendingCount(s);
    if |s.client.transactions| < WORD {
      FreshKey(s);
      FreshIssue(s);
    } else {
      FullIssue(s);
    }
  }

  lemma FreshKey(s: System)
    requires Good(s) && s.issued - AnsweredCount(s) < WORD
    ensures Key(s.issued) !in s.client.transactions
  {
    if Key(s.issued) in s.client.transactions {
      var k := s.client.transactions[Key(s.issued)];
      KeyCollides(k, s.issued);
    }
  }

  /** A packet appended to those being written waits behind the others. */
  lemma WaitingSnoc(s: System, p: Packet)
    requires s.handed <= |s.client.writing|
    ensures var s' := s.(client := s.client.(writing := s.client.writing + [p]));
            Handed(s') == Handed(s) && Waiting(s') == Waiting(s) + [p]
  {
  }

  lemma IssueUnderway(s: System)
    requires s.handed <= |s.client.writing|
    ensures Underway(Step(s, Issue)) == Underway(s) + [(s.client.transactionId, s.issued)]
    ensures Handed(Step(s, Issue)) == Handed(s)
  {
    var p := Request(s.client.transactionId, s.issued);
    WaitingSnoc(s, p);
    RequestsSnoc(Waiting(s), p);
  }

  lemma FullIssue(s: System)
    requires Good(s) && s.issued - AnsweredCount(s) >= WORD
    ensures !Good(Step(s, Issue))
    ensures Step(s, Issue).client.transactions == s.client.transactions
    ensures s.issued !in s.client.transactions.Values
  {
    var n, s' := s.issued, Step(s, Issue);
    KeyCollides(n - WORD, n);
    assert Key(n) in s.client.transactions && s.client.transactions[Key(n)] == n - WORD;
    IssueUnderway(s);
    assert !Pending(s');
    forall key | key in s.client.transactions
      ensures s.client.transactions[key] != n
    {
    }
  }

  lemma FreshIssue(s: System)
    requires Good(s) && Key(s.issued) !in s.client.transactions
    ensures Good(Step(s, Issue))
  {
    var n, s' := s.issued, Step(s, Issue);
    IssueUnderway(s);
    assert s'.client.transactions == s.client.transactions[Key(n) := n];
    assert InOrder(s') by {
      NextId(n);
    }
  }

  lemma NextId(n: nat)
    ensures (n % WORD + 1) % WORD == (n + 1) % WORD
  {
  }

  /** Nothing that correlation speaks of has changed. */
  lemma SameGood(s: System, s': System)
    requires Good(s) && s'.handed <= |s'.client.writing| && Underway(s') == Underway(s)
    requires s'.issued == s.issued && s'.client.transactionId == s.client.transactionId
    requires s'.client.transactions == s.client.transactions && s'.client.fired == s.client.fired
    requires ReadsMatch(s')
    ensures Good(s')
  {
  }

  lemma TellGood(s: System)
    requires Good(s)
    ensures Good(Step(s, Tell))
  {
    hide InOrder, Pending, FiredOnce;
    WaitingSnoc(s, Message);
    RequestsSnoc(Waiting(s), Message);
    SameGood(s, Step(s, Tell));
  }

  lemma TransmitGood(s: System)
    requires Good(s) && Enabled(s, Transmit)
    ensures Good(Step(s, Transmit))
  {
    hide InOrder, Pending, FiredOnce;
    var s', p := Step(s, Transmit), s.client.writing[s.handed];
    RequestsSnoc(s.toServer, p);
    RequestsSnoc(Handed(s), p);
    assert Handed(s') == Handed(s) + [p] && Waiting(s) == [p] + Waiting(s');
    assert Requests(Waiting(s)) == (if p.Request? then [(p.id, p.request)] else []) + Requests(Waiting(s'));
    SameGood(s, s');
  }

  lemma WrittenGood(s: System)
    requires Good(s) && Enabled(s, Written)
    ensures Good(Step(s, Written))
  {
    hide InOrder, Pending, FiredOnce;
    var s' := Step(s, Written);
    assert Handed(s)[0] == s.client.writing[0] && Handed(s)[1..] == Handed(s');
    assert Waiting(s') == Waiting(s);
    SameGood(s, s');
  }

  lemma ServeGood(s: System)
    requires Good(s) && Enabled(s, Serve)
    ensures Good(Step(s, Serve))
  {
    hide InOrder, Pending, FiredOnce;
    var s', p := Step(s, Serve), s.toServer[0];
    assert Handed(s') == Handed(s);
    if p.Request? {
      assert Answers(s'.toClient) == Answers(s.toClient) + [(p.id, p.request)];
    } else {
      assert s'.toClient == s.toClient;
    }
    SameGood(s, s');
  }

  /** The next response belongs to the oldest unanswered request, and fires its callback. */
  lemma AnsweredGood(s: System)
    requires Good(s) && Enabled(s, Answered)
    ensures Good(Step(s, Answered))
    ensures Step(s, Answered).client.fired == s.client.fired + [(AnsweredCount(s), AnsweredCount(s))]
  {
    var s', a := Step(s, Answered), AnsweredCount(s);
    var r := s.toClient[0];
    assert Underway(s)[0] == Answers(s.toClient)[0] == (r.id, r.answerTo);
    assert Signed(r.id) == Key(a) && s.client.transactions[Key(a)] == a && r.answerTo == a;
    assert Answers(s.toClient)[1..] == Answers(s'.toClient);
    assert Underway(s') == Underway(s)[1..];
    assert s'.client.transactions == s.client.transactions - {Key(a)};
  }

  /** Correlation stays correct over one event exactly when the event is not the
      issue of a request with 2^32 callbacks pending. */
  lemma StepGoodIff(s: System, e: Event)
    requires Good(s) && Enabled(s, e)
    ensures Good(Step(s, e)) <==> (e.Issue? ==> |s.client.transactions| < WORD)
  {
    match e {
      case Issue => IssueGoodIff(s);
      case Tell => TellGood(s);
      case Transmit => TransmitGood(s);
      case Written => WrittenGood(s);
      case Serve => ServeGood(s);
      case Answered => AnsweredGood(s);
    }
  }

  // ---- Runs ----

  predicate Runs(s: System, es: seq<Event>, s': System)
    decreases |es|
  {
    if es == [] then s' == s else Enabled(s, es[0]) && Runs(Step(s, es[0]), es[1..], s')
  }

  /** All states of a run, the first included, are good. */
  ghost predicate AlwaysGood(s: System, es: seq<Event>)
    decreases |es|
  {
    Good(s) && (es != [] && Enabled(s, es[0]) ==> AlwaysGood(Step(s, es[0]), es[1..]))
  }

  /** No request is issued while 2^32 callbacks are pending. */
  predicate NeverFull(s: System, es: seq<Event>)
    decreases |es|
  {
    es != [] && Enabled(s, es[0]) ==>
      (es[0].Issue? ==> |s.client.transactions| < WORD) && NeverFull(Step(s, es[0]), es[1..])
  }

  /** Over every run correlation is correct throughout exactly when no request is
      issued with 2^32 callbacks pending: then pending is issued minus answered,
      and each callback has fired once with the answer to its own request. */
  lemma {:induction false} CorrelationCorrectIff(s: System, es: seq<Event>, s': System)
    requires Good(s) && Runs(s, es, s')
    ensures AlwaysGood(s, es) <==> NeverFull(s, es)
    ensures NeverFull(s, es) ==> Good(s') && |s'.client.transactions| == s'.issued - |s'.client.fired|
    decreases |es|
  {
    hide Good;
    if es == [] {
      PendingCount(s);
    } else {
      StepGoodIff(s, es[0]);
      if Good(Step(s, es[0])) {
        CorrelationCorrectIff(Step(s, es[0]), es[1..], s');
      } else {
        assert !AlwaysGood(Step(s, es[0]), es[1..]);
      }
    }
  }

  lemma NewSystemGood()
    ensures Good(NEW_SYSTEM)
  {
  }

  // ---- The full table is reachable ----

  function Issues(n: nat): (es: seq<Event>)
    ensures |es| == n && forall i :: 0 <= i < n ==> es[i] == Issue
  {
    seq(n, i requires 0 <= i < n => Issue)
  }

  /** Issuing requests with none answered fills the table, and the one issued when
      2^32 are pending breaks correlation. */
  lemma {:induction false} IssuingFills(s: System, n: nat) returns (s': System)
    requires Good(s) && s.client.fired == [] && s.issued + n <= WORD
    ensures Runs(s, Issues(n), s') && NeverFull(s, Issues(n)) && AlwaysGood(s, Issues(n))
    ensures Good(s') && s'.client.fired == [] && |s'.client.transactions| == s'.issued == s.issued + n
    decreases n
  {
    hide Good;
    PendingCount(s);
    if n == 0 {
      s' := s;
    } else {
      IssueGoodIff(s);
      assert Issues(n)[1..] == Issues(n - 1);
      s' := IssuingFills(Step(s, Issue), n - 1);
    }
  }

  lemma {:induction false} BreaksLater(s: System, es: seq<Event>, s1: System, es': seq<Event>)
    requires Runs(s, es, s1) && !AlwaysGood(s1, es')
    ensures !AlwaysGood(s, es + es')
    decreases |es|
  {
    hide Good;
    if es == [] {
      assert es + es' == es';
    } else {
      assert (es + es')[1..] == es[1..] + es';
      BreaksLater(Step(s, es[0]), es[1..], s1, es');
    }
  }

  /** A run that fails: from the very first state, 2^32 + 1 requests in a row. The
      last one's callback is never registered. */
  lemma TooManyRequests()
    ensures !AlwaysGood(NEW_SYSTEM, Issues(WORD) + [Issue])
    ensures exists full :: Runs(NEW_SYSTEM, Issues(WORD), full) && Good(full) && |full.client.transactions| == WORD
                           && Step(full, Issue).client.transactions == full.client.transactions
                           && WORD !in Step(full, Issue).client.transactions.Values
  {
    NewSystemGood();
    var full := IssuingFills(NEW_SYSTEM, WORD);
    IssueGoodIff(full);
    assert !AlwaysGood(full, [Issue]) by {
      assert [Issue][0] == Issue && [Issue][1..] == [];
      assert !AlwaysGood(Step(full, Issue), []);
    }
    BreaksLater(NEW_SYSTEM, Issues(WORD), full, [Issue]);
  }

  // ---- What goes over the link ----

  /** The packets issued in a run, the requests numbered in order: what the callers ask for. */
  function Asked(next: nat, es: seq<Event>): seq<Packet>
    decreases |es|
  {
    if es == [] then [] else AskedBy(next, es[0]) + Asked(if es[0].Issue? then next + 1 else next, es[1..])
  }

  function AskedBy(next: nat, e: Event): seq<Packet> {
    if e.Issue? then [Request(next % WORD, next)] else if e.Tell? then [Message] else []
  }

  function TakenBy(s: System, e: Event): seq<Packet>
    requires Enabled(s, e)
  {
    if e.Transmit? then [s.client.writing[s.handed]] else []
  }

  function ServedBy(s: System, e: Event): seq<Packet>
    requires Enabled(s, e)
  {
    if e.Serve? then [s.toServer[0]] else []
  }

  /** The packets the link takes in a run, in order. */
  function Taken(s: System, es: seq<Event>, s': System): seq<Packet>
    requires Runs(s, es, s')
    decreases |es|
  {
    if es == [] then [] else TakenBy(s, es[0]) + Taken(Step(s, es[0]), es[1..], s')
  }

  /** The packets the server serves in a run, in order. */
  function Served(s: System, es: seq<Event>, s': System): seq<Packet>
    requires Runs(s, es, s')
    decreases |es|
  {
    if es == [] then [] else ServedBy(s, es[0]) + Served(Step(s, es[0]), es[1..], s')
  }

  /** No packet is lost, added or reordered: what was waiting and what is asked for is
      what the link takes and what is left waiting, messages included. */
  lemma {:induction false} WritingKeepsOrder(s: System, es: seq<Event>, s': System)
    requires Runs(s, es, s') && s.handed <= |s.client.writing| && s.client.transactionId == s.issued % WORD
    ensures s'.handed <= |s'.client.writing|
    ensures Waiting(s) + Asked(s.issued, es) == Taken(s, es, s') + Waiting(s')
    decreases |es|
  {
    if es == [] {
      assert Waiting(s) + [] == [] + Waiting(s);
    } else {
      var s1 := Step(s, es[0]);
      WaitingStep(s, es[0]);
      WritingKeepsOrder(s1, es[1..], s');
      hide Waiting, AskedBy, TakenBy, Step, Enabled;
      Rejoin(Waiting(s), AskedBy(s.issued, es[0]), TakenBy(s, es[0]), Waiting(s1),
             Asked(s1.issued, es[1..]), Taken(s1, es[1..], s'), Waiting(s'));
    }
  }

  lemma Rejoin<T>(w: seq<T>, a: seq<T>, t: seq<T>, w1: seq<T>, a1: seq<T>, t1: seq<T>, w2: seq<T>)
    requires w + a == t + w1 && w1 + a1 == t1 + w2
    ensures w + (a + a1) == (t + t1) + w2
  {
    assert w + (a + a1) == (w + a) + a1 == t + (w1 + a1);
  }

  lemma WaitingStep(s: System, e: Event)
    requires Enabled(s, e) && s.handed <= |s.client.writing| && s.client.transactionId == s.issued % WORD
    ensures var s' := Step(s, e);
            && s'.handed <= |s'.client.writing| && s'.client.transactionId == s'.issued % WORD
            && s'.issued == s.issued + (if e.Issue? then 1 else 0)
            && Waiting(s) + AskedBy(s.issued, e) == TakenBy(s, e) + Waiting(s')
  {
    if e.Issue? {
      NextId(s.issued);
    }
  }

  lemma {:induction false} LinkKeepsOrder(s: System, es: seq<Event>, s': System)
    requires Runs(s, es, s')
    ensures s.toServer + Taken(s, es, s') == Served(s, es, s') + s'.toServer
    decreases |es|
  {
    if es == [] {
      assert s.toServer + [] == [] + s.toServer;
    } else {
      var s1 := Step(s, es[0]);
      assert s.toServer + TakenBy(s, es[0]) == ServedBy(s, es[0]) + s1.toServer;
      LinkKeepsOrder(s1, es[1..], s');
      hide TakenBy, ServedBy, Step, Enabled;
      Rejoin(s.toServer, TakenBy(s, es[0]), ServedBy(s, es[0]), s1.toServer,
             Taken(s1, es[1..], s'), Served(s1, es[1..], s'), s'.toServer);
    }
  }

  /** From the first moment on, the packets served, on the link and still to be taken
      are those asked for, in order. */
  lemma AllAskedFor(es: seq<Event>, s: System)
    requires Runs(NEW_SYSTEM, es, s)
    ensures Asked(0, es) == Served(NEW_SYSTEM, es, s) + s.toServer + Waiting(s)
  {
    WritingKeepsOrder(NEW_SYSTEM, es, s);
    LinkKeepsOrder(NEW_SYSTEM, es, s);
    assert Waiting(NEW_SYSTEM) == [] && NEW_SYSTEM.toServer == [];
    assert Waiting(NEW_SYSTEM) + Asked(0, es) == Asked(0, es);
    assert NEW_SYSTEM.toServer + Taken(NEW_SYSTEM, es, s) == Taken(NEW_SYSTEM, es, s);
  }

  // ---- Reading the responses ----

  /** A response can be on its way before any header read waits for it: the server
      may answer before the client's write callback has run. */
  lemma ResponseBeforeRead()
    ensures var s := Step(Step(Step(NEW_SYSTEM, Issue), Transmit), Serve);
            && Good(s) && s.toClient == [Response(0, 0)] && s.client.headerReads == 0
            && !Enabled(s, Answered) && Enabled(s, Written) && Enabled(Step(s, Written), Answered)
  {
    NewSystemGood();
    IssueGoodIff(NEW_SYSTEM);
    var s1 := Step(NEW_SYSTEM, Issue);
    TransmitGood(s1);
    ServeGood(Step(s1, Transmit));
  }

  /** A header read waits for a response on its way exactly when fewer write callbacks
      of requests are still to run than there are requests taken and responses unread.
      Otherwise such a callback can run; and when nothing is under way no read is owed
      and nothing is pending. */
  lemma ReadsSuffice(s: System)
    requires Good(s)
    ensures s.toClient != [] ==>
              (Enabled(s, Answered) <==> |Requests(Handed(s))| < |s.toClient| + |Requests(s.toServer)|)
    ensures s.toClient != [] && !Enabled(s, Answered) ==> Enabled(s, Written) && Requests(Handed(s)) != []
    ensures Underway(s) == [] ==>
            s.client.headerReads == 0 && Requests(Handed(s)) == [] && s.client.transactions == map[]
  {
    if Underway(s) == [] {
      assert |Answers(s.toClient)| == 0 && |Requests(s.toServer)| == 0;
      PendingCount(s);
      assert |s.client.transactions| == 0;
    }
  }

  /** Running the write callbacks that are due makes the response readable. */
  lemma {:induction false} CallbacksStartReads(s: System) returns (n: nat, s': System)
    requires Good(s) && s.toClient != []
    ensures n <= s.handed && Runs(s, seq(n, i requires 0 <= i < n => Written), s')
    ensures Good(s') && s'.toClient == s.toClient && Enabled(s', Answered)
    decreases s.handed
  {
    hide Good;
    ReadsSuffice(s);
    if Enabled(s, Answered) {
      n, s' := 0, s;
    } else {
      WrittenGood(s);
      var m: nat;
      m, s' := CallbacksStartReads(Step(s, Written));
      n := m + 1;
      assert seq(n, i requires 0 <= i < n => Written)[1..] == seq(m, i requires 0 <= i < m => Written);
    }
  }
}
