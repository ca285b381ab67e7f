/** The terminal's speed is the difference of two readings of a router's wrapping
    byte counter. */
module Counters {
  import opened Configuration
  import opened Runtime

  /** The unsigned 32-bit difference the terminal computes. */
  function Delta(last: Word, now: Word): Word {
    (now - last) % WORD
  }

  // ---- Routers, transfers and polls ----

  /** What happens to one node between two readings: a transfer on its router, or a
      redeploy, which replaces the router by one whose counter starts at zero. */
  datatype Event = Transfer(bytes: nat) | Redeploy | Poll

  /** The counter of the node's router and the terminal's last reading of it. What
      was really transferred since then, and the counts of the routers replaced
      since then, are there to speak of the truth: no program has them. */
  datatype State = State(counter: Word, last: Option<Word>, moved: nat, lost: nat)

  const NEW_STATE: State := State(0, None, 0, 0)

  function Step(s: State, e: Event): State {
    match e
    case Transfer(bytes) => s.(counter := Inc(s.counter, bytes), moved := s.moved + bytes)
    case Redeploy => s.(counter := 0, lost := s.lost + s.counter)
    case Poll => State(s.counter, Some(s.counter), 0, 0)
  }

  function Run(es: seq<Event>): State {
    if es == [] then NEW_STATE else Step(Run(es[..|es| - 1]), es[|es| - 1])
  }

  /** What the terminal takes for the bytes transferred: nothing at the first status. */
  function Reported(s: State): Word {
    if s.last.None? then 0 else Delta(s.last.value, s.counter)
  }

  /** The terminal's record of one direction of a node's traffic. */
  class ByteStatus {
    var bytes: Word
    var polled: bool

    function Last(): Option<Word>
      reads this
    {
      if polled then Some(bytes) else None
    }

    constructor ()
      ensures Last() == None
    {
      bytes, polled := 0, false;
    }

    /** A status arrives: the difference is taken before the reading is stored. */
    method OnStatusRequestFinished(counter: Word, ghost s: State) returns (difference: Word)
      requires Last() == s.last && counter == s.counter
      modifies this
      ensures difference == Reported(s) && Last() == Step(s, Poll).last
      ensures old(Last()) == None ==> difference == 0
      ensures Last() == Some(counter)
    {
      difference := 0;
      if polled {
        difference := if bytes <= counter then counter - bytes else WORD - (bytes - counter);
      }
      bytes, polled := counter, true;
    }
  }

  // ---- When the difference is the truth ----

  /** Up to whole words, what the counters showed is what was transferred. */
  ghost predicate Accounted(s: State) {
    s.last.Some? ==> exists q: int :: s.counter + s.lost == s.last.value + s.moved + q * WORD
  }

  lemma IncWords(w: Word, d: nat)
    ensures exists q: int :: Inc(w, d) == w + d + q * WORD
  {
    var q := (w + d) / WORD;
    assert Inc(w, d) == w + d + (-q) * WORD;
  }

  lemma StepAccounted(s: State, e: Event)
    requires Accounted(s)
    ensures Accounted(Step(s, e))
  {
    var s' := Step(s, e);
    if s.last.Some? {
      var q: int :| s.counter + s.lost == s.last.value + s.moved + q * WORD;
      if e.Transfer? {
        IncWords(s.counter, e.bytes);
        var p: int :| Inc(s.counter, e.bytes) == s.counter + e.bytes + p * WORD;
        assert s'.counter + s'.lost == s'.last.value + s'.moved + (q + p) * WORD;
      } else if e.Redeploy? {
        assert s'.counter + s'.lost == s'.last.value + s'.moved + q * WORD;
      }
    }
    if e.Poll? {
      assert s'.counter + s'.lost == s'.last.value + s'.moved + 0 * WORD;
    }
  }

  lemma {:induction false} RunAccounted(es: seq<Event>)
    ensures Accounted(Run(es))
  {
    hide Accounted;
    if es == [] {
      assert Accounted(NEW_STATE) by {
        NewAccounted();
      }
    } else {
      RunAccounted(es[..|es| - 1]);
      StepAccounted(Run(es[..|es| - 1]), es[|es| - 1]);
    }
  }

  lemma NewAccounted()
    ensures Accounted(NEW_STATE)
  {
  }

  lemma {:induction false} AddWords(b: int, q: int)
    ensures (b + q * WORD) % WORD == b % WORD
    decreases if q < 0 then -q else q
  {
    if q > 0 {
      AddWords(b, q - 1);
      assert b + q * WORD == (b + (q - 1) * WORD) + WORD;
    } else if q < 0 {
      AddWords(b, q + 1);
      assert b + q * WORD == (b + (q + 1) * WORD) - WORD;
    }
  }

  lemma SmallDifference(d: Word, moved: nat, lost: nat, q: int)
    requires d == (moved - lost + q * WORD) % WORD
    ensures d == moved <==> moved < WORD && lost % WORD == 0
    ensures d == (moved - lost) % WORD
  {
    AddWords(moved - lost, q);
    assert d == (moved - lost) % WORD;
    if lost % WORD == 0 {
      var k := lost / WORD;
      assert lost == k * WORD;
      AddWords(moved, -k);
      assert moved - lost == moved + (-k) * WORD;
    }
    if d == moved {
      var k := (moved - lost) / WORD;
      assert moved - lost == k * WORD + d;
      AddWords(0, -k);
      assert lost == 0 + (-k) * WORD;
    }
  }

  /** Over any transfers, polls and redeploys, the difference at a poll is the number
      of bytes really transferred since the last one exactly when that number fits
      the counter and the counts of the routers replaced meanwhile add up to whole
      words. */
  lemma ReportedTrueIff(es: seq<Event>)
    ensures var s := Run(es);
            && (s.last.Some? ==> (Reported(s) == s.moved <==> s.moved < WORD && s.lost % WORD == 0))
            && (s.last.Some? ==> Reported(s) == (s.moved - s.lost) % WORD)
  {
    var s := Run(es);
    RunAccounted(es);
    if s.last.Some? {
      var q: int :| s.counter + s.lost == s.last.value + s.moved + q * WORD;
      SmallDifference(Reported(s), s.moved, s.lost, q);
    }
  }

  /** However much is transferred, nothing is reported before a first poll. */
  lemma {:induction false} NothingBeforePoll(es: seq<Event>)
    requires forall e :: e in es ==> !e.Poll?
    ensures Run(es).last == None && Reported(Run(es)) == 0
  {
    if es != [] {
      assert es[|es| - 1] in es;
      NothingBeforePoll(es[..|es| - 1]);
    }
  }

  /** A poll reports what has come since the last one and starts anew. */
  lemma PollReports(es: seq<Event>, between: seq<Event>)
    requires forall e :: e in between ==> e.Transfer?
    ensures var s := Run(es + [Poll] + between);
            && s.last == Some(Run(es).counter) && s.lost == 0
            && s.moved == Moved(between) && Reported(s) == Moved(between) % WORD
  {
    SincePoll(es, between);
    ReportedTrueIff(es + [Poll] + between);
  }

  function Moved(es: seq<Event>): nat
    requires forall e :: e in es ==> e.Transfer?
  {
    if es == [] then 0 else
      assert es[|es| - 1] in es;
      Moved(es[..|es| - 1]) + es[|es| - 1].bytes
  }

  lemma {:induction false} SincePoll(es: seq<Event>, between: seq<Event>)
    requires forall e :: e in between ==> e.Transfer?
    ensures var s := Run(es + [Poll] + between);
            s.last == Some(Run(es).counter) && s.lost == 0 && s.moved == Moved(between)
    decreases |between|
  {
    var all := es + [Poll] + between;
    if between == [] {
      assert all[..|all| - 1] == es;
    } else {
      var init := between[..|between| - 1];
      assert between[|between| - 1] in between;
      SincePoll(es, init);
      assert all[..|all| - 1] == es + [Poll] + init;
    }
  }

  /** No redeploy since the last poll. */
  predicate Steady(es: seq<Event>) {
    es == [] || es[|es| - 1].Poll? || (!es[|es| - 1].Redeploy? && Steady(es[..|es| - 1]))
  }

  lemma {:induction false} SteadyLosesNothing(es: seq<Event>)
    requires Steady(es)
    ensures Run(es).lost == 0
  {
    if es != [] && !es[|es| - 1].Poll? {
      SteadyLosesNothing(es[..|es| - 1]);
    }
  }

  /** Between two polls of one router the difference is the number of bytes
      transferred exactly when that number fits the counter, however the transfers
      are split and however often the counter wrapped before. */
  lemma {:induction false} DeltaTrueIff(es: seq<Event>)
    requires Steady(es)
    ensures var s := Run(es);
            s.last.Some? ==> (Reported(s) == s.moved <==> s.moved < WORD)
  {
    ReportedTrueIff(es);
    SteadyLosesNothing(es);
  }

  /** A redeploy that fails: ten bytes are polled, the router is replaced, nothing is
      transferred, and the terminal takes the fall of the counter for nearly 2^32. */
  lemma RedeployMisleads()
    ensures var s := Run([Transfer(10), Poll, Redeploy]);
            s.moved == 0 && Reported(s) == WORD - 10
  {
    var es := [Transfer(10), Poll, Redeploy];
    assert es[..2] == [Transfer(10), Poll] && es[..2][..1] == [Transfer(10)];
    assert [Transfer(10)][..0] == [];
    assert Run([Transfer(10)]) == Step(NEW_STATE, Transfer(10));
    assert Run([Transfer(10), Poll]) == Step(Run([Transfer(10)]), Poll) by {
      assert [Transfer(10), Poll][..1] == [Transfer(10)];
    }
  }
}
