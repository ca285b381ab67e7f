/** The search for a tab title no other tab has. */
module UniqueTitle {
  import opened Multisets

  datatype DocKind = App | Deploy | Unsaved

  /** An open tab: the document it shows and its text. */
  datatype Tab = Tab(doc: nat, text: string)

  const UNTITLED: string := "Безымянный"

  predicate IsDigit(c: char) {
    '0' <= c <= '9'
  }

  function DigitOf(d: nat): (c: char)
    requires d < 10
    ensures IsDigit(c) && c as int == '0' as int + d
  {
    '0' + d as char
  }

  function Digits(n: nat): (s: string)
    ensures |s| > 0
    ensures n < 10 ==> |s| == 1
    ensures n >= 10 ==> |s| >= 2
  {
    if n < 10 then [DigitOf(n)] else Digits(n / 10) + [DigitOf(n % 10)]
  }

  predicate AllDigits(s: string) {
    forall i :: 0 <= i < |s| ==> IsDigit(s[i])
  }

  /** The number a string of digits stands for, read from left to right. */
  function Value(s: string): int {
    if s == [] then 0 else 10 * Value(s[..|s| - 1]) + (s[|s| - 1] as int - '0' as int)
  }

  lemma ValueSnoc(s: string, d: nat)
    requires d < 10
    ensures Value(s + [DigitOf(d)]) == 10 * Value(s) + d
  {
    assert (s + [DigitOf(d)])[..|s|] == s;
  }

  /** The number is written in decimal notation: digits only, no leading zero, and
      read back it is the number. */
  lemma {:induction false} DigitsDecimal(n: nat)
    ensures AllDigits(Digits(n)) && (n > 0 ==> Digits(n)[0] != '0') && Value(Digits(n)) == n
  {
    hide Value, IsDigit;
    if n < 10 {
      ValueSnoc([], n);
      NoValue();
      assert [] + [DigitOf(n)] == Digits(n);
      DigitZero(n);
    } else {
      DigitsDecimal(n / 10);
      ValueSnoc(Digits(n / 10), n % 10);
      assert Digits(n)[0] == Digits(n / 10)[0];
    }
  }

  lemma NoValue()
    ensures Value([]) == 0
  {
  }

  lemma DigitZero(d: nat)
    requires d < 10
    ensures DigitOf(d) == '0' <==> d == 0
  {
  }

  /** The candidate of round i: from round 2 on only the last character of the
      previous candidate is dropped before the number is appended. */
  function Candidate(i: nat): (s: string)
    ensures |s| >= |UNTITLED| && (i > 0 ==> |s| > |UNTITLED|)
  {
    if i == 0 then UNTITLED
    else if i == 1 then UNTITLED + Digits(1)
    else
      var previous := Candidate(i - 1);
      previous[..|previous| - 1] + Digits(i)
  }

  /** The first candidates: the digit is exchanged up to round 9, and from round 11 on
      the digits left over from before pile up. */
  lemma FirstCandidates()
    ensures Candidate(0) == "Безымянный"
    ensures Candidate(1) == "Безымянный" + "1" && Candidate(2) == "Безымянный" + "2"
    ensures Candidate(9) == "Безымянный" + "9"
    ensures Candidate(10) == "Безымянный" + "10" && Candidate(11) == "Безымянный" + "111"
    ensures Candidate(12) == "Безымянный" + "1112"
  {
    hide Candidate;
    CandidateNext(0);
    CandidateShort(1);
    CandidateShort(2);
    CandidateShort(9);
    assert Digits(1) == "1" && Digits(2) == "2" && Digits(9) == "9";
    assert Digits(10) == "10" && Digits(11) == "11" && Digits(12) == "12";
    hide Digits;
    LastExchanged(10, [], '9');
    LastExchanged(11, "1", '0');
    LastExchanged(12, "11", '1');
  }

  lemma LastExchanged(i: nat, kept: string, c: char)
    requires i > 1 && Candidate(i - 1) == UNTITLED + (kept + [c])
    ensures Candidate(i) == UNTITLED + (kept + Digits(i))
  {
    var before := UNTITLED + (kept + [c]);
    assert before[..|before| - 1] == UNTITLED + kept;
    assert UNTITLED + kept + Digits(i) == UNTITLED + (kept + Digits(i));
  }

  /** From round 10 on every candidate is longer than the one before. */
  lemma {:induction false} CandidateLength(i: nat, j: nat)
    requires i < j
    ensures |Candidate(i)| <= |Candidate(j)|
    ensures j >= 10 ==> |Candidate(i)| < |Candidate(j)|
    decreases j
  {
    if i < j - 1 {
      CandidateLength(i, j - 1);
    }
  }

  lemma {:induction false} CandidateShort(i: nat)
    requires 0 < i < 10
    ensures Candidate(i) == UNTITLED + Digits(i)
  {
    if i > 1 {
      CandidateShort(i - 1);
      assert (UNTITLED + Digits(i - 1))[..|UNTITLED + Digits(i - 1)| - 1] == UNTITLED;
    }
  }

  lemma DigitsDiffer(i: nat, j: nat)
    requires i < j < 10
    ensures Digits(i) != Digits(j)
  {
    assert Digits(i)[0] == '0' + i as char && Digits(j)[0] == '0' + j as char;
  }

  /** No candidate comes twice, although only one character is ever dropped. */
  lemma CandidatesDiffer(i: nat, j: nat)
    requires i < j
    ensures Candidate(i) != Candidate(j)
  {
    if j >= 10 {
      CandidateLength(i, j);
    } else if i > 0 {
      CandidateShort(i);
      CandidateShort(j);
      DigitsDiffer(i, j);
      assert Candidate(i)[|UNTITLED|..] == Digits(i);
    }
  }

  // ---- The pigeonhole principle ----

  function Texts(tabs: seq<Tab>, doc: nat): (s: set<string>)
  {
    set t | t in tabs && t.doc != doc :: t.text
  }

  /** How many tabs show other documents. */
  function Others(tabs: seq<Tab>, doc: nat): nat {
    if tabs == [] then 0 else Others(tabs[..|tabs| - 1], doc) + if tabs[|tabs| - 1].doc != doc then 1 else 0
  }

  lemma {:induction false} TextsBound(tabs: seq<Tab>, doc: nat)
    ensures |Texts(tabs, doc)| <= Others(tabs, doc)
  {
    if tabs != [] {
      var init, t := tabs[..|tabs| - 1], tabs[|tabs| - 1];
      TextsBound(init, doc);
      assert tabs == init + [t];
      if t.doc == doc {
        assert Texts(tabs, doc) == Texts(init, doc);
      } else {
        assert Texts(tabs, doc) == Texts(init, doc) + {t.text};
      }
    }
  }

  ghost function Tried(n: nat): set<string> {
    set i: nat | i < n :: Candidate(i)
  }

  lemma {:induction false} TriedCount(n: nat)
    ensures |Tried(n)| == n
  {
    if n == 0 {
      assert Tried(0) == {};
    } else {
      TriedCount(n - 1);
      forall i: nat | i < n - 1
        ensures Candidate(i) != Candidate(n - 1)
      {
        CandidatesDiffer(i, n - 1);
      }
      assert Tried(n) == Tried(n - 1) + {Candidate(n - 1)};
    }
  }

  /** As many taken candidates need as many other tabs. */
  lemma TakenBound(tabs: seq<Tab>, doc: nat, n: nat)
    requires forall i: nat :: i < n ==> Candidate(i) in Texts(tabs, doc)
    ensures n <= Others(tabs, doc)
  {
    TriedCount(n);
    TextsBound(tabs, doc);
    SubsetSize(Tried(n), Texts(tabs, doc));
  }

  // ---- The loop ----

  /** Some other tab shows the text. */
  predicate Taken(tabs: seq<Tab>, doc: nat, text: string) {
    exists t :: t in tabs && t.doc != doc && t.text == text
  }

  lemma TextsAreTaken(tabs: seq<Tab>, doc: nat)
    ensures forall text :: text in Texts(tabs, doc) <==> Taken(tabs, doc, text)
  {
  }

  /** The candidate as the loop makes it from the one before. */
  lemma CandidateNext(i: nat)
    ensures i == 0 ==> Candidate(i) == UNTITLED
    ensures i == 1 ==> Candidate(i) == UNTITLED + Digits(1) && Candidate(0) == UNTITLED
    ensures i > 1 ==> Candidate(i) == Candidate(i - 1)[..|Candidate(i - 1)| - 1] + Digits(i)
  {
  }

  /** The title for a document's tab. For an unsaved document it is the first
      candidate that no other tab shows, found after trying at most one candidate
      more than there are other tabs. */
  method FixedWindowTitle(kind: DocKind, fileName: string, doc: nat, tabs: seq<Tab>)
    returns (result: string, ghost rounds: nat)
    ensures kind != Unsaved ==> result == fileName
    ensures kind == Unsaved ==>
              && rounds <= Others(tabs, doc) && result == Candidate(rounds)
              && !Taken(tabs, doc, result)
              && (forall i: nat :: i < rounds ==> Taken(tabs, doc, Candidate(i)))
  {
    hide Others, Digits, Candidate, Texts;
    result, rounds := fileName, 0;
    if kind != Unsaved {
      return;
    }
    result := UNTITLED;
    var i: nat := 0;
    while true
      invariant i == 0 ==> result == UNTITLED
      invariant i > 0 ==> result == Candidate(i - 1)
      invariant forall j: nat :: j < i ==> Candidate(j) in Texts(tabs, doc)
      invariant i <= Others(tabs, doc)
      decreases Others(tabs, doc) - i
    {
      if i > 1 {
        result := result[..|result| - 1];
      }
      if i > 0 {
        result := result + Digits(i);
      }
      CandidateNext(i);
      assert result == Candidate(i);
      var unique := true;
      var j := 0;
      while j < |tabs|
        invariant 0 <= j <= |tabs| && unique
        invariant forall k :: 0 <= k < j ==> tabs[k].doc == doc || tabs[k].text != result
      {
        if tabs[j].doc != doc && result == tabs[j].text {
          unique := false;
          break;
        }
        j := j + 1;
      }
      if unique {
        rounds := i;
        TextsAreTaken(tabs, doc);
        return;
      }
      TextsAreTaken(tabs, doc);
      assert Taken(tabs, doc, Candidate(i)) by {
        assert tabs[j] in tabs;
      }
      i := i + 1;
      TakenBound(tabs, doc, i);
    }
  }
}
