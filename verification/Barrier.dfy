/** The all-ports barrier of the `reduce` component: it emits each time every
    port has had an input since the last emission. */
module Barrier {
  import opened Configuration
  import opened Runtime

  const IN_PORTS: nat := 3

  datatype Arrival = Arrival(port: nat, value: Data)

  predicate InRange(xs: seq<Arrival>) {
    forall i :: 0 <= i < |xs| ==> xs[i].port < IN_PORTS
  }

  // ---- The state after some arrivals ----

  datatype State = State(values: seq<Data>, relevant: seq<bool>, emitted: seq<seq<Data>>)

  const NO_DATA: Data := Data(0.0, 0, 0)
  const INITIAL: State := State([NO_DATA, NO_DATA, NO_DATA], [false, false, false], [])

  predicate Shaped(s: State) {
    |s.values| == |s.relevant| == IN_PORTS
  }

  predicate AllRelevant(relevant: seq<bool>) {
    forall p :: 0 <= p < |relevant| ==> relevant[p]
  }

  function Next(s: State, a: Arrival): (s': State)
    requires Shaped(s) && a.port < IN_PORTS
    ensures Shaped(s')
  {
    var values := s.values[a.port := a.value];
    var relevant := s.relevant[a.port := true];
    if AllRelevant(relevant)
    then State(values, [false, false, false], s.emitted + [values])
    else State(values, relevant, s.emitted)
  }

  function Run(xs: seq<Arrival>): (s: State)
    requires InRange(xs)
    ensures Shaped(s)
  {
    if xs == [] then INITIAL else Next(Run(xs[..|xs| - 1]), xs[|xs| - 1])
  }

  // ---- Blocks that cover every port ----

  predicate Has(xs: seq<Arrival>, from: nat, to: nat, p: nat)
    requires from <= to <= |xs|
  {
    exists i :: from <= i < to && xs[i].port == p
  }

  predicate Covers(xs: seq<Arrival>, from: nat, to: nat)
    requires from <= to <= |xs|
  {
    forall p: nat :: p < IN_PORTS ==> Has(xs, from, to, p)
  }

  datatype Block = Block(from: nat, to: nat)

  /** Disjoint blocks of consecutive arrivals, in order, each covering every port. */
  predicate Blocks(xs: seq<Arrival>, bs: seq<Block>) {
    && (forall i :: 0 <= i < |bs| ==> bs[i].from <= bs[i].to <= |xs| && Covers(xs, bs[i].from, bs[i].to))
    && (forall i :: 0 <= i < |bs| - 1 ==> bs[i].to <= bs[i + 1].from)
  }

  /** The latest value of a port in a range of arrivals. */
  function Latest(xs: seq<Arrival>, from: nat, to: nat, p: nat): Data
    requires from <= to <= |xs| && Has(xs, from, to, p)
  {
    if xs[to - 1].port == p then xs[to - 1].value
    else
      assert Has(xs, from, to - 1, p);
      Latest(xs, from, to - 1, p)
  }

  // ---- What the barrier has done ----

  /** Where each emission ends: block i runs from the end of the previous emission
      to the arrival that completed it. */
  predicate Emissions(xs: seq<Arrival>, cuts: seq<nat>) {
    && |cuts| > 0 && cuts[0] == 0
    && (forall i :: 0 <= i < |cuts| ==> cuts[i] <= |xs|)
    && (forall i, j :: 0 <= i < j < |cuts| ==> cuts[i] < cuts[j])
  }

  /** Each emission carries, for every port, the latest value since the emission
      before it, and came as soon as every port had one. */
  ghost predicate EmittedAt(xs: seq<Arrival>, emitted: seq<seq<Data>>, cuts: seq<nat>)
    requires Emissions(xs, cuts)
  {
    |emitted| == |cuts| - 1 && forall i :: 0 <= i < |emitted| ==> EmissionOf(xs, emitted[i], cuts[i], cuts[i + 1])
  }

  ghost predicate EmissionOf(xs: seq<Arrival>, emission: seq<Data>, from: nat, to: nat)
    requires from < to <= |xs|
  {
    && Covers(xs, from, to)
    && !Covers(xs, from, to - 1)
    && |emission| == IN_PORTS
    && forall p: nat :: p < IN_PORTS ==> emission[p] == Latest(xs, from, to, p)
  }

  /** Since the last emission: the flags say which ports have arrived, the values
      of those are the latest, and not every port has arrived. */
  ghost predicate Collecting(xs: seq<Arrival>, s: State, since: nat)
    requires since <= |xs| && Shaped(s)
  {
    && (forall p: nat :: p < IN_PORTS ==> (s.relevant[p] <==> Has(xs, since, |xs|, p)))
    && (forall p: nat :: p < IN_PORTS && s.relevant[p] ==> s.values[p] == Latest(xs, since, |xs|, p))
    && !Covers(xs, since, |xs|)
  }

  lemma HasSnoc(xs: seq<Arrival>, a: Arrival, from: nat, to: nat, p: nat)
    requires from <= to <= |xs|
    ensures Has(xs + [a], from, to, p) <==> Has(xs, from, to, p)
    ensures Has(xs, from, to, p) ==> Latest(xs + [a], from, to, p) == Latest(xs, from, to, p)
    decreases (to)
  {
    if Has(xs, from, to, p) {
      var i :| from <= i < to && xs[i].port == p;
      assert (xs + [a])[i].port == p;
      if xs[to - 1].port != p {
        assert Has(xs, from, to - 1, p);
        HasSnoc(xs, a, from, to - 1, p);
      }
    }
  }

  lemma HasLast(xs: seq<Arrival>, a: Arrival, from: nat, p: nat)
    requires from <= |xs|
    ensures var xs' := xs + [a];
            && (Has(xs', from, |xs'|, p) <==> Has(xs, from, |xs|, p) || a.port == p)
            && (Has(xs', from, |xs'|, p) ==>
                  Latest(xs', from, |xs'|, p) == if a.port == p then a.value else Latest(xs, from, |xs|, p))
  {
    var xs' := xs + [a];
    HasSnoc(xs, a, from, |xs|, p);
    assert xs'[|xs|] == a;
    if Has(xs', from, |xs'|, p) && a.port != p {
      assert Has(xs', from, |xs|, p);
    }
  }

  lemma CoversSnoc(xs: seq<Arrival>, a: Arrival, from: nat, to: nat)
    requires from <= to <= |xs|
    ensures Covers(xs + [a], from, to) <==> Covers(xs, from, to)
  {
    forall p: nat | p < IN_PORTS
      ensures Has(xs + [a], from, to, p) <==> Has(xs, from, to, p)
    {
      HasSnoc(xs, a, from, to, p);
    }
  }

  lemma EmissionSnoc(xs: seq<Arrival>, a: Arrival, emission: seq<Data>, from: nat, to: nat)
    requires from < to <= |xs| && EmissionOf(xs, emission, from, to)
    ensures EmissionOf(xs + [a], emission, from, to)
  {
    CoversSnoc(xs, a, from, to);
    CoversSnoc(xs, a, from, to - 1);
    forall p: nat | p < IN_PORTS
      ensures emission[p] == Latest(xs + [a], from, to, p)
    {
      HasSnoc(xs, a, from, to, p);
    }
  }

  lemma EmittedSnoc(xs: seq<Arrival>, a: Arrival, emitted: seq<seq<Data>>, cuts: seq<nat>)
    requires Emissions(xs, cuts) && EmittedAt(xs, emitted, cuts)
    ensures Emissions(xs + [a], cuts) && EmittedAt(xs + [a], emitted, cuts)
  {
    forall i | 0 <= i < |emitted|
      ensures EmissionOf(xs + [a], emitted[i], cuts[i], cuts[i + 1])
    {
      EmissionSnoc(xs, a, emitted[i], cuts[i], cuts[i + 1]);
    }
  }

  lemma EmittedOneMore(xs: seq<Arrival>, emitted: seq<seq<Data>>, cuts: seq<nat>, emission: seq<Data>)
    requires Emissions(xs, cuts) && EmittedAt(xs, emitted, cuts)
    requires cuts[|cuts| - 1] < |xs| && EmissionOf(xs, emission, cuts[|cuts| - 1], |xs|)
    ensures Emissions(xs, cuts + [|xs|]) && EmittedAt(xs, emitted + [emission], cuts + [|xs|])
  {
    var cuts', emitted' := cuts + [|xs|], emitted + [emission];
    assert Emissions(xs, cuts') by {
      forall i, j | 0 <= i < j < |cuts'|
        ensures cuts'[i] < cuts'[j]
      {
        if j == |cuts| && i < |cuts| - 1 {
          assert cuts[i] < cuts[|cuts| - 1];
        }
      }
    }
    forall i | 0 <= i < |emitted'|
      ensures EmissionOf(xs, emitted'[i], cuts'[i], cuts'[i + 1])
    {
      if i < |emitted| {
        assert EmissionOf(xs, emitted[i], cuts[i], cuts[i + 1]);
      }
    }
  }

  lemma NextCollects(xs: seq<Arrival>, a: Arrival, s: State, since: nat)
    requires since <= |xs| && Shaped(s) && a.port < IN_PORTS && Collecting(xs, s, since)
    ensures var xs', s' := xs + [a], Next(s, a);
            if Covers(xs', since, |xs'|) then
              && (exists e :: s'.emitted == s.emitted + [e] && EmissionOf(xs', e, since, |xs'|))
              && Collecting(xs', s', |xs'|)
            else s'.emitted == s.emitted && Collecting(xs', s', since)
  {
    var xs' := xs + [a];
    var values, relevant := s.values[a.port := a.value], s.relevant[a.port := true];
    forall p: nat | p < IN_PORTS
      ensures relevant[p] <==> Has(xs', since, |xs'|, p)
      ensures relevant[p] ==> values[p] == Latest(xs', since, |xs'|, p)
    {
      HasLast(xs, a, since, p);
    }
    if Covers(xs', since, |xs'|) {
      CoversSnoc(xs, a, since, |xs|);
      assert AllRelevant(relevant);
      assert EmissionOf(xs', values, since, |xs'|);
      assert !Has(xs', |xs'|, |xs'|, 0);
    } else {
      var p: nat :| p < IN_PORTS && !Has(xs', since, |xs'|, p);
      assert !relevant[p];
    }
  }

  /** Over any arrivals the barrier's state is explained by the points at which it emitted. */
  lemma {:induction false} RunExplained(xs: seq<Arrival>) returns (cuts: seq<nat>)
    requires InRange(xs)
    ensures Emissions(xs, cuts) && EmittedAt(xs, Run(xs).emitted, cuts)
    ensures Collecting(xs, Run(xs), cuts[|cuts| - 1])
  {
    hide EmittedAt, Collecting, Covers;
    if xs == [] {
      cuts := [0];
      StartExplained();
    } else {
      var init, a := xs[..|xs| - 1], xs[|xs| - 1];
      assert xs == init + [a];
      cuts := RunExplained(init);
      var since := cuts[|cuts| - 1];
      NextCollects(init, a, Run(init), since);
      EmittedSnoc(init, a, Run(init).emitted, cuts);
      if Covers(xs, since, |xs|) {
        var e :| Run(xs).emitted == Run(init).emitted + [e] && EmissionOf(xs, e, since, |xs|);
        EmittedOneMore(xs, Run(init).emitted, cuts, e);
        cuts := cuts + [|xs|];
      }
    }
  }

  lemma StartExplained()
    ensures Emissions([], [0]) && EmittedAt([], [], [0]) && Collecting([], INITIAL, 0)
  {
    assert !Has([], 0, 0, 0);
  }

  // ---- Optimality ----

  lemma CoversWider(xs: seq<Arrival>, from: nat, to: nat, from': nat, to': nat)
    requires from' <= from <= to <= to' <= |xs| && Covers(xs, from, to)
    ensures Covers(xs, from', to')
  {
    forall p: nat | p < IN_PORTS
      ensures Has(xs, from', to', p)
    {
      assert Has(xs, from, to, p);
    }
  }

  /** Block by block, no choice of blocks is ahead of the barrier. */
  lemma {:induction false} NeverAhead(xs: seq<Arrival>, cuts: seq<nat>, emitted: seq<seq<Data>>, s: State,
                                      bs: seq<Block>, i: nat)
    requires Emissions(xs, cuts) && EmittedAt(xs, emitted, cuts)
    requires Shaped(s) && Collecting(xs, s, cuts[|cuts| - 1])
    requires Blocks(xs, bs) && i < |bs|
    ensures i + 1 < |cuts| && cuts[i + 1] <= bs[i].to
  {
    if i < |emitted| {
      assert EmissionOf(xs, emitted[i], cuts[i], cuts[i + 1]);
    }
    if i > 0 {
      NeverAhead(xs, cuts, emitted, s, bs, i - 1);
      assert bs[i - 1].to <= bs[i - 1 + 1].from;
    }
    assert cuts[i] <= bs[i].from;
    if i + 1 >= |cuts| {
      CoversWider(xs, bs[i].from, bs[i].to, cuts[i], |xs|);
    } else if bs[i].to < cuts[i + 1] {
      CoversWider(xs, bs[i].from, bs[i].to, cuts[i], cuts[i + 1] - 1);
    }
  }

  /** The barrier is optimal: it emits as often as there are disjoint consecutive
      blocks covering every port, its own emissions being such blocks, and no
      choice of blocks has more. */
  lemma BarrierOptimal(xs: seq<Arrival>)
    requires InRange(xs)
    ensures exists bs :: Blocks(xs, bs) && |bs| == |Run(xs).emitted|
    ensures forall bs :: Blocks(xs, bs) ==> |bs| <= |Run(xs).emitted|
  {
    var cuts := RunExplained(xs);
    var k := |Run(xs).emitted|;
    var own := seq(k, i requires 0 <= i < k => Block(cuts[i], cuts[i + 1]));
    forall i | 0 <= i < k
      ensures Covers(xs, own[i].from, own[i].to)
    {
      assert EmissionOf(xs, Run(xs).emitted[i], cuts[i], cuts[i + 1]);
    }
    assert Blocks(xs, own);
    forall bs | Blocks(xs, bs)
      ensures |bs| <= k
    {
      if |bs| > k {
        NeverAhead(xs, cuts, Run(xs).emitted, Run(xs), bs, k);
      }
    }
  }

  lemma EmissionLatest(xs: seq<Arrival>, emission: seq<Data>, from: nat, to: nat, p: nat)
    requires from < to <= |xs| && p < IN_PORTS && EmissionOf(xs, emission, from, to)
    ensures Has(xs, from, to, p) && |emission| == IN_PORTS && emission[p] == Latest(xs, from, to, p)
  {
    hide Has, Latest;
    assert Covers(xs, from, to);
  }

  /** Each emission folds exactly the latest value of every port since the previous one. */
  lemma EmissionsLatest(xs: seq<Arrival>) returns (cuts: seq<nat>)
    requires InRange(xs)
    ensures Emissions(xs, cuts) && |Run(xs).emitted| == |cuts| - 1
    ensures forall i, p: nat :: 0 <= i < |cuts| - 1 && p < IN_PORTS ==>
              && Has(xs, cuts[i], cuts[i + 1], p) && |Run(xs).emitted[i]| == IN_PORTS
              && Run(xs).emitted[i][p] == Latest(xs, cuts[i], cuts[i + 1], p)
  {
    cuts := RunExplained(xs);
    hide Has, Latest, EmissionOf, Run, Collecting, InRange;
    forall i, p: nat | 0 <= i < |cuts| - 1 && p < IN_PORTS
      ensures Has(xs, cuts[i], cuts[i + 1], p) && |Run(xs).emitted[i]| == IN_PORTS
      ensures Run(xs).emitted[i][p] == Latest(xs, cuts[i], cuts[i + 1], p)
    {
      EmissionLatest(xs, Run(xs).emitted[i], cuts[i], cuts[i + 1], p);
    }
  }

  // ---- Folds ----

  predicate IsMax(v: seq<Data>, i: nat) {
    && i < |v|
    && (forall j :: 0 <= j < |v| ==> v[j].val <= v[i].val)
    && (forall j :: 0 <= j < i ==> v[j].val < v[i].val)
  }

  predicate IsMin(v: seq<Data>, i: nat) {
    && i < |v|
    && (forall j :: 0 <= j < |v| ==> v[i].val <= v[j].val)
    && (forall j :: 0 <= j < i ==> v[i].val < v[j].val)
  }

  /** The first element with the largest value, whole: its time goes with it. */
  method DoMax(v: seq<Data>) returns (d: Data, ghost at: nat)
    requires v != []
    ensures IsMax(v, at) && d == v[at]
    ensures d in v && forall j :: 0 <= j < |v| ==> v[j].val <= d.val
  {
    var best := 0;
    for i := 1 to |v|
      invariant IsMax(v[..i], best)
    {
      if v[best].val < v[i].val {
        best := i;
      }
    }
    assert v[..|v|] == v;
    d, at := v[best], best;
  }

  method DoMin(v: seq<Data>) returns (d: Data, ghost at: nat)
    requires v != []
    ensures IsMin(v, at) && d == v[at]
    ensures d in v && forall j :: 0 <= j < |v| ==> d.val <= v[j].val
  {
    var best := 0;
    for i := 1 to |v|
      invariant IsMin(v[..i], best)
    {
      if v[i].val < v[best].val {
        best := i;
      }
    }
    assert v[..|v|] == v;
    d, at := v[best], best;
  }

  lemma RunSnoc(xs: seq<Arrival>, a: Arrival)
    requires InRange(xs) && a.port < IN_PORTS
    ensures InRange(xs + [a]) && Run(xs + [a]) == Next(Run(xs), a)
  {
    assert (xs + [a])[..|xs|] == xs;
  }

  // ---- The component ----

  class Reduce {
    const fold: seq<Data> -> Data
    var values: seq<Data>
    var relevant: seq<bool>
    ghost var arrivals: seq<Arrival>
    ghost var emitted: seq<seq<Data>>

    ghost predicate Valid()
      reads this
    {
      InRange(arrivals) && Run(arrivals) == State(values, relevant, emitted)
    }

    constructor (fold: seq<Data> -> Data)
      ensures Valid() && arrivals == [] && emitted == [] && this.fold == fold
    {
      this.fold := fold;
      values := [NO_DATA, NO_DATA, NO_DATA];
      relevant := [false, false, false];
      arrivals, emitted := [], [];
    }

    method IsAllRelevant() returns (all: bool)
      ensures all <==> AllRelevant(relevant)
    {
      all := true;
      for p := 0 to |relevant|
        invariant all <==> forall q :: 0 <= q < p ==> relevant[q]
      {
        if !relevant[p] {
          all := false;
        }
      }
    }

    method MakeAllUnrelevant()
      modifies this`relevant
      ensures |relevant| == |old(relevant)| && forall p :: 0 <= p < |relevant| ==> !relevant[p]
    {
      for p := 0 to |relevant|
        invariant |relevant| == |old(relevant)| && forall q :: 0 <= q < p ==> !relevant[q]
      {
        relevant := relevant[p := false];
      }
    }

    /** Takes one input; emits the fold of all values when the barrier is complete. */
    method Process(port: nat, value: Data) returns (output: Option<Output>)
      requires Valid() && port < IN_PORTS
      modifies this
      ensures Valid() && arrivals == old(arrivals) + [Arrival(port, value)]
      ensures output == if emitted == old(emitted) then None else Some(Output(fold(emitted[|emitted| - 1]), [0]))
      ensures emitted == old(emitted) || emitted == old(emitted) + [values]
    {
      hide Run, InRange;
      RunSnoc(arrivals, Arrival(port, value));
      arrivals := arrivals + [Arrival(port, value)];
      values := values[port := value];
      relevant := relevant[port := true];
      var all := IsAllRelevant();
      if all {
        MakeAllUnrelevant();
        assert relevant == [false, false, false];
        emitted := emitted + [values];
        output := Some(Output(fold(values), [0]));
      } else {
        output := None;
      }
    }
  }
}
