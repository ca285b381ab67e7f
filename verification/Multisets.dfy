/** Sums and images over a multiset, and sizes of sets. */
module Multisets {

  /** The sum of a weight over a multiset. */
  ghost function Sum<T(!new)>(w: T -> nat, m: multiset<T>): nat
    decreases |m|
  {
    if m == multiset{} then 0 else
      var x :| x in m;
      w(x) + Sum(w, m - multiset{x})
  }

  lemma Exchange<T>(m: multiset<T>, x: T, y: T)
    requires x in m + multiset{y} && x != y
    ensures m + multiset{y} - multiset{x} == m - multiset{x} + multiset{y}
    ensures m - multiset{x} + multiset{x} == m
    ensures |m - multiset{x}| < |m|
  {
    assert x in m;
    assert m - multiset{x} + multiset{x} == m;
  }

  lemma {:induction false} SumInsert<T(!new)>(w: T -> nat, m: multiset<T>, y: T)
    ensures Sum(w, m + multiset{y}) == Sum(w, m) + w(y)
    decreases |m|
  {
    var all := m + multiset{y};
    assert all != multiset{} by {
      assert y in all;
    }
    var x :| x in all && Sum(w, all) == w(x) + Sum(w, all - multiset{x});
    if x == y {
      assert all - multiset{x} == m;
    } else {
      var rest := m - multiset{x};
      Exchange(m, x, y);
      SumInsert(w, rest, y);
      SumInsert(w, rest, x);
    }
  }

  lemma SumRemove<T(!new)>(w: T -> nat, m: multiset<T>, y: T)
    requires y in m
    ensures Sum(w, m) == Sum(w, m - multiset{y}) + w(y)
  {
    SumInsert(w, m - multiset{y}, y);
    assert m - multiset{y} + multiset{y} == m;
  }

  lemma {:induction false} SumUnion<T(!new)>(w: T -> nat, a: multiset<T>, b: multiset<T>)
    ensures Sum(w, a + b) == Sum(w, a) + Sum(w, b)
    decreases |b|
  {
    if b == multiset{} {
      assert a + b == a;
    } else {
      var y :| y in b;
      var rest := b - multiset{y};
      SumUnion(w, a, rest);
      assert a + b == a + rest + multiset{y};
      SumInsert(w, a + rest, y);
      SumRemove(w, b, y);
    }
  }

  /** The union of the images of a multiset's elements. */
  ghost function Image<T(!new), U>(f: T -> multiset<U>, m: multiset<T>): multiset<U>
    decreases |m|
  {
    if m == multiset{} then multiset{} else
      var x :| x in m;
      f(x) + Image(f, m - multiset{x})
  }

  lemma Regroup<U>(a: multiset<U>, b: multiset<U>, c: multiset<U>)
    ensures a + (b + c) == (b + a) + c
  {
  }

  lemma {:induction false} ImageInsert<T(!new), U>(f: T -> multiset<U>, m: multiset<T>, y: T)
    ensures Image(f, m + multiset{y}) == Image(f, m) + f(y)
    decreases |m|
  {
    var all := m + multiset{y};
    assert all != multiset{} by {
      assert y in all;
    }
    var x :| x in all && Image(f, all) == f(x) + Image(f, all - multiset{x});
    if x == y {
      assert all - multiset{x} == m;
    } else {
      var rest := m - multiset{x};
      Exchange(m, x, y);
      ImageInsert(f, rest, y);
      ImageInsert(f, rest, x);
      Regroup(f(x), Image(f, rest), f(y));
    }
  }

  lemma ImageRemove<T(!new), U>(f: T -> multiset<U>, m: multiset<T>, y: T)
    requires y in m
    ensures Image(f, m) == Image(f, m - multiset{y}) + f(y)
  {
    ImageInsert(f, m - multiset{y}, y);
    assert m - multiset{y} + multiset{y} == m;
  }

  lemma {:induction false} ImageUnion<T(!new), U>(f: T -> multiset<U>, a: multiset<T>, b: multiset<T>)
    ensures Image(f, a + b) == Image(f, a) + Image(f, b)
    decreases |b|
  {
    if b == multiset{} {
      assert a + b == a;
    } else {
      var y :| y in b;
      var rest := b - multiset{y};
      ImageUnion(f, a, rest);
      assert a + b == a + rest + multiset{y};
      ImageInsert(f, a + rest, y);
      ImageRemove(f, b, y);
    }
  }

  lemma ImageOne<T(!new), U>(f: T -> multiset<U>, y: T)
    ensures Image(f, multiset{}) == multiset{}
    ensures Image(f, multiset{y}) == f(y)
  {
    ImageInsert(f, multiset{}, y);
    assert multiset{} + multiset{y} == multiset{y};
  }

  /** Whatever is in an image comes from some element. */
  lemma {:induction false} ImageMember<T(!new), U>(f: T -> multiset<U>, m: multiset<T>, u: U)
    requires u in Image(f, m)
    ensures exists y :: y in m && u in f(y)
    decreases |m|
  {
    var x :| x in m && Image(f, m) == f(x) + Image(f, m - multiset{x});
    if u !in f(x) {
      ImageMember(f, m - multiset{x}, u);
    }
  }

  lemma SumOne<T(!new)>(w: T -> nat, y: T)
    ensures Sum(w, multiset{}) == 0
    ensures Sum(w, multiset{y}) == w(y)
  {
    SumInsert(w, multiset{}, y);
    assert multiset{} + multiset{y} == multiset{y};
  }

  /** A positive weight vanishes only on the empty multiset. */
  lemma SumPositive<T(!new)>(w: T -> nat, m: multiset<T>)
    requires forall x :: w(x) > 0
    ensures Sum(w, m) == 0 <==> m == multiset{}
  {
    if m != multiset{} {
      var y :| y in m;
      SumRemove(w, m, y);
    }
  }

  lemma OneMore(k: nat, n: nat)
    requires n > 0
    ensures k * (n - 1) + k == k * n
  {
  }

  lemma {:induction false} SumConstant<T(!new)>(w: T -> nat, m: multiset<T>, k: nat)
    requires forall x :: x in m ==> w(x) == k
    ensures Sum(w, m) == k * |m|
    decreases |m|
  {
    if m != multiset{} {
      var y :| y in m;
      SumRemove(w, m, y);
      SumConstant(w, m - multiset{y}, k);
      OneMore(k, |m|);
    }
  }

  /** Replacing a part of one summand replaces it in the sum. */
  lemma ReplaceLeft<T>(a: multiset<T>, x: multiset<T>, y: multiset<T>, b: multiset<T>)
    requires x <= a
    ensures x <= a + b && (a - x + y) + b == (a + b) - x + y
  {
  }

  lemma Append<T>(l: multiset<T>, r: multiset<T>, x: multiset<T>)
    ensures (l + r) + x == (l + x) + r && (l + r) + x == l + (r + x)
  {
  }

  lemma ReplaceRight<T>(a: multiset<T>, b: multiset<T>, x: multiset<T>)
    ensures (a + b) - b + x == a + x
  {
  }

  lemma {:induction false} SubsetSize<T>(a: set<T>, b: set<T>)
    requires a <= b
    ensures |a| <= |b|
  {
    if a != {} {
      var x :| x in a;
      SubsetSize(a - {x}, b - {x});
    }
  }
}
