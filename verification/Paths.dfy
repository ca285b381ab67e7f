/** Paths through an acyclic application graph: how many there are, and how they
    bound what an input or an emission can still lead to. */
module Paths {
  import opened Configuration
  import opened Runtime
  import opened Multisets
  import C = Central

  // ---- Cycles and ranks ----

  /** There is a path of a given length. */
  ghost predicate Path(g: seq<Connection>, a: Name, b: Name, n: nat)
    decreases n
  {
    if n == 0 then a == b else exists c :: c in g && c.source == a && Path(g, c.dest, b, n - 1)
  }

  ghost predicate Acyclic(g: seq<Connection>) {
    forall a, n: nat :: n > 0 ==> !Path(g, a, a, n)
  }

  ghost predicate Reaches(g: seq<Connection>, a: Name, b: Name) {
    exists n: nat :: Path(g, a, b, n)
  }

  ghost function Ends(g: seq<Connection>): set<Name> {
    (set c | c in g :: c.source) + (set c | c in g :: c.dest)
  }

  ghost function Reachable(g: seq<Connection>, a: Name): set<Name> {
    set x | x in Ends(g) && Reaches(g, a, x)
  }

  /** The rank of a component: how many ends of connections it reaches. */
  ghost function Rank(g: seq<Connection>, a: Name): nat {
    |Reachable(g, a)|
  }

  lemma SmallerSet(a: set<Name>, b: set<Name>, x: Name)
    requires a <= b && x in b && x !in a
    ensures |a| < |b|
  {
    assert a <= b - {x};
    SubsetSize(a, b - {x});
  }

  /** Following a connection lowers the rank. */
  lemma RankDescends(g: seq<Connection>, c: Connection)
    requires Acyclic(g) && c in g
    ensures Rank(g, c.dest) < Rank(g, c.source)
  {
    forall x | x in Reachable(g, c.dest)
      ensures x in Reachable(g, c.source)
    {
      var n: nat :| Path(g, c.dest, x, n);
      assert Path(g, c.source, x, n + 1);
    }
    assert Path(g, c.source, c.source, 0);
    assert c.source in Reachable(g, c.source);
    if c.source in Reachable(g, c.dest) {
      var n: nat :| Path(g, c.dest, c.source, n);
      assert Path(g, c.source, c.source, n + 1);
      assert false;
    }
    SmallerSet(Reachable(g, c.dest), Reachable(g, c.source), c.source);
  }

  // ---- Counting paths ----

  /** How many directed paths lead on from a component by ports 0 and 1, the empty
      one included: as many as an input of the component can cause to be processed. */
  ghost function PathCount(g: seq<Connection>, comp: Name): nat
    requires Acyclic(g)
    decreases Rank(g, comp), |g| + 1
  {
    1 + PortPaths(g, comp, 0, |g|) + PortPaths(g, comp, 1, |g|)
  }

  /** How many of the paths leave by one port, along one of the first connections. */
  ghost function PortPaths(g: seq<Connection>, comp: Name, port: Port, n: nat): nat
    requires Acyclic(g) && n <= |g|
    decreases Rank(g, comp), n
  {
    if n == 0 then 0 else
      var c := g[n - 1];
      PortPaths(g, comp, port, n - 1) +
      if c.source == comp && c.sourceOut == port then
        RankDescends(g, c);
        PathCount(g, c.dest)
      else 0
  }

  predicate Leaves(c: Connection, comp: Name) {
    c.source == comp && (c.sourceOut == 0 || c.sourceOut == 1)
  }

  /** A path, as the positions of its connections in the configuration. */
  predicate IsPath(g: seq<Connection>, comp: Name, p: seq<nat>)
    decreases |p|
  {
    p == [] || (p[0] < |g| && Leaves(g[p[0]], comp) && IsPath(g, g[p[0]].dest, p[1..]))
  }

  /** The paths whose first connection is one of the first ones. */
  ghost function PathsFirst(g: seq<Connection>, comp: Name, n: nat): set<seq<nat>>
    requires Acyclic(g) && n <= |g|
    decreases Rank(g, comp), n
  {
    if n == 0 then {[]} else
      PathsFirst(g, comp, n - 1) +
      if Leaves(g[n - 1], comp) then
        RankDescends(g, g[n - 1]);
        Prefixed(n - 1, PathsFirst(g, g[n - 1].dest, |g|))
      else {}
  }

  ghost function Prefixed(i: nat, ps: set<seq<nat>>): set<seq<nat>> {
    set p | p in ps :: [i] + p
  }

  lemma PrefixedMember(i: nat, ps: set<seq<nat>>, p: seq<nat>)
    ensures p in Prefixed(i, ps) <==> p != [] && p[0] == i && p[1..] in ps
  {
    if p != [] && p[0] == i && p[1..] in ps {
      assert p == [i] + p[1..];
    }
  }

  lemma {:induction false} PrefixedSize(i: nat, ps: set<seq<nat>>)
    ensures |Prefixed(i, ps)| == |ps|
  {
    if ps == {} {
      assert Prefixed(i, ps) == {};
    } else {
      var x :| x in ps;
      PrefixedSize(i, ps - {x});
      forall p
        ensures p in Prefixed(i, ps) <==> p in Prefixed(i, ps - {x}) + {[i] + x}
      {
        PrefixedMember(i, ps, p);
        PrefixedMember(i, ps - {x}, p);
        assert p == [i] + x <==> p != [] && p[0] == i && p[1..] == x;
      }
      assert Prefixed(i, ps) == Prefixed(i, ps - {x}) + {[i] + x};
      PrefixedMember(i, ps - {x}, [i] + x);
    }
  }

  lemma PathsFirstMember(g: seq<Connection>, comp: Name, n: nat, p: seq<nat>)
    requires Acyclic(g) && 0 < n <= |g|
    ensures p in PathsFirst(g, comp, n) <==>
              || p in PathsFirst(g, comp, n - 1)
              || (Leaves(g[n - 1], comp) && p != [] && p[0] == n - 1 && p[1..] in PathsFirst(g, g[n - 1].dest, |g|))
  {
    hide Acyclic, Prefixed, Leaves, Rank;
    PrefixedMember(n - 1, PathsFirst(g, g[n - 1].dest, |g|), p);
  }

  lemma NoPathsFirst(g: seq<Connection>, comp: Name, p: seq<nat>)
    requires Acyclic(g)
    ensures p in PathsFirst(g, comp, 0) <==> p == []
  {
  }

  lemma {:induction false} PathsFirstExact(g: seq<Connection>, comp: Name, n: nat, p: seq<nat>)
    requires Acyclic(g) && n <= |g|
    ensures p in PathsFirst(g, comp, n) <==> IsPath(g, comp, p) && (p == [] || p[0] < n)
    decreases |p|, n
  {
    hide Acyclic, PathsFirst, Leaves;
    if n == 0 {
      NoPathsFirst(g, comp, p);
    } else {
      PathsFirstExact(g, comp, n - 1, p);
      PathsFirstMember(g, comp, n, p);
      if p != [] {
        PathsFirstExact(g, g[n - 1].dest, |g|, p[1..]);
        PathInRange(g, g[n - 1].dest, p[1..]);
      }
    }
  }

  lemma PathInRange(g: seq<Connection>, comp: Name, p: seq<nat>)
    ensures IsPath(g, comp, p) ==> p == [] || p[0] < |g|
  {
  }

  lemma FirstsDiffer(g: seq<Connection>, comp: Name, n: nat, more: set<seq<nat>>)
    requires Acyclic(g) && n <= |g|
    ensures PathsFirst(g, comp, n) !! Prefixed(n, more)
  {
    hide Acyclic, PathsFirst, Prefixed;
    forall p | p in PathsFirst(g, comp, n)
      ensures p !in Prefixed(n, more)
    {
      PrefixedMember(n, more, p);
      PathsFirstExact(g, comp, n, p);
    }
  }

  lemma OneMoreFirst(g: seq<Connection>, comp: Name, n: nat)
    requires Acyclic(g) && 0 < n <= |g|
    ensures |PathsFirst(g, comp, n)|
         == |PathsFirst(g, comp, n - 1)| + if Leaves(g[n - 1], comp) then |PathsFirst(g, g[n - 1].dest, |g|)| else 0
  {
    hide Acyclic, Prefixed, Leaves, Rank;
    if Leaves(g[n - 1], comp) {
      FirstsDiffer(g, comp, n - 1, PathsFirst(g, g[n - 1].dest, |g|));
      PrefixedSize(n - 1, PathsFirst(g, g[n - 1].dest, |g|));
      UnionSize(PathsFirst(g, comp, n - 1), Prefixed(n - 1, PathsFirst(g, g[n - 1].dest, |g|)));
    } else {
      UnionSize(PathsFirst(g, comp, n - 1), {});
    }
  }

  lemma UnionSize(a: set<seq<nat>>, b: set<seq<nat>>)
    requires a !! b
    ensures |a + b| == |a| + |b|
  {
  }

  lemma OneMorePort(g: seq<Connection>, comp: Name, n: nat)
    requires Acyclic(g) && 0 < n <= |g|
    ensures PortPaths(g, comp, 0, n) + PortPaths(g, comp, 1, n)
         == PortPaths(g, comp, 0, n - 1) + PortPaths(g, comp, 1, n - 1)
            + if Leaves(g[n - 1], comp) then PathCount(g, g[n - 1].dest) else 0
  {
    hide Acyclic, PathCount;
  }

  lemma {:induction false} PathsFirstCount(g: seq<Connection>, comp: Name, n: nat)
    requires Acyclic(g) && n <= |g|
    ensures |PathsFirst(g, comp, n)| == 1 + PortPaths(g, comp, 0, n) + PortPaths(g, comp, 1, n)
    decreases Rank(g, comp), n
  {
    if n > 0 {
      hide Acyclic, PathsFirst, PortPaths, Rank;
      PathsFirstCount(g, comp, n - 1);
      OneMoreFirst(g, comp, n);
      OneMorePort(g, comp, n);
      if Leaves(g[n - 1], comp) {
        RankDescends(g, g[n - 1]);
        PathsFirstCount(g, g[n - 1].dest, |g|);
      }
    }
  }

  /** The count is that of the paths there are. */
  lemma PathCountCounts(g: seq<Connection>, comp: Name)
    requires Acyclic(g)
    ensures PathCount(g, comp) == |PathsFirst(g, comp, |g|)|
    ensures forall p :: p in PathsFirst(g, comp, |g|) <==> IsPath(g, comp, p)
  {
    PathsFirstCount(g, comp, |g|);
    forall p
      ensures p in PathsFirst(g, comp, |g|) <==> IsPath(g, comp, p)
    {
      PathsFirstExact(g, comp, |g|, p);
    }
  }

  // ---- What work can lead to ----

  ghost function SendsPaths(g: seq<Connection>, sends: seq<Send>, comp: Name): nat
    requires Acyclic(g)
  {
    if sends == [] then 0 else
      SendsPaths(g, sends[..|sends| - 1], comp) + PortPaths(g, comp, sends[|sends| - 1].port, |g|)
  }

  /** How many inputs can be processed on account of a piece of work. */
  ghost function WorkPaths(g: seq<Connection>, w: C.Work): nat
    requires Acyclic(g)
  {
    match w
    case Input(comp, _, _) => PathCount(g, comp)
    case Emit(comp, outputs) => SendsPaths(g, Sends(outputs), comp)
    case Turn(_) => 0
  }

  /** How many steps can be taken on account of it: for each input processed there
      is its step and its emission's, and for all but the first an arrival. */
  ghost function WorkWeight(g: seq<Connection>, w: C.Work): nat
    requires Acyclic(g)
  {
    match w
    case Input(comp, _, _) => 3 * PathCount(g, comp) - 1
    case Emit(comp, outputs) => 3 * SendsPaths(g, Sends(outputs), comp) + 1
    case Turn(_) => 0
  }

  ghost function PathsIn(g: seq<Connection>): C.Work -> nat {
    w => if Acyclic(g) then WorkPaths(g, w) else 0
  }

  ghost function WeightIn(g: seq<Connection>): C.Work -> nat {
    w => if Acyclic(g) then WorkWeight(g, w) else 0
  }

  ghost function PathSum(g: seq<Connection>, w: multiset<C.Work>): nat {
    Sum(PathsIn(g), w)
  }

  ghost function Weight(g: seq<Connection>, w: multiset<C.Work>): nat {
    Sum(WeightIn(g), w)
  }

  lemma SumsUnion(g: seq<Connection>, a: multiset<C.Work>, b: multiset<C.Work>)
    ensures PathSum(g, a + b) == PathSum(g, a) + PathSum(g, b)
    ensures Weight(g, a + b) == Weight(g, a) + Weight(g, b)
  {
    SumUnion(PathsIn(g), a, b);
    SumUnion(WeightIn(g), a, b);
  }

  lemma SumsOne(g: seq<Connection>, w: C.Work)
    requires Acyclic(g)
    ensures PathSum(g, multiset{w}) == WorkPaths(g, w) && Weight(g, multiset{w}) == WorkWeight(g, w)
    ensures PathSum(g, multiset{}) == 0 && Weight(g, multiset{}) == 0
  {
    SumOne(PathsIn(g), w);
    SumOne(WeightIn(g), w);
  }

  lemma NoneAlong(payload: Data)
    ensures C.Along([], payload) == multiset{}
  {
  }

  /** What a port delivers accounts for the port's paths. */
  lemma {:induction false} AlongPaths(g: seq<Connection>, comp: Name, port: Port, payload: Data, n: nat)
    requires Acyclic(g) && n <= |g|
    ensures var w := C.Along(OutgoingAt(g[..n], comp, port), payload);
            PathSum(g, w) == PortPaths(g, comp, port, n) && Weight(g, w) + |w| == 3 * PortPaths(g, comp, port, n)
  {
    hide Acyclic, PathSum, Weight, PathCount, C.Along;
    if n == 0 {
      SumsOne(g, C.Turn(comp));
      NoneAlong(payload);
    } else {
      AlongPaths(g, comp, port, payload, n - 1);
      var c := g[n - 1];
      assert g[..n][..n - 1] == g[..n - 1];
      var mine := OutgoingAt(g[..n - 1], comp, port);
      if c.source == comp && c.sourceOut == port {
        C.AlongSnoc(mine, c, payload);
        SumsUnion(g, C.Along(mine, payload), multiset{C.Input(c.dest, c.destIn, payload)});
        SumsOne(g, C.Input(c.dest, c.destIn, payload));
      }
    }
  }

  lemma {:induction false} DeliveredPaths(g: seq<Connection>, comp: Name, sends: seq<Send>)
    requires Acyclic(g)
    ensures var w := C.Delivered(g, comp, sends);
            PathSum(g, w) == SendsPaths(g, sends, comp) && Weight(g, w) + |w| == 3 * SendsPaths(g, sends, comp)
  {
    hide Acyclic, PathSum, Weight;
    if sends == [] {
      SumsOne(g, C.Turn(comp));
    } else {
      var init, s := sends[..|sends| - 1], sends[|sends| - 1];
      DeliveredPaths(g, comp, init);
      AlongPaths(g, comp, s.port, s.payload, |g|);
      assert g[..|g|] == g;
      SumsUnion(g, C.Delivered(g, comp, init), C.Along(OutgoingAt(g, comp, s.port), s.payload));
    }
  }

  /** A component's emission has fewer paths before it than the input that caused it. */
  lemma EmissionPaths(g: seq<Connection>, comp: Name, kind: Kind, port: Port, payload: Data)
    requires Acyclic(g)
    ensures SendsPaths(g, Sends(Emission(kind, port, payload)), comp) < PathCount(g, comp)
  {
    var out := Emission(kind, port, payload);
    hide Acyclic;
    if out != [] {
      var o := out[0];
      assert out == [o] && out[..0] == [];
      assert Sends(out) == [] + SendsOn(o.payload, o.ports);
      if |o.ports| == 2 {
        assert Sends(out) == [Send(0, o.payload), Send(1, o.payload)];
        TwoSends(g, comp, Send(0, o.payload), Send(1, o.payload));
      } else {
        assert Sends(out) == [Send(0, o.payload)];
        OneSend(g, comp, Send(0, o.payload));
      }
    }
  }

  lemma OneSend(g: seq<Connection>, comp: Name, s: Send)
    requires Acyclic(g)
    ensures SendsPaths(g, [s], comp) == PortPaths(g, comp, s.port, |g|)
  {
    assert [s][..0] == [];
  }

  lemma TwoSends(g: seq<Connection>, comp: Name, s: Send, t: Send)
    requires Acyclic(g)
    ensures SendsPaths(g, [s, t], comp) == PortPaths(g, comp, s.port, |g|) + PortPaths(g, comp, t.port, |g|)
  {
    assert [s, t][..1] == [s];
    OneSend(g, comp, s);
  }

  /** Generating and starting aside, an action weighs more than what it adds and all
      the arrivals that takes, and every input consumed is one path fewer. */
  lemma ActionDescends(config: Config, a: C.Action)
    requires Acyclic(config.connections) && (a.Consume? || a.Distribute?)
    ensures var g := config.connections;
            && Weight(g, C.Added(config, a)) + C.Spread(config, a) + 1 <= Weight(g, C.Consumed(a))
            && PathSum(g, C.Added(config, a)) + (if a.Consume? then 1 else 0) <= PathSum(g, C.Consumed(a))
  {
    hide Acyclic, PathSum, Weight, PathCount, SendsPaths;
    var g := config.connections;
    if a.Consume? {
      SumsOne(g, C.Input(a.comp, a.port, a.payload));
      EmissionPaths(g, a.comp, a.kind, a.port, a.payload);
      SumsOne(g, C.Emit(a.comp, Emission(a.kind, a.port, a.payload)));
    } else {
      SumsOne(g, C.Emit(a.comp, a.outputs));
      DeliveredPaths(g, a.comp, Sends(a.outputs));
    }
  }

  /** Replacing what an action consumes by what it adds, within other work. */
  lemma DescendsWithin(config: Config, w: multiset<C.Work>, a: C.Action)
    requires Acyclic(config.connections) && (a.Consume? || a.Distribute?) && C.Consumed(a) <= w
    ensures var g, w' := config.connections, w - C.Consumed(a) + C.Added(config, a);
            && Weight(g, w') + C.Spread(config, a) + 1 <= Weight(g, w)
            && PathSum(g, w') + (if a.Consume? then 1 else 0) <= PathSum(g, w)
  {
    hide Acyclic, PathSum, Weight, C.Added, C.Consumed, C.Spread;
    var g, rest := config.connections, w - C.Consumed(a);
    ActionDescends(config, a);
    assert rest + C.Consumed(a) == w;
    SumsUnion(g, rest, C.Consumed(a));
    SumsUnion(g, rest, C.Added(config, a));
  }
}
