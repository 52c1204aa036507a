/** The adjusted Rand index over exact reals, against counting pairs of equally labelled items. */
module Ari {
  /** A counter lists its keys in order of first appearance, each with its count. */
  datatype Entry<T> = Entry(key: T, count: nat)

  function Bump<T(==)>(c: seq<Entry<T>>, x: T): seq<Entry<T>> {
    if c == [] then [Entry(x, 1)]
    else if c[0].key == x then [Entry(x, c[0].count + 1)] + c[1..]
    else [c[0]] + Bump(c[1..], x)
  }

  function Counter<T(==)>(s: seq<T>): seq<Entry<T>> {
    if s == [] then [] else Bump(Counter(s[..|s| - 1]), s[|s| - 1])
  }

  /** The count kept for `x`; a key not present counts zero. */
  function CountFor<T(==)>(c: seq<Entry<T>>, x: T): nat {
    if c == [] then 0 else if c[0].key == x then c[0].count else CountFor(c[1..], x)
  }

  /** Two of `k` items can be chosen this many ways. */
  function C2(k: nat): nat {
    k * (k - 1) / 2
  }

  function SumC2<T>(c: seq<Entry<T>>): nat {
    if c == [] then 0 else C2(c[0].count) + SumC2(c[1..])
  }

  function Zip<T, U>(a: seq<T>, b: seq<U>): seq<(T, U)> {
    if a == [] || b == [] then [] else [(a[0], b[0])] + Zip(a[1..], b[1..])
  }

  /** The chance correction of an index, from the three pair sums and the number of pairs. */
  function Adjusted(sumIj: nat, sumA: nat, sumB: nat, total: nat): real {
    var expected := if total != 0 then sumA as real * sumB as real / total as real else 0.0;
    var maxIndex := (sumA + sumB) as real / 2.0;
    if maxIndex == expected then 1.0 else (sumIj as real - expected) / (maxIndex - expected)
  }

  function Ari<T(==), U(==)>(a: seq<T>, b: seq<U>): real {
    if |a| < 2 then 1.0
    else Adjusted(SumC2(Counter(Zip(a, b))), SumC2(Counter(a)), SumC2(Counter(b)), C2(|a|))
  }

  // ---- the reference: pairs of items given the same label ------------------

  ghost function Together<T>(s: seq<T>): set<(nat, nat)> {
    set i: nat, j: nat | i < j < |s| && s[i] == s[j] :: (i, j)
  }

  ghost function AllPairs(n: nat): set<(nat, nat)> {
    set i: nat, j: nat | i < j < n :: (i, j)
  }

  /** The two lists group the items alike. */
  ghost predicate SamePartition<T, U>(a: seq<T>, b: seq<U>) {
    |a| == |b| && forall i, j :: 0 <= i < |a| && 0 <= j < |a| ==> (a[i] == a[j] <==> b[i] == b[j])
  }

  ghost function Equal<T>(s: seq<T>, x: T): set<nat> {
    set i: nat | i < |s| && s[i] == x
  }

  lemma C2Step(k: nat)
    ensures C2(k + 1) == C2(k) + k
  {
    assert (k + 1) * k == k * (k - 1) + 2 * k;
  }

  lemma {:induction false} BumpCounts<T>(c: seq<Entry<T>>, x: T, y: T)
    ensures CountFor(Bump(c, x), y) == CountFor(c, y) + if x == y then 1 else 0
  {
    if c != [] && c[0].key != x {
      BumpCounts(c[1..], x, y);
    }
  }

  lemma {:induction false} BumpAddsPairs<T>(c: seq<Entry<T>>, x: T)
    ensures SumC2(Bump(c, x)) == SumC2(c) + CountFor(c, x)
  {
    if c == [] {
      assert SumC2([Entry(x, 1)]) == C2(1) + SumC2<T>([]);
    } else if c[0].key == x {
      C2Step(c[0].count);
      assert Bump(c, x)[1..] == c[1..];
    } else {
      BumpAddsPairs(c[1..], x);
      assert Bump(c, x)[1..] == Bump(c[1..], x);
    }
  }

  lemma {:induction false} CounterCounts<T>(s: seq<T>, x: T)
    ensures CountFor(Counter(s), x) == |Equal(s, x)|
  {
    if s != [] {
      var n := |s| - 1;
      var front := s[..n];
      CounterCounts(front, x);
      BumpCounts(Counter(front), s[n], x);
      if s[n] == x {
        assert Equal(s, x) == Equal(front, x) + {n};
      } else {
        assert Equal(s, x) == Equal(front, x);
      }
    }
  }

  ghost function EndingAt(starts: set<nat>, n: nat): set<(nat, nat)> {
    set i | i in starts :: (i, n)
  }

  lemma {:induction false} EndingAtCount(starts: set<nat>, n: nat)
    ensures |EndingAt(starts, n)| == |starts|
  {
    if starts == {} {
      assert EndingAt(starts, n) == {};
    } else {
      var i :| i in starts;
      EndingAtCount(starts - {i}, n);
      assert EndingAt(starts, n) == EndingAt(starts - {i}, n) + {(i, n)};
    }
  }

  /** The last item pairs with the earlier ones it equals. */
  lemma LastPairs<T>(s: seq<T>)
    requires s != []
    ensures |Together(s)| == |Together(s[..|s| - 1])| + |Equal(s[..|s| - 1], s[|s| - 1])|
  {
    var n := |s| - 1;
    var front := s[..n];
    var added := EndingAt(Equal(front, s[n]), n);
    EndingAtCount(Equal(front, s[n]), n);
    assert Together(s) == Together(front) + added;
    assert Together(front) !! added;
  }

  /** What the counters add up is the number of pairs of equally labelled items. */
  lemma {:induction false} CountersCountPairs<T>(s: seq<T>)
    ensures SumC2(Counter(s)) == |Together(s)|
  {
    if s == [] {
      assert Together(s) == {};
    } else {
      var front, last := s[..|s| - 1], s[|s| - 1];
      CountersCountPairs(front);
      BumpAddsPairs(Counter(front), last);
      CounterCounts(front, last);
      LastPairs(s);
    }
  }

  ghost function Below(m: nat): (r: set<nat>)
    ensures |r| == m && forall i :: i in r <==> 0 <= i < m
  {
    if m == 0 then {} else Below(m - 1) + {m - 1}
  }

  lemma AllPairsStep(m: nat)
    ensures |AllPairs(m + 1)| == |AllPairs(m)| + m
  {
    var added := EndingAt(Below(m), m);
    EndingAtCount(Below(m), m);
    assert AllPairs(m + 1) == AllPairs(m) + added;
    assert AllPairs(m) !! added;
  }

  lemma {:induction false} AllPairsCount(n: nat)
    ensures |AllPairs(n)| == C2(n)
  {
    if n == 0 {
      assert AllPairs(0) == {};
    } else {
      AllPairsCount(n - 1);
      C2Step(n - 1);
      AllPairsStep(n - 1);
    }
  }

  lemma {:induction false} ZipAt<T, U>(a: seq<T>, b: seq<U>)
    requires |a| == |b|
    ensures |Zip(a, b)| == |a| && forall i :: 0 <= i < |a| ==> Zip(a, b)[i] == (a[i], b[i])
  {
    if a != [] {
      ZipAt(a[1..], b[1..]);
    }
  }

  /** Items share a joint label exactly when both lists put them together. */
  lemma JointIsBoth<T, U>(a: seq<T>, b: seq<U>)
    requires |a| == |b|
    ensures Together(Zip(a, b)) == Together(a) * Together(b)
  {
    ZipAt(a, b);
  }

  lemma SamePartitionIsSamePairs<T, U>(a: seq<T>, b: seq<U>)
    requires |a| == |b|
    ensures SamePartition(a, b) <==> Together(a) == Together(b)
  {
    if Together(a) == Together(b) {
      forall i, j | 0 <= i < |a| && 0 <= j < |a| ensures a[i] == a[j] <==> b[i] == b[j] {
        var lo: nat, hi: nat := if i < j then i else j, if i < j then j else i;
        assert lo < hi ==> ((lo, hi) in Together(a) <==> a[lo] == a[hi]);
        assert lo < hi ==> ((lo, hi) in Together(b) <==> b[lo] == b[hi]);
      }
    }
  }

  // ---- the index as a function of the pair counts --------------------------

  lemma AriOfPairs<T, U>(a: seq<T>, b: seq<U>)
    requires |a| == |b| >= 2
    ensures C2(|a|) > 0
    ensures Ari(a, b) == Adjusted(|Together(a) * Together(b)|, |Together(a)|, |Together(b)|, C2(|a|))
  {
    C2Positive(|a|);
    JointIsBoth(a, b);
    CountersCountPairs(a);
    CountersCountPairs(b);
    CountersCountPairs(Zip(a, b));
  }

  lemma C2Positive(k: nat)
    requires k >= 2
    ensures C2(k) > 0
  {
    C2Step(k - 1);
  }

  /** The expected index never exceeds the largest one, and meets it only on the two trivial partitions. */
  lemma ExpectedBelowMax(x: real, y: real, t: real)
    requires 0.0 <= x <= t && 0.0 <= y <= t && t > 0.0
    ensures x * y / t <= (x + y) / 2.0
    ensures x * y / t == (x + y) / 2.0 <==> x == y && (x == 0.0 || x == t)
  {
    var e, m := x * y / t, (x + y) / 2.0;
    var u, v := x * (t - y), y * (t - x);
    assert e * t == x * y;
    assert 2.0 * (m * t) == x * t + y * t;
    assert u == x * t - x * y && v == y * t - y * x;
    Product(x, t - y);
    Product(y, t - x);
    Cancel(e, m, t);
    Cancel(m, e, t);
    assert e == m <==> u == 0.0 && v == 0.0;
  }

  lemma Product(p: real, q: real)
    ensures p * q == 0.0 <==> p == 0.0 || q == 0.0
    ensures p >= 0.0 && q >= 0.0 ==> p * q >= 0.0
  {
    if p * q == 0.0 && q != 0.0 {
      assert p == p * q / q;
    }
  }

  lemma Cancel(p: real, q: real, t: real)
    requires t > 0.0
    ensures p * t <= q * t <==> p <= q
  {
    assert (q - p) * t == q * t - p * t;
  }

  lemma QuotientBelowOne(p: real, q: real)
    requires p <= q && q > 0.0
    ensures p / q <= 1.0 && (p / q == 1.0 <==> p == q)
  {
    assert p / q * q == p;
  }

  /** Sets of one size bound, equal exactly when their overlap is as large as their average. */
  lemma OverlapBelowAverage<T>(a: set<T>, b: set<T>)
    ensures 2 * |a * b| <= |a| + |b|
    ensures 2 * |a * b| == |a| + |b| <==> a == b
  {
    Subset(a * b, a);
    Subset(a * b, b);
    assert a == b ==> a * b == a;
  }

  lemma {:induction false} Subset<T>(p: set<T>, q: set<T>)
    requires p <= q
    ensures |p| <= |q| && (|p| == |q| <==> p == q)
  {
    assert q == p + (q - p);
    assert p == q <==> q - p == {};
  }

  /** The two trivial partitions: everything apart, or everything together. */
  ghost predicate Degenerate(sumA: nat, sumB: nat, total: nat) {
    sumA == sumB && (sumA == 0 || sumA == total)
  }

  lemma AdjustedBelowOne(both: nat, x: nat, y: nat, t: nat)
    requires t > 0 && x <= t && y <= t && 2 * both <= x + y
    ensures Adjusted(both, x, y, t) <= 1.0
    ensures Adjusted(both, x, y, t) == 1.0 <==> Degenerate(x, y, t) || 2 * both == x + y
  {
    var e := x as real * y as real / t as real;
    var m := (x + y) as real / 2.0;
    ExpectedBelowMax(x as real, y as real, t as real);
    assert m == e <==> Degenerate(x, y, t);
    if m != e {
      QuotientBelowOne(both as real - e, m - e);
    }
  }

  /** At most 1, and 1 exactly when the two lists are the same partition, the degenerate branches included. */
  lemma OneIffSamePartition<T, U>(a: seq<T>, b: seq<U>)
    requires |a| == |b|
    ensures Ari(a, b) <= 1.0
    ensures Ari(a, b) == 1.0 <==> SamePartition(a, b)
  {
    if |a| >= 2 {
      var p, q, all := Together(a), Together(b), AllPairs(|a|);
      AriOfPairs(a, b);
      SamePartitionIsSamePairs(a, b);
      OverlapBelowAverage(p, q);
      AllPairsCount(|a|);
      Subset(p, all);
      Subset(q, all);
      AdjustedBelowOne(|p * q|, |p|, |q|, |all|);
    }
  }

  lemma Symmetric<T, U>(a: seq<T>, b: seq<U>)
    requires |a| == |b|
    ensures Ari(a, b) == Ari(b, a)
  {
    if |a| >= 2 {
      AriOfPairs(a, b);
      AriOfPairs(b, a);
      assert Together(a) * Together(b) == Together(b) * Together(a);
    }
  }

  /** Only the partitions matter: names of labels on either side do not. */
  lemma OnlyPartitionsMatter<T, U, V, W>(a: seq<T>, b: seq<U>, c: seq<V>, d: seq<W>)
    requires |a| == |b| && SamePartition(a, c) && SamePartition(b, d)
    ensures Ari(a, b) == Ari(c, d)
  {
    if |a| >= 2 {
      AriOfPairs(a, b);
      AriOfPairs(c, d);
      SamePartitionIsSamePairs(a, c);
      SamePartitionIsSamePairs(b, d);
    }
  }

  ghost predicate InjectiveOn<T, U>(f: T -> U, s: seq<T>) {
    forall i, j :: 0 <= i < |s| && 0 <= j < |s| && f(s[i]) == f(s[j]) ==> s[i] == s[j]
  }

  function Relabel<T, U>(f: T -> U, s: seq<T>): seq<U> {
    seq(|s|, i requires 0 <= i < |s| => f(s[i]))
  }

  lemma RelabellingIsInvisible<T, U, V, W>(a: seq<T>, b: seq<U>, f: T -> V, g: U -> W)
    requires |a| == |b| && InjectiveOn(f, a) && InjectiveOn(g, b)
    ensures Ari(Relabel(f, a), Relabel(g, b)) == Ari(a, b)
  {
    assert SamePartition(a, Relabel(f, a));
    assert SamePartition(b, Relabel(g, b));
    OnlyPartitionsMatter(a, b, Relabel(f, a), Relabel(g, b));
  }

  lemma AdjustedZero(both: nat, x: nat, y: nat, t: nat)
    requires 0 < t && x <= t && y <= t && !Degenerate(x, y, t)
    requires (x == 0 && both == 0) || (x == t && both == y)
    ensures Adjusted(both, x, y, t) == 0.0
  {
    var e := x as real * y as real / t as real;
    ExpectedBelowMax(x as real, y as real, t as real);
    assert e == both as real by {
      if x == t {
        assert e * t as real == y as real * t as real;
        Cancel(e, y as real, t as real);
        Cancel(y as real, e, t as real);
      } else {
        assert x as real * y as real == 0.0;
      }
    }
    var d := (x + y) as real / 2.0 - e;
    assert d != 0.0;
    assert Adjusted(both, x, y, t) == 0.0 / d;
  }

  /** A list that puts everything together, or everything apart, agrees with a different one only by chance. */
  lemma TrivialPartitionScoresZero<T, U>(a: seq<T>, b: seq<U>)
    requires |a| == |b| && !SamePartition(a, b)
    requires Together(a) == {} || Together(a) == AllPairs(|a|)
    ensures Ari(a, b) == 0.0
  {
    var p, q, all := Together(a), Together(b), AllPairs(|a|);
    SamePartitionIsSamePairs(a, b);
    AriOfPairs(a, b);
    AllPairsCount(|a|);
    Subset(p, all);
    Subset(q, all);
    Subset(p * q, p);
    Subset(p * q, q);
    if p == {} {
      assert p * q == {};
    } else {
      assert p * q == q;
    }
    AdjustedZero(|p * q|, |p|, |q|, |all|);
  }

  // ---- the textbook form ---------------------------------------------------

  /** How many pairs of items both lists put together, only `a` does, only `b` does, and neither does. */
  datatype Pairs = Pairs(both: nat, onlyA: nat, onlyB: nat, neither: nat)

  ghost function PairsOf<T, U>(a: seq<T>, b: seq<U>): Pairs
    requires |a| == |b|
  {
    var p, q, all := Together(a), Together(b), AllPairs(|a|);
    Pairs(|p * q|, |p - q|, |q - p|, |all - (p + q)|)
  }

  lemma PairsAddUp<T, U>(a: seq<T>, b: seq<U>)
    requires |a| == |b|
    ensures var n := PairsOf(a, b);
            && |Together(a)| == n.both + n.onlyA && |Together(b)| == n.both + n.onlyB
            && C2(|a|) == n.both + n.onlyA + n.onlyB + n.neither
  {
    var p, q, all := Together(a), Together(b), AllPairs(|a|);
    AllPairsCount(|a|);
    assert p == p * q + (p - q);
    assert q == p * q + (q - p);
    assert p <= all && q <= all;
    assert all == (p + q) + (all - (p + q));
    assert p + q == p * q + (p - q) + (q - p);
  }

  /** The denominator of the textbook form. */
  function Spread(n: Pairs): nat {
    (n.both + n.onlyA) * (n.onlyA + n.neither) + (n.both + n.onlyB) * (n.onlyB + n.neither)
  }

  /** The excess of the index over its expectation, times the number of pairs. */
  lemma Excess(d: nat, e: nat, f: nat, g: nat)
    ensures (d + e + f + g) * d - (d + e) * (d + f) == d * g - e * f
  {
    assert (d + e) * (d + f) == d * d + d * f + e * d + e * f;
    assert (d + e + f + g) * d == d * d + e * d + f * d + g * d;
  }

  /** The room its maximum leaves, times that number. */
  lemma Room(n: Pairs)
    ensures var x, y, t := n.both + n.onlyA, n.both + n.onlyB, n.both + n.onlyA + n.onlyB + n.neither;
            t * (x + y) - 2 * (x * y) == Spread(n)
  {
    var x, y, t := n.both + n.onlyA, n.both + n.onlyB, n.both + n.onlyA + n.onlyB + n.neither;
    assert t * (x + y) == t * x + t * y;
    assert x * (t - y) == t * x - x * y;
    assert y * (t - x) == t * y - x * y;
    assert t - y == n.onlyA + n.neither && t - x == n.onlyB + n.neither;
  }

  lemma RealForm(both: real, x: real, y: real, t: real)
    requires t > 0.0
    ensures (x + y) / 2.0 == x * y / t <==> t * (x + y) - 2.0 * (x * y) == 0.0
    ensures (x + y) / 2.0 != x * y / t ==>
              (both - x * y / t) / ((x + y) / 2.0 - x * y / t) ==
              2.0 * (t * both - x * y) / (t * (x + y) - 2.0 * (x * y))
  {
    var e, m := x * y / t, (x + y) / 2.0;
    assert e * t == x * y;
    var p, q := both - e, m - e;
    assert t * p == t * both - x * y;
    assert 2.0 * (t * q) == t * (x + y) - 2.0 * (x * y);
    Product(t, q);
    if q != 0.0 {
      Scaled(p, q, 2.0 * t);
    }
  }

  lemma Scaled(p: real, q: real, k: real)
    requires q != 0.0 && k != 0.0
    ensures k * q != 0.0 && k * p / (k * q) == p / q
  {
    Product(k, q);
    assert p / q * q == p;
    assert p / q * (k * q) == k * p;
  }

  lemma {:induction false} RealProduct(x: nat, y: int)
    ensures (x * y) as real == x as real * y as real
  {
    if x > 0 {
      RealProduct(x - 1, y);
      assert x * y == (x - 1) * y + y;
      assert x as real * y as real == (x - 1) as real * y as real + y as real;
    }
  }

  /** The index in whole numbers: the two excesses, `det` and `spread`. */
  lemma AdjustedIs(both: nat, x: nat, y: nat, t: nat, det: int, spread: int)
    requires t > 0 && det == t * both - x * y && spread == t * (x + y) - 2 * (x * y)
    ensures Adjusted(both, x, y, t) == if spread == 0 then 1.0 else 2.0 * det as real / spread as real
  {
    RealProduct(x, y);
    RealProduct(t, x + y);
    RealProduct(t, both);
    WholeForm(both as real, x as real, y as real, t as real, det as real, spread as real);
  }

  lemma WholeForm(both: real, x: real, y: real, t: real, det: real, spread: real)
    requires t > 0.0 && det == t * both - x * y && spread == t * (x + y) - 2.0 * (x * y)
    ensures (x + y) / 2.0 == x * y / t <==> spread == 0.0
    ensures spread != 0.0 ==> (both - x * y / t) / ((x + y) / 2.0 - x * y / t) == 2.0 * det / spread
  {
    RealForm(both, x, y, t);
  }

  /** Twice the product of the agreements less that of the disagreements, over their spread. */
  function Textbook(n: Pairs): real {
    if Spread(n) == 0 then 1.0
    else 2.0 * (n.both * n.neither - n.onlyA * n.onlyB) as real / Spread(n) as real
  }

  lemma AdjustedIsTextbook(n: Pairs, t: nat)
    requires t > 0 && t == n.both + n.onlyA + n.onlyB + n.neither
    ensures Adjusted(n.both, n.both + n.onlyA, n.both + n.onlyB, t) == Textbook(n)
  {
    var x, y := n.both + n.onlyA, n.both + n.onlyB;
    var det, spread := t * n.both - x * y, t * (x + y) - 2 * (x * y);
    Excess(n.both, n.onlyA, n.onlyB, n.neither);
    Room(n);
    AdjustedIs(n.both, x, y, t, det, spread);
  }

  /** The index is the textbook one, from the four counts of pairs, and 1 where their spread is nothing. */
  lemma AriIsTextbook<T, U>(a: seq<T>, b: seq<U>)
    requires |a| == |b| >= 2
    ensures Ari(a, b) == Textbook(PairsOf(a, b))
  {
    AriOfPairs(a, b);
    PairsAddUp(a, b);
    AdjustedIsTextbook(PairsOf(a, b), C2(|a|));
  }
}
