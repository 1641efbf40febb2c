/** Tie-averaged ranks, and Spearman's correlation of them. */
module Ranks {
  import opened Wrappers

  // ---------------------------------------------------------------- counting

  function Below(vs: seq<real>, x: real): nat {
    if vs == [] then 0 else Below(vs[..|vs| - 1], x) + if vs[|vs| - 1] < x then 1 else 0
  }

  function Equal(vs: seq<real>, x: real): nat {
    if vs == [] then 0 else Equal(vs[..|vs| - 1], x) + if vs[|vs| - 1] == x then 1 else 0
  }

  /** The average position of x among its equals, counted from zero. */
  function RankOf(vs: seq<real>, x: real): real {
    Below(vs, x) as real + (Equal(vs, x) - 1) as real / 2.0
  }

  function RanksOf(vs: seq<real>): (rs: seq<real>)
    ensures |rs| == |vs| && forall k :: 0 <= k < |vs| ==> rs[k] == RankOf(vs, vs[k])
  {
    seq(|vs|, k requires 0 <= k < |vs| => RankOf(vs, vs[k]))
  }

  lemma CountAppend(vs: seq<real>, v: real, x: real)
    ensures Below(vs + [v], x) == Below(vs, x) + if v < x then 1 else 0
    ensures Equal(vs + [v], x) == Equal(vs, x) + if v == x then 1 else 0
  {
    assert (vs + [v])[..|vs|] == vs;
  }

  lemma {:induction false} EqualPositive(vs: seq<real>, k: nat)
    requires k < |vs|
    ensures Equal(vs, vs[k]) >= 1
    decreases |vs|
  {
    var n := |vs| - 1;
    if k < n {
      assert vs[..n][k] == vs[k];
      EqualPositive(vs[..n], k);
    }
  }

  lemma {:induction false} BelowGap(vs: seq<real>, x: real, y: real)
    requires x < y
    ensures Below(vs, y) >= Below(vs, x) + Equal(vs, x)
    decreases |vs|
  {
    if vs != [] {
      BelowGap(vs[..|vs| - 1], x, y);
    }
  }

  /** Ranks order the values exactly: smaller values have smaller ranks, and equal
      values have the same rank. */
  lemma RanksOrder(vs: seq<real>, a: nat, b: nat)
    requires a < |vs| && b < |vs|
    ensures vs[a] < vs[b] <==> RankOf(vs, vs[a]) < RankOf(vs, vs[b])
    ensures vs[a] == vs[b] <==> RankOf(vs, vs[a]) == RankOf(vs, vs[b])
  {
    EqualPositive(vs, a);
    EqualPositive(vs, b);
    if vs[a] < vs[b] {
      BelowGap(vs, vs[a], vs[b]);
    } else if vs[b] < vs[a] {
      BelowGap(vs, vs[b], vs[a]);
    }
  }

  // ------------------------------------------------------------------- sum

  function Sum(xs: seq<real>): real {
    if xs == [] then 0.0 else Sum(xs[..|xs| - 1]) + xs[|xs| - 1]
  }

  /** The ranks of the first n values within all values. */
  function RankTotal(vs: seq<real>, among: seq<real>): real {
    if vs == [] then 0.0 else RankTotal(vs[..|vs| - 1], among) + RankOf(among, vs[|vs| - 1])
  }

  function Above(vs: seq<real>, x: real): int {
    |vs| - Below(vs, x) - Equal(vs, x)
  }

  /** One more value raises the ranks of the larger ones by one and those of its equals
      by a half. */
  lemma {:induction false} RankTotalAppend(vs: seq<real>, among: seq<real>, v: real)
    ensures RankTotal(vs, among + [v]) == RankTotal(vs, among) + Above(vs, v) as real + Equal(vs, v) as real / 2.0
    decreases |vs|
  {
    if vs != [] {
      var n := |vs| - 1;
      RankTotalAppend(vs[..n], among, v);
      CountAppend(among, v, vs[n]);
    }
  }

  lemma {:induction false} RankTotalIs(vs: seq<real>)
    ensures RankTotal(vs, vs) == (|vs| * (|vs| - 1)) as real / 2.0
    decreases |vs|
  {
    if vs != [] {
      var n := |vs| - 1;
      var init, v := vs[..n], vs[n];
      RankTotalIs(init);
      assert init + [v] == vs;
      RankTotalAppend(init, init, v);
      CountAppend(init, v, v);
      assert RankTotal(vs, vs) == RankTotal(init, vs) + RankOf(vs, v);
      assert n * (n - 1) + 2 * n == (n + 1) * n;
    }
  }

  lemma {:induction false} SumOfRanks(vs: seq<real>, among: seq<real>, rs: seq<real>)
    requires |rs| == |vs| && forall k :: 0 <= k < |vs| ==> rs[k] == RankOf(among, vs[k])
    ensures Sum(rs) == RankTotal(vs, among)
    decreases |vs|
  {
    if vs != [] {
      SumOfRanks(vs[..|vs| - 1], among, rs[..|rs| - 1]);
    }
  }

  /** The ranks of n values sum to n(n-1)/2, with or without ties. */
  lemma RanksSum(vs: seq<real>)
    ensures Sum(RanksOf(vs)) == (|vs| * (|vs| - 1)) as real / 2.0
  {
    SumOfRanks(vs, vs, RanksOf(vs));
    RankTotalIs(vs);
  }

  // ------------------------------------------------------------ the algorithm

  predicate SortedBy(vs: seq<real>, order: seq<nat>) {
    && (forall k :: 0 <= k < |order| ==> order[k] < |vs|)
    && (forall i, j :: 0 <= i < j < |order| ==> vs[order[i]] <= vs[order[j]])
  }

  predicate AllOnce(order: seq<nat>, n: nat) {
    && |order| == n
    && (forall i, j :: 0 <= i < j < |order| ==> order[i] != order[j])
    && (forall k: nat :: k < n ==> k in order)
  }

  function Arranged(vs: seq<real>, order: seq<nat>): (r: seq<real>)
    requires forall k :: 0 <= k < |order| ==> order[k] < |vs|
    ensures |r| == |order| && forall k :: 0 <= k < |order| ==> r[k] == vs[order[k]]
  {
    seq(|order|, k requires 0 <= k < |order| => vs[order[k]])
  }

  lemma {:induction false} CountConcat(a: seq<real>, b: seq<real>, x: real)
    ensures Below(a + b, x) == Below(a, x) + Below(b, x)
    ensures Equal(a + b, x) == Equal(a, x) + Equal(b, x)
    decreases |b|
  {
    if b == [] {
      assert a + b == a;
    } else {
      var n := |b| - 1;
      assert a + b == (a + b[..n]) + [b[n]];
      CountConcat(a, b[..n], x);
      CountAppend(a + b[..n], b[n], x);
    }
  }

  lemma CountInsert(r: seq<real>, at: nat, v: real, x: real)
    requires at <= |r|
    ensures Below(r[..at] + [v] + r[at..], x) == Below(r, x) + if v < x then 1 else 0
    ensures Equal(r[..at] + [v] + r[at..], x) == Equal(r, x) + if v == x then 1 else 0
  {
    assert r == r[..at] + r[at..];
    CountConcat(r[..at], r[at..], x);
    CountConcat(r[..at] + [v], r[at..], x);
    CountAppend(r[..at], v, x);
  }

  /** The arrangement holds the same values as often. */
  ghost predicate SameCounts(r: seq<real>, vs: seq<real>) {
    forall x :: Below(r, x) == Below(vs, x) && Equal(r, x) == Equal(vs, x)
  }

  lemma InsertCounts(vs: seq<real>, n: nat, r: seq<real>, at: nat)
    requires n < |vs| && at <= |r| && SameCounts(r, vs[..n])
    ensures SameCounts(r[..at] + [vs[n]] + r[at..], vs[..n + 1])
  {
    assert vs[..n + 1] == vs[..n] + [vs[n]];
    forall x ensures Below(r[..at] + [vs[n]] + r[at..], x) == Below(vs[..n + 1], x)
                  && Equal(r[..at] + [vs[n]] + r[at..], x) == Equal(vs[..n + 1], x)
    {
      CountInsert(r, at, vs[n], x);
      CountAppend(vs[..n], vs[n], x);
    }
  }

  /** Where the n-th value belongs among the ordered ones. */
  method PlaceOf(vs: seq<real>, order: seq<nat>, n: nat) returns (at: nat)
    requires n < |vs| && SortedBy(vs, order)
    ensures at <= |order| && forall i :: at <= i < |order| ==> vs[order[i]] > vs[n]
    ensures at > 0 ==> vs[order[at - 1]] <= vs[n]
  {
    at := |order|;
    while at > 0 && vs[order[at - 1]] > vs[n]
      invariant 0 <= at <= |order|
      invariant forall i :: at <= i < |order| ==> vs[order[i]] > vs[n]
    {
      at := at - 1;
    }
  }

  /** The positions of the values, from the smallest value on. */
  method Order(vs: seq<real>) returns (order: seq<nat>)
    ensures SortedBy(vs, order) && AllOnce(order, |vs|)
    ensures SameCounts(Arranged(vs, order), vs)
  {
    order := [];
    for n := 0 to |vs|
      invariant SortedBy(vs, order) && AllOnce(order, n)
      invariant forall i :: 0 <= i < |order| ==> order[i] < n
      invariant SameCounts(Arranged(vs, order), vs[..n])
    {
      var at := PlaceOf(vs, order, n);
      Inserted(vs, order, at, n);
      order := order[..at] + [n] + order[at..];
    }
    Whole(vs);
  }

  lemma Whole(vs: seq<real>)
    ensures vs[..|vs|] == vs
  {
  }

  lemma Inserted(vs: seq<real>, order: seq<nat>, at: nat, n: nat)
    requires n < |vs| && at <= |order| && SortedBy(vs, order) && AllOnce(order, n)
    requires forall i :: 0 <= i < |order| ==> order[i] < n
    requires SameCounts(Arranged(vs, order), vs[..n])
    requires forall i :: at <= i < |order| ==> vs[order[i]] > vs[n]
    requires at > 0 ==> vs[order[at - 1]] <= vs[n]
    ensures var next := order[..at] + [n] + order[at..];
            && SortedBy(vs, next) && AllOnce(next, n + 1)
            && (forall i :: 0 <= i < |next| ==> next[i] < n + 1)
            && SameCounts(Arranged(vs, next), vs[..n + 1])
  {
    var next := order[..at] + [n] + order[at..];
    InsertCounts(vs, n, Arranged(vs, order), at);
    InsertedOnce(order, at, n);
    InsertedSorted(vs, order, at, n);
    assert Arranged(vs, next) == Arranged(vs, order)[..at] + [vs[n]] + Arranged(vs, order)[at..];
  }

  lemma InsertedSorted(vs: seq<real>, order: seq<nat>, at: nat, n: nat)
    requires n < |vs| && at <= |order| && SortedBy(vs, order)
    requires forall i :: at <= i < |order| ==> vs[order[i]] > vs[n]
    requires at > 0 ==> vs[order[at - 1]] <= vs[n]
    ensures SortedBy(vs, order[..at] + [n] + order[at..])
  {
    var next := order[..at] + [n] + order[at..];
    forall k | 0 <= k < |next|
      ensures next[k] == (if k < at then order[k] else if k == at then n else order[k - 1]) && next[k] < |vs|
    {
    }
  }

  lemma InsertedOnce(order: seq<nat>, at: nat, n: nat)
    requires AllOnce(order, n) && at <= |order| && forall i :: 0 <= i < |order| ==> order[i] < n
    ensures AllOnce(order[..at] + [n] + order[at..], n + 1)
  {
    var next := order[..at] + [n] + order[at..];
    forall k: nat | k < n + 1 ensures k in next {
      if k < n {
        assert k in order;
        var i :| 0 <= i < |order| && order[i] == k;
        assert next[if i < at then i else i + 1] == k;
      } else {
        assert next[at] == k;
      }
    }
  }

  lemma {:induction false} CountUniform(r: seq<real>, x: real)
    ensures (forall k :: 0 <= k < |r| ==> r[k] < x) ==> Below(r, x) == |r| && Equal(r, x) == 0
    ensures (forall k :: 0 <= k < |r| ==> r[k] == x) ==> Below(r, x) == 0 && Equal(r, x) == |r|
    ensures (forall k :: 0 <= k < |r| ==> r[k] > x) ==> Below(r, x) == 0 && Equal(r, x) == 0
    decreases |r|
  {
    if r != [] {
      CountUniform(r[..|r| - 1], x);
    }
  }

  lemma Split(r: seq<real>, i: nat, j: nat)
    requires i <= j <= |r|
    ensures r == r[..i] + r[i..j] + r[j..]
  {
  }

  lemma ThreeParts(r: seq<real>, a: seq<real>, b: seq<real>, c: seq<real>, x: real)
    requires r == a + b + c
    requires forall k :: 0 <= k < |a| ==> a[k] < x
    requires forall k :: 0 <= k < |b| ==> b[k] == x
    requires forall k :: 0 <= k < |c| ==> c[k] > x
    ensures Below(r, x) == |a| && Equal(r, x) == |b|
  {
    CountConcat(a + b, c, x);
    CountConcat(a, b, x);
    CountUniform(a, x);
    CountUniform(b, x);
    CountUniform(c, x);
  }

  predicate Rising(r: seq<real>) {
    forall i, j :: 0 <= i < j < |r| ==> r[i] <= r[j]
  }

  /** In a sorted sequence a group of equals stands after all smaller values. */
  lemma GroupCounts(r: seq<real>, i: nat, j: nat, x: real)
    requires i < j <= |r| && Rising(r)
    requires forall k :: i <= k < j ==> r[k] == x
    requires i > 0 ==> r[i - 1] < x
    requires j < |r| ==> r[j] > x
    ensures Below(r, x) == i && Equal(r, x) == j - i
  {
    SortedAround(r, i, j, x);
    var a, b, c := r[..i], r[i..j], r[j..];
    Split(r, i, j);
    ThreeParts(r, a, b, c, x);
  }

  lemma SortedAround(r: seq<real>, i: nat, j: nat, x: real)
    requires i < j <= |r| && Rising(r)
    requires i > 0 ==> r[i - 1] < x
    requires j < |r| ==> r[j] > x
    ensures forall k :: 0 <= k < i ==> r[k] < x
    ensures forall k :: j <= k < |r| ==> r[k] > x
  {
  }

  /** The average position of a group is the rank of its value. */
  lemma GroupRank(vs: seq<real>, order: seq<nat>, i: nat, j: nat)
    requires SortedBy(vs, order) && SameCounts(Arranged(vs, order), vs) && i < j <= |order|
    requires forall k :: i <= k < j ==> vs[order[k]] == vs[order[i]]
    requires i > 0 ==> vs[order[i - 1]] < vs[order[i]]
    requires j < |order| ==> vs[order[j]] != vs[order[i]]
    ensures (i + j - 1) as real / 2.0 == RankOf(vs, vs[order[i]])
    ensures j < |order| ==> vs[order[j - 1]] < vs[order[j]]
  {
    var r, x := Arranged(vs, order), vs[order[i]];
    GroupCounts(r, i, j, x);
    assert Below(r, x) == Below(vs, x) && Equal(r, x) == Equal(vs, x);
  }

  /** Gives the positions i to j of the order the same rank. */
  method Assign(ranks: array<real>, order: seq<nat>, i: nat, j: nat, rank: real)
    requires i <= j <= |order| && AllOnce(order, ranks.Length)
    requires forall k :: 0 <= k < |order| ==> order[k] < ranks.Length
    modifies ranks
    ensures forall k :: i <= k < j ==> ranks[order[k]] == rank
    ensures forall k :: 0 <= k < |order| && !(i <= k < j) ==> ranks[order[k]] == old(ranks[order[k]])
  {
    for k := i to j
      invariant forall l :: i <= l < k ==> ranks[order[l]] == rank
      invariant forall l :: 0 <= l < |order| && !(i <= l < k) ==> ranks[order[l]] == old(ranks[order[l]])
    {
      ranks[order[k]] := rank;
    }
  }

  /** Ranks by sorting: every group of equals gets its average position. */
  method Rank(vs: seq<real>) returns (ranks: array<real>)
    ensures fresh(ranks) && ranks[..] == RanksOf(vs)
  {
    var order := Order(vs);
    ranks := new real[|vs|](k => 0.0);
    var i := 0;
    while i < |order|
      invariant 0 <= i <= |order| && ranks.Length == |vs| && fresh(ranks)
      invariant 0 < i < |order| ==> vs[order[i - 1]] < vs[order[i]]
      invariant forall k :: 0 <= k < i ==> ranks[order[k]] == RankOf(vs, vs[order[k]])
    {
      var j := i + 1;
      while j < |order| && vs[order[j]] == vs[order[i]]
        invariant i < j <= |order|
        invariant forall k :: i <= k < j ==> vs[order[k]] == vs[order[i]]
      {
        j := j + 1;
      }
      GroupRank(vs, order, i, j);
      Assign(ranks, order, i, j, (i + j - 1) as real / 2.0);
      i := j;
    }
    forall k: nat | k < |vs| ensures ranks[k] == RankOf(vs, vs[k]) {
      assert k in order;
    }
    assert ranks[..] == RanksOf(vs);
  }

  // ------------------------------------------------------------- correlation

  function Centered(rs: seq<real>, mean: real): (cs: seq<real>)
    ensures |cs| == |rs| && forall k :: 0 <= k < |rs| ==> cs[k] == rs[k] - mean
  {
    seq(|rs|, k requires 0 <= k < |rs| => rs[k] - mean)
  }

  function Dot(a: seq<real>, b: seq<real>): real
    requires |a| == |b|
  {
    if a == [] then 0.0 else Dot(a[..|a| - 1], b[..|b| - 1]) + a[|a| - 1] * b[|b| - 1]
  }

  lemma {:induction false} DotSelf(a: seq<real>)
    ensures Dot(a, a) >= 0.0
    decreases |a|
  {
    if a != [] {
      DotSelf(a[..|a| - 1]);
      assert a[|a| - 1] * a[|a| - 1] >= 0.0;
    }
  }

  lemma Positive(a: real, b: real)
    requires a > 0.0 && b > 0.0
    ensures a * b > 0.0
  {
  }

  /** From p >= 0 and q*q <= p*p it follows that q lies between -p and p. */
  lemma SquareRootOrder(p: real, q: real)
    requires p >= 0.0 && q * q <= p * p
    ensures -p <= q <= p
  {
    assert (q - p) * (q + p) == q * q - p * p;
    assert (-q - p) * (p - q) == q * q - p * p;
    if q > p {
      Positive(q - p, q + p);
    } else if q < -p {
      Positive(-q - p, p - q);
    }
  }

  lemma NonNegative(a: real, b: real)
    requires a >= 0.0 && b >= 0.0
    ensures a * b >= 0.0
  {
  }

  /** Twice the mixed term is at most the sum of the squares. */
  lemma MixedTerm(a: real, b: real, c: real, x: real, y: real)
    requires a >= 0.0 && b >= 0.0 && c * c <= a * b
    ensures 2.0 * c * x * y <= a * (y * y) + b * (x * x)
  {
    var u, v := a * (y * y), b * (x * x);
    var q := 2.0 * c * x * y;
    NonNegative(a, y * y);
    NonNegative(b, x * x);
    var s := (x * x) * (y * y);
    NonNegative(x * x, y * y);
    assert q * q == 4.0 * ((c * c) * s);
    assert u * v == (a * b) * s;
    NonNegative(a * b - c * c, s);
    assert (a * b - c * c) * s == (a * b) * s - (c * c) * s;
    assert (u + v) * (u + v) - 4.0 * (u * v) == (u - v) * (u - v) >= 0.0;
    SquareRootOrder(u + v, q);
  }

  /** The Cauchy-Schwarz inequality. */
  lemma {:induction false} CauchySchwarz(a: seq<real>, b: seq<real>)
    requires |a| == |b|
    ensures Dot(a, b) * Dot(a, b) <= Dot(a, a) * Dot(b, b)
    decreases |a|
  {
    if a != [] {
      var n := |a| - 1;
      CauchySchwarz(a[..n], b[..n]);
      DotSelf(a[..n]);
      DotSelf(b[..n]);
      OneMore(Dot(a[..n], a[..n]), Dot(b[..n], b[..n]), Dot(a[..n], b[..n]), a[n], b[n]);
    }
  }

  lemma OneMore(a: real, b: real, c: real, x: real, y: real)
    requires a >= 0.0 && b >= 0.0 && c * c <= a * b
    ensures (c + x * y) * (c + x * y) <= (a + x * x) * (b + y * y)
  {
    MixedTerm(a, b, c, x, y);
    assert (c + x * y) * (c + x * y) == c * c + 2.0 * c * x * y + (x * y) * (x * y);
    assert (a + x * x) * (b + y * y) == a * b + a * (y * y) + b * (x * x) + (x * x) * (y * y);
    assert (x * y) * (x * y) == (x * x) * (y * y);
  }

  function Mean(rs: seq<real>): real
    requires rs != []
  {
    Sum(rs) / |rs| as real
  }

  function Deviations(vs: seq<real>): (ds: seq<real>)
    requires vs != []
    ensures |ds| == |vs|
  {
    Centered(RanksOf(vs), Mean(RanksOf(vs)))
  }

  /** The correlation of two columns, given the square root of the product of their
      sums of squares; None for fewer than three pairs or without any deviation. */
  function Spearman(xs: seq<real>, ys: seq<real>, root: real): Option<real>
    requires |xs| == |ys|
  {
    if |xs| < 3 then None else Correlation(Deviations(xs), Deviations(ys), root)
  }

  /** The normalized inner product; None when a column does not deviate at all. */
  function Correlation(a: seq<real>, b: seq<real>, root: real): Option<real>
    requires |a| == |b|
  {
    if root == 0.0 then None else Some(Dot(a, b) / root)
  }

  lemma CorrelationBound(a: seq<real>, b: seq<real>, root: real)
    requires |a| == |b| && root >= 0.0 && root * root == Dot(a, a) * Dot(b, b)
    ensures Correlation(a, b, root).Some? ==> -1.0 <= Correlation(a, b, root).value <= 1.0
    ensures Correlation(a, b, root).None? ==> Dot(a, b) == 0.0
  {
    CauchySchwarz(a, b);
    Within(Dot(a, b), Dot(a, a) * Dot(b, b), root);
  }

  /** The correlation lies between -1 and 1. */
  lemma SpearmanBound(xs: seq<real>, ys: seq<real>, root: real)
    requires |xs| == |ys| >= 3 && root >= 0.0
    requires root * root == Dot(Deviations(xs), Deviations(xs)) * Dot(Deviations(ys), Deviations(ys))
    ensures Spearman(xs, ys, root).Some? ==> -1.0 <= Spearman(xs, ys, root).value <= 1.0
    ensures Spearman(xs, ys, root).None? ==> Dot(Deviations(xs), Deviations(ys)) == 0.0
  {
    CorrelationBound(Deviations(xs), Deviations(ys), root);
  }

  lemma Within(c: real, product: real, root: real)
    requires c * c <= product && root >= 0.0 && root * root == product
    ensures root == 0.0 ==> c == 0.0
    ensures root != 0.0 ==> -1.0 <= c / root <= 1.0
  {
    SquareRootOrder(root, c);
    if root > 0.0 {
      Ratio(c, root);
    }
  }

  lemma Ratio(c: real, root: real)
    requires root > 0.0 && -root <= c <= root
    ensures -1.0 <= c / root <= 1.0
  {
    assert c / root * root == c;
  }

  /** The mean rank is always (n-1)/2. */
  lemma MeanRank(vs: seq<real>)
    requires vs != []
    ensures Mean(RanksOf(vs)) == (|vs| - 1) as real / 2.0
  {
    RanksSum(vs);
    var n := |vs| as real;
    assert (|vs| * (|vs| - 1)) as real == n * (n - 1.0);
    Cancel(n, (n - 1.0) / 2.0);
    assert n * ((n - 1.0) / 2.0) == n * (n - 1.0) / 2.0;
  }

  lemma Cancel(n: real, h: real)
    requires n > 0.0
    ensures n * h / n == h
  {
  }

  /** Two columns order their rows alike. */
  predicate OrderedAlike(xs: seq<real>, ys: seq<real>)
    requires |xs| == |ys|
  {
    forall i, j :: 0 <= i < |xs| && 0 <= j < |xs| ==>
      (xs[i] < xs[j] <==> ys[i] < ys[j]) && (xs[i] == xs[j] <==> ys[i] == ys[j])
  }

  lemma {:induction false} CountsAlike(xs: seq<real>, ys: seq<real>, x: real, y: real)
    requires |xs| == |ys|
    requires forall i :: 0 <= i < |xs| ==> (xs[i] < x <==> ys[i] < y) && (xs[i] == x <==> ys[i] == y)
    ensures Below(xs, x) == Below(ys, y) && Equal(xs, x) == Equal(ys, y)
    decreases |xs|
  {
    if xs != [] {
      CountsAlike(xs[..|xs| - 1], ys[..|ys| - 1], x, y);
    }
  }

  /** Columns that order their rows alike have equal ranks, and correlation one. */
  lemma AlikeCorrelate(xs: seq<real>, ys: seq<real>, root: real)
    requires |xs| == |ys| >= 3 && root > 0.0 && OrderedAlike(xs, ys)
    requires root * root == Dot(Deviations(xs), Deviations(xs)) * Dot(Deviations(ys), Deviations(ys))
    ensures RanksOf(xs) == RanksOf(ys) && Spearman(xs, ys, root) == Some(1.0)
  {
    forall k | 0 <= k < |xs| ensures RanksOf(xs)[k] == RanksOf(ys)[k] {
      CountsAlike(xs, ys, xs[k], ys[k]);
    }
    assert RanksOf(xs) == RanksOf(ys);
    var d := Dot(Deviations(xs), Deviations(xs));
    DotSelf(Deviations(xs));
    SquareRootOrder(d, root);
    SquareRootOrder(root, d);
    assert root / root == 1.0;
  }
}
