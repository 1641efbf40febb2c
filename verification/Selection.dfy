/** Session selection by linear filtering, and the admission estimate built on it. */
module Selection {
  import opened Wrappers
  import opened Ledger

  datatype Filter = Filter(
    active: bool,
    settled: bool,
    model: Option<string>,
    phase: Option<string>,
    positive: bool,
    estimated: bool,
    limit: Option<nat>)

  const ALL := Filter(false, false, None, None, false, false, None)

  predicate Matches(f: Filter, s: Session) {
    && (f.active ==> s.status != Settled)
    && (f.settled ==> s.status == Settled)
    && (f.model.Some? ==> s.model == f.model.value)
    && (f.phase.Some? ==> s.phase == f.phase.value)
    && (f.estimated ==> Estimated(s.provenance))
    && (f.positive ==> Cost(s) > 0.0)
  }

  function Keep(f: Filter, ss: seq<Session>): (kept: seq<Session>)
    ensures forall s :: s in kept ==> s in ss && Matches(f, s)
  {
    if ss == [] then []
    else
      var init := Keep(f, ss[..|ss| - 1]);
      if Matches(f, ss[|ss| - 1]) then init + [ss[|ss| - 1]] else init
  }

  /** The slice `rows[-limit:]`, which keeps every row when the limit is zero. */
  function LastRows<T>(rows: seq<T>, limit: Option<nat>): seq<T> {
    if limit.None? || limit.value == 0 || limit.value >= |rows| then rows
    else rows[|rows| - limit.value..]
  }

  function Select(ss: seq<Session>, f: Filter): (rows: seq<Session>)
    ensures forall s :: s in rows ==> s in ss && Matches(f, s)
  {
    LastRows(Keep(f, ss), f.limit)
  }

  // --------------------------------------------------------------- estimates

  function Costs(ss: seq<Session>): (cs: seq<real>)
    ensures |cs| == |ss| && forall i :: 0 <= i < |ss| ==> cs[i] == Cost(ss[i])
    ensures (forall s :: s in ss ==> Cost(s) > 0.0) ==> forall c :: c in cs ==> c > 0.0
  {
    seq(|ss|, i requires 0 <= i < |ss| => Cost(ss[i]))
  }

  function Reserves(ss: seq<Session>): (rs: seq<real>)
    ensures forall r :: r in rs ==> r > 0.0
  {
    if ss == [] then []
    else
      var init := Reserves(ss[..|ss| - 1]);
      var r := ss[|ss| - 1].reserve.GetOr(0.0);
      if r > 0.0 then init + [r] else init
  }

  predicate Sorted(xs: seq<real>) {
    forall i, j :: 0 <= i < j < |xs| ==> xs[i] <= xs[j]
  }

  function Insert(x: real, xs: seq<real>): seq<real> {
    if xs == [] || x <= xs[0] then [x] + xs else [xs[0]] + Insert(x, xs[1..])
  }

  lemma SortedCons(x: real, xs: seq<real>)
    requires Sorted(xs) && (xs != [] ==> x <= xs[0])
    ensures Sorted([x] + xs)
  {
  }

  lemma {:induction false} InsertSorts(x: real, xs: seq<real>)
    requires Sorted(xs)
    ensures Sorted(Insert(x, xs)) && Insert(x, xs) != []
    ensures Insert(x, xs)[0] == if xs == [] || x <= xs[0] then x else xs[0]
    ensures multiset(Insert(x, xs)) == multiset(xs) + multiset{x}
    decreases |xs|
  {
    if xs == [] || x <= xs[0] {
      SortedCons(x, xs);
    } else {
      InsertSorts(x, xs[1..]);
      SortedCons(xs[0], Insert(x, xs[1..]));
      assert xs == [xs[0]] + xs[1..];
    }
  }

  function Sort(xs: seq<real>): (r: seq<real>)
    ensures Sorted(r) && multiset(r) == multiset(xs) && |r| == |xs|
  {
    if xs == [] then []
    else
      var rest := Sort(xs[1..]);
      SortStep(xs, rest);
      Insert(xs[0], rest)
  }

  lemma SortStep(xs: seq<real>, rest: seq<real>)
    requires xs != [] && Sorted(rest) && multiset(rest) == multiset(xs[1..])
    ensures var r := Insert(xs[0], rest); Sorted(r) && multiset(r) == multiset(xs) && |r| == |xs|
  {
    InsertSorts(xs[0], rest);
    assert xs == [xs[0]] + xs[1..];
    assert |multiset(Insert(xs[0], rest))| == |multiset(xs)|;
  }

  function Largest(xs: seq<real>, floor: real): (m: real)
    ensures m >= floor && forall x :: x in xs ==> x <= m
    ensures m == floor || m in xs
  {
    if xs == [] then floor
    else
      assert xs == xs[..|xs| - 1] + [xs[|xs| - 1]];
      Max(Largest(xs[..|xs| - 1], floor), xs[|xs| - 1])
  }

  /** Recent positive costs of the phase, else of the model, else (for a model
      that never settled one) its outstanding reservations. */
  function RawSample(ss: seq<Session>, model: string, phase: Option<string>, pending: bool): (r: seq<real>)
    ensures forall c :: c in r ==> c > 0.0
  {
    var settled := ALL.(model := Some(model), settled := true, positive := true, limit := Some(20));
    var phased := if phase.Some? && phase.value != "" then Costs(Select(ss, settled.(phase := phase))) else [];
    var costs := if phased != [] then phased else Costs(Select(ss, settled));
    if costs == [] && pending then Reserves(Select(ss, ALL.(model := Some(model), active := true))) else costs
  }

  function CostSample(ss: seq<Session>, model: string, phase: Option<string>, pending: bool): seq<real> {
    Sort(LastRows(RawSample(ss, model, phase, pending), Some(20)))
  }

  /** How many of n sampled costs the estimate must cover: three quarters, rounded up. */
  function Quartile(n: nat): (q: nat)
    ensures n > 0 ==> 0 < q <= n
    ensures 3 * n <= 4 * q < 3 * n + 4
  {
    (3 * n + 3) / 4
  }

  /** What one more session of this model and phase is expected to cost. */
  function Estimate(ss: seq<Session>, model: string, phase: Option<string>, pending: bool): real {
    var costs := CostSample(ss, model, phase, pending);
    if costs != [] then costs[Quartile(|costs|) - 1]
    else Largest(Costs(Select(ss, ALL.(settled := true, limit := Some(20)))), 1.0)
  }

  lemma SortMembers(xs: seq<real>, c: real)
    requires c in Sort(xs)
    ensures c in xs
  {
    assert c in multiset(Sort(xs));
  }

  lemma LastMembers(rows: seq<real>, limit: Option<nat>, c: real)
    requires c in LastRows(rows, limit)
    ensures c in rows
  {
  }

  lemma SamplePositive(ss: seq<Session>, model: string, phase: Option<string>, pending: bool, c: real)
    requires c in CostSample(ss, model, phase, pending)
    ensures c > 0.0
  {
    var raw := RawSample(ss, model, phase, pending);
    SortMembers(LastRows(raw, Some(20)), c);
    LastMembers(raw, Some(20), c);
  }

  /** The estimate is positive and covers the cheaper three quarters of its sample. */
  lemma EstimateCovers(ss: seq<Session>, model: string, phase: Option<string>, pending: bool)
    ensures var sample := CostSample(ss, model, phase, pending);
            var estimate := Estimate(ss, model, phase, pending);
            && estimate > 0.0
            && (sample == [] ==> estimate >= 1.0)
            && forall i :: 0 <= i < Quartile(|sample|) && i < |sample| ==> sample[i] <= estimate
  {
    var sample := CostSample(ss, model, phase, pending);
    if sample != [] {
      var q := Quartile(|sample|);
      SamplePositive(ss, model, phase, pending, sample[q - 1]);
      SortedUpTo(sample, q);
    }
  }

  lemma SortedUpTo(xs: seq<real>, q: nat)
    requires Sorted(xs) && 0 < q <= |xs|
    ensures forall i :: 0 <= i < q ==> xs[i] <= xs[q - 1]
  {
  }
}
