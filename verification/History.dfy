/** Pricing a stopped session by what comparable sessions cost per second. */
module History {
  import opened Wrappers
  import opened Ledger
  import opened Selection

  const WEEK := 604800.0

  /** A duration between recorded endpoints. */
  datatype Span = Span(start: real, finish: real)

  function Seconds(s: Span): real {
    s.finish - s.start
  }

  /** What this time costs at this rate. */
  function Scaled(rate: real, seconds: real): real {
    rate * seconds
  }

  /** The recorded endpoints, when they are usable; `observed` is the last usage
      checkpoint and stands in for a missing finish. */
  function Interval(s: Session, now: real, observed: Option<real>): (span: Option<Span>)
    ensures span.Some? ==> 0.0 <= span.value.start < span.value.finish <= now
  {
    var finish := if s.finished.Some? then s.finished else observed;
    if finish.None? || s.started < 0.0 || finish.value <= s.started || finish.value > now then None
    else Some(Span(s.started, finish.value))
  }

  /** The rate of a session that is comparable to s: natively settled, of the same
      model, and finished within the week before s began. */
  function Rate(other: Session, s: Session, now: real, vague: set<string>): (rate: Option<real>)
    ensures rate.Some? ==> rate.value > 0.0
  {
    var span := Interval(other, now, None);
    if other.id == s.id || other.model != s.model || other.status != Settled
       || other.provenance != Some(NativeReported)
       || (other.outcome in vague && other.totals == map[])
       || other.outcome in {"reconciled", "launch-failed"} then None
    else if span.None? || !(s.started - WEEK <= span.value.finish <= s.started) then None
    else if Cost(other) <= 0.0 then None
    else Some(Cost(other) / Seconds(span.value))
  }

  function Rates(ss: seq<Session>, s: Session, phased: bool, now: real, vague: set<string>): (rates: seq<real>)
    ensures forall r :: r in rates ==> r > 0.0
  {
    if ss == [] then []
    else
      var n := |ss| - 1;
      var init := Rates(ss[..n], s, phased, now, vague);
      var rate := Rate(ss[n], s, now, vague);
      if rate.Some? && (phased ==> ss[n].phase == s.phase) then init + [rate.value] else init
  }

  function Median(xs: seq<real>): real
    requires xs != []
  {
    var sorted := Sort(xs);
    var n := |sorted|;
    if n % 2 == 1 then sorted[n / 2] else (sorted[n / 2 - 1] + sorted[n / 2]) / 2.0
  }

  /** The rates from which the guess takes the median. */
  function Comparable(s: Session, ss: seq<Session>, now: real, vague: set<string>): seq<real> {
    var phased := Rates(ss, s, true, now, vague);
    if |phased| >= 3 then phased else Rates(ss, s, false, now, vague)
  }

  /** The estimate and its provenance: the median rate of at least three comparable
      sessions, of the phase if possible, else what was estimated before the launch. */
  function Guess(s: Session, ss: seq<Session>, now: real, span: Option<Span>, vague: set<string>)
    : (r: (real, Provenance))
  {
    var rates := Comparable(s, ss, now, vague);
    if span.Some? && |rates| >= 3 then (Scaled(Median(rates), Seconds(span.value)), HistoricalEstimate)
    else (s.estimate, PrelaunchEstimate)
  }

  /** The median lies between two of the values. */
  lemma MedianBetween(xs: seq<real>) returns (a: real, b: real)
    requires xs != []
    ensures a in xs && b in xs && a <= Median(xs) <= b
  {
    var sorted := Sort(xs);
    var n := |sorted|;
    a, b := sorted[if n % 2 == 1 then n / 2 else n / 2 - 1], sorted[n / 2];
    assert a in multiset(sorted) && b in multiset(sorted);
    assert a in multiset(xs) && b in multiset(xs);
  }

  /** How many of the values lie below x, and how many above. */
  function CountBelow(xs: seq<real>, x: real): nat {
    if xs == [] then 0 else CountBelow(xs[1..], x) + (if xs[0] < x then 1 else 0)
  }

  function CountAbove(xs: seq<real>, x: real): nat {
    if xs == [] then 0 else CountAbove(xs[1..], x) + (if xs[0] > x then 1 else 0)
  }

  lemma {:induction false} CountInserted(y: real, xs: seq<real>, x: real)
    ensures CountBelow(Insert(y, xs), x) == CountBelow([y] + xs, x)
    ensures CountAbove(Insert(y, xs), x) == CountAbove([y] + xs, x)
    decreases |xs|
  {
    assert ([y] + xs)[1..] == xs;
    if xs != [] && y > xs[0] {
      CountInserted(y, xs[1..], x);
      assert ([xs[0]] + Insert(y, xs[1..]))[1..] == Insert(y, xs[1..]);
      assert ([y] + xs[1..])[1..] == xs[1..];
    }
  }

  /** Sorting keeps the counts. */
  lemma {:induction false} CountSorted(xs: seq<real>, x: real)
    ensures CountBelow(Sort(xs), x) == CountBelow(xs, x) && CountAbove(Sort(xs), x) == CountAbove(xs, x)
    decreases |xs|
  {
    if xs != [] {
      CountSorted(xs[1..], x);
      CountInserted(xs[0], Sort(xs[1..]), x);
      assert ([xs[0]] + Sort(xs[1..]))[1..] == Sort(xs[1..]);
    }
  }

  /** From position k on no value of a sorted sequence is below x. */
  lemma {:induction false} FewBelow(xs: seq<real>, k: nat, x: real)
    requires k <= |xs| && forall i :: k <= i < |xs| ==> xs[i] >= x
    ensures CountBelow(xs, x) <= k
    decreases |xs|
  {
    if xs != [] {
      FewBelow(xs[1..], if k > 0 then k - 1 else 0, x);
    }
  }

  lemma {:induction false} FewAbove(xs: seq<real>, k: nat, x: real)
    requires k <= |xs| && forall i :: 0 <= i < k ==> xs[i] <= x
    ensures CountAbove(xs, x) <= |xs| - k
    decreases |xs|
  {
    if xs != [] {
      FewAbove(xs[1..], if k > 0 then k - 1 else 0, x);
    }
  }

  /** The median is the mean of the one or two values in the middle. */
  lemma {:induction false} MedianMiddle(xs: seq<real>, sorted: seq<real>, low: nat, high: nat)
    requires xs != [] && sorted == Sort(xs) && low == (|xs| - 1) / 2 && high == |xs| / 2
    ensures low <= high < |sorted| && sorted[low] <= Median(xs) <= sorted[high]
    ensures 2.0 * Median(xs) == sorted[low] + sorted[high]
  {
    if |xs| % 2 == 1 {
      assert low == high && Median(xs) == sorted[high];
    } else {
      assert low + 1 == high && Median(xs) == (sorted[low] + sorted[high]) / 2.0;
      assert sorted[low] <= sorted[high];
    }
  }

  /** At most half of the values lie below the median, and at most half above. */
  lemma {:induction false} MedianHalves(xs: seq<real>)
    requires xs != []
    ensures 2 * CountBelow(xs, Median(xs)) <= |xs| && 2 * CountAbove(xs, Median(xs)) <= |xs|
  {
    var sorted, m := Sort(xs), Median(xs);
    var low, high := (|xs| - 1) / 2, |xs| / 2;
    MedianMiddle(xs, sorted, low, high);
    CountSorted(xs, m);
    AroundMiddle(sorted, low, high, m);
  }

  lemma {:induction false} AroundMiddle(sorted: seq<real>, low: nat, high: nat, m: real)
    requires Sorted(sorted) && low <= high < |sorted| && sorted[low] <= m <= sorted[high]
    ensures CountBelow(sorted, m) <= high && CountAbove(sorted, m) <= |sorted| - low - 1
  {
    FewBelow(sorted, high, m);
    FewAbove(sorted, low + 1, m);
  }

  /** Every rate is that of some session. */
  lemma {:induction false} RateOf(ss: seq<Session>, s: Session, phased: bool, now: real, vague: set<string>, r: real)
    returns (i: nat)
    requires r in Rates(ss, s, phased, now, vague)
    ensures i < |ss| && Rate(ss[i], s, now, vague) == Some(r) && (phased ==> ss[i].phase == s.phase)
    decreases |ss|
  {
    var n := |ss| - 1;
    if r in Rates(ss[..n], s, phased, now, vague) {
      i := RateOf(ss[..n], s, phased, now, vague, r);
    } else {
      i := n;
    }
  }

  /** Charging a time at the median rate charges it between two of the rates. */
  lemma MedianScaled(xs: seq<real>, seconds: real) returns (a: real, b: real)
    requires xs != [] && seconds >= 0.0
    ensures a in xs && b in xs && Scaled(a, seconds) <= Scaled(Median(xs), seconds) <= Scaled(b, seconds)
  {
    a, b := MedianBetween(xs);
    Scale(a, Median(xs), b, seconds);
  }

  lemma Scale(a: real, b: real, c: real, k: real)
    requires a <= b <= c && k >= 0.0
    ensures Scaled(a, k) <= Scaled(b, k) <= Scaled(c, k)
  {
    assert (b - a) * k >= 0.0 && (c - b) * k >= 0.0;
  }

  /** Another settled session of the same model that natively cost something, and that
      finished within the week before s began. */
  predicate Comparing(other: Session, s: Session) {
    && other.id != s.id
    && other.model == s.model
    && other.status == Settled
    && other.provenance == Some(NativeReported)
    && Cost(other) > 0.0
    && other.finished.Some?
    && 0.0 <= other.started < other.finished.value
    && s.started - WEEK <= other.finished.value <= s.started
  }

  function CostPerSecond(other: Session): real
    requires other.finished.Some? && other.started < other.finished.value
  {
    Cost(other) / (other.finished.value - other.started)
  }

  /** What else excludes a session: an outcome that tells nothing about its cost, or a finish
      after the clock. */
  predicate Excluded(other: Session, now: real, vague: set<string>) {
    || (other.outcome in vague && other.totals == map[])
    || other.outcome in {"reconciled", "launch-failed"}
    || (other.finished.Some? && other.finished.value > now)
  }

  /** A session has a rate exactly when it is comparable and nothing excludes it. */
  lemma RateExactly(other: Session, s: Session, now: real, vague: set<string>)
    ensures Rate(other, s, now, vague).Some? <==> Comparing(other, s) && !Excluded(other, now, vague)
    ensures Rate(other, s, now, vague).Some? ==> Rate(other, s, now, vague) == Some(CostPerSecond(other))
  {
  }

  /** A session that may be compared, of this phase or of any. */
  predicate Peer(other: Session, s: Session, phased: bool, now: real, vague: set<string>) {
    Comparing(other, s) && !Excluded(other, now, vague) && (phased ==> other.phase == s.phase)
  }

  function Peers(ss: seq<Session>, s: Session, phased: bool, now: real, vague: set<string>): set<nat> {
    set i: nat | i < |ss| && Peer(ss[i], s, phased, now, vague)
  }

  lemma {:induction false} PeersStep(ss: seq<Session>, s: Session, phased: bool, now: real, vague: set<string>, n: nat)
    requires |ss| == n + 1
    ensures |Peers(ss, s, phased, now, vague)|
         == |Peers(ss[..n], s, phased, now, vague)| + (if Peer(ss[n], s, phased, now, vague) then 1 else 0)
  {
    var before, all := Peers(ss[..n], s, phased, now, vague), Peers(ss, s, phased, now, vague);
    forall i: nat | i < n ensures i in before <==> i in all {
      assert ss[..n][i] == ss[i];
    }
    assert all == before + (if Peer(ss[n], s, phased, now, vague) then {n} else {});
  }

  lemma {:induction false} RatesStep(ss: seq<Session>, s: Session, phased: bool, now: real, vague: set<string>, n: nat)
    requires |ss| == n + 1
    ensures |Rates(ss, s, phased, now, vague)|
         == |Rates(ss[..n], s, phased, now, vague)| + (if Peer(ss[n], s, phased, now, vague) then 1 else 0)
  {
    RateExactly(ss[n], s, now, vague);
  }

  /** Every comparable session contributes one rate. */
  lemma {:induction false} RatesCount(ss: seq<Session>, s: Session, phased: bool, now: real, vague: set<string>)
    ensures |Rates(ss, s, phased, now, vague)| == |Peers(ss, s, phased, now, vague)|
    decreases |ss|
  {
    if ss == [] {
      assert Peers(ss, s, phased, now, vague) == {};
    } else {
      var n := |ss| - 1;
      RatesCount(ss[..n], s, phased, now, vague);
      RatesStep(ss, s, phased, now, vague, n);
      PeersStep(ss, s, phased, now, vague, n);
    }
  }

  /** The estimate is historical exactly when the session's time is known and three sessions
      can be compared with it; else it is what was estimated before the launch. */
  lemma HistoricalExactly(s: Session, ss: seq<Session>, now: real, span: Option<Span>, vague: set<string>)
    ensures var guess := Guess(s, ss, now, span, vague);
            && (guess.1 == HistoricalEstimate <==> span.Some? && |Peers(ss, s, false, now, vague)| >= 3)
            && (guess.1 != HistoricalEstimate ==> guess == (s.estimate, PrelaunchEstimate))
  {
    RatesCount(ss, s, true, now, vague);
    RatesCount(ss, s, false, now, vague);
    PhaseIsPart(ss, s, now, vague);
  }

  lemma PhaseIsPart(ss: seq<Session>, s: Session, now: real, vague: set<string>)
    ensures |Peers(ss, s, true, now, vague)| <= |Peers(ss, s, false, now, vague)|
  {
    Subset(Peers(ss, s, true, now, vague), Peers(ss, s, false, now, vague));
  }

  lemma {:induction false} Subset(a: set<nat>, b: set<nat>)
    requires a <= b
    ensures |a| <= |b|
    decreases a
  {
    if a != {} {
      var x :| x in a;
      Subset(a - {x}, b - {x});
    }
  }

  /** A comparable rate is what a session that really was comparable cost per second; three of
      the phase are compared with nobody else. */
  lemma PhaseFirst(s: Session, ss: seq<Session>, now: real, vague: set<string>, r: real) returns (i: nat)
    requires r in Comparable(s, ss, now, vague)
    ensures i in Peers(ss, s, false, now, vague) && CostPerSecond(ss[i]) == r
    ensures |Peers(ss, s, true, now, vague)| >= 3 ==> ss[i].phase == s.phase
  {
    RatesCount(ss, s, true, now, vague);
    i := RateOf(ss, s, |Rates(ss, s, true, now, vague)| >= 3, now, vague, r);
    RateExactly(ss[i], s, now, vague);
  }

  /** A historical estimate lies between what the session's time would have cost at two
      of the comparable rates. */
  lemma GuessFromHistory(s: Session, ss: seq<Session>, now: real, span: Option<Span>, vague: set<string>)
    returns (low: real, high: real)
    requires Guess(s, ss, now, span, vague).1 == HistoricalEstimate
    requires span.Some? ==> Seconds(span.value) >= 0.0
    ensures span.Some? && low in Comparable(s, ss, now, vague) && high in Comparable(s, ss, now, vague)
    ensures var seconds := Seconds(span.value);
            Scaled(low, seconds) <= Guess(s, ss, now, span, vague).0 <= Scaled(high, seconds)
  {
    var rates, seconds := Comparable(s, ss, now, vague), Seconds(span.value);
    assert Guess(s, ss, now, span, vague).0 == Scaled(Median(rates), seconds);
    low, high := MedianScaled(rates, seconds);
  }
}
