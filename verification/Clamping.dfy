/** How a native total is shared among the estimates that it clamps. */
module ShareArithmetic {
  import opened Wrappers
  import opened Ledger
  import opened Receipts

  // ------------------------------------------------------------- the shares

  /** The costs that clamping gives to the sessions at these positions. */
  function Shares(ss: seq<Session>, at: seq<nat>, native: real, exact: real, weight: real,
                  cursor: real): (vs: seq<real>)
    requires forall i :: 0 <= i < |at| ==> at[i] < |ss|
    ensures |vs| == |at|
    decreases |at|
  {
    if at == [] then []
    else
      var value := Share(ss[at[0]], |at| == 1, native, exact, weight, cursor);
      [value] + Shares(ss, at[1..], native, exact, weight, cursor + value)
  }

  function Total(vs: seq<real>): real {
    if vs == [] then 0.0 else vs[0] + Total(vs[1..])
  }

  /** The exact total plus its part of `native - exact` after `done` of the weight. */
  function Scaled(native: real, exact: real, weight: real, done: real): real
    requires weight > 0.0
  {
    exact + (native - exact) * done / weight
  }

  lemma ScaledStep(native: real, exact: real, weight: real, done: real, cost: real)
    requires weight > 0.0 && native >= exact && cost >= 0.0
    ensures Scaled(native, exact, weight, done + cost)
         == Scaled(native, exact, weight, done) + (native - exact) * cost / weight
    ensures (native - exact) * cost / weight >= 0.0
  {
    var d := native - exact;
    assert d * (done + cost) == d * done + d * cost;
    assert (d * done + d * cost) / weight == d * done / weight + d * cost / weight;
    assert d * cost >= 0.0;
  }

  lemma ScaledEnds(native: real, exact: real, weight: real)
    requires weight > 0.0
    ensures Scaled(native, exact, weight, 0.0) == exact
    ensures Scaled(native, exact, weight, weight) == native
  {
    assert (native - exact) * 0.0 / weight == 0.0;
    assert (native - exact) * weight / weight == native - exact;
  }

  lemma LastShare(native: real, exact: real, weight: real, done: real, cost: real)
    requires weight > 0.0 && native >= exact && cost >= 0.0 && done + cost == weight
    ensures native - Scaled(native, exact, weight, done) >= 0.0
  {
    ScaledStep(native, exact, weight, done, cost);
    ScaledEnds(native, exact, weight);
  }

  lemma OneShare(ss: seq<Session>, at: seq<nat>, native: real, exact: real, weight: real, cursor: real)
    requires |at| == 1 && at[0] < |ss|
    ensures Shares(ss, at, native, exact, weight, cursor) == [native - cursor]
    ensures Total([native - cursor]) == native - cursor
    ensures CostAt(ss, at) == Cost(ss[at[0]])
  {
    assert at[1..] == [];
    assert [native - cursor][1..] == [];
  }

  lemma FirstShare(ss: seq<Session>, at: seq<nat>, native: real, exact: real, weight: real, cursor: real, value: real)
    requires |at| > 1 && forall i :: 0 <= i < |at| ==> at[i] < |ss|
    requires value == Share(ss[at[0]], false, native, exact, weight, cursor)
    ensures var rest := Shares(ss, at[1..], native, exact, weight, cursor + value);
            && Shares(ss, at, native, exact, weight, cursor) == [value] + rest
            && Total([value] + rest) == value + Total(rest)
  {
    var rest := Shares(ss, at[1..], native, exact, weight, cursor + value);
    assert ([value] + rest)[1..] == rest;
  }

  /** A share moves the cursor to where the costs so far put it. */
  lemma ShareMoves(s: Session, native: real, exact: real, weight: real, done: real, cursor: real)
    requires weight > 0.0 && native >= exact && Cost(s) >= 0.0 && cursor == Scaled(native, exact, weight, done)
    ensures var value := Share(s, false, native, exact, weight, cursor);
            value >= 0.0 && cursor + value == Scaled(native, exact, weight, done + Cost(s))
  {
    ScaledStep(native, exact, weight, done, Cost(s));
  }

  /** A state of the distribution: the costs so far have moved the cursor here. */
  predicate Reached(native: real, exact: real, weight: real, done: real, cursor: real) {
    weight > 0.0 && native >= exact && cursor == Scaled(native, exact, weight, done)
  }
}

/** The clamped end of a chain. */
module Clamping {
  import opened Wrappers
  import opened Ledger
  import opened Receipts
  import opened Corrections
  import opened Chains
  import opened ShareArithmetic

  /** Every share is nonnegative, and together they reach the native total. */
  lemma {:induction false} SharesReach(ss: seq<Session>, at: seq<nat>, native: real, exact: real, weight: real,
                                       done: real, cursor: real)
    requires at != [] && forall i :: 0 <= i < |at| ==> at[i] < |ss| && Cost(ss[at[i]]) >= 0.0
    requires Reached(native, exact, weight, done, cursor) && done + CostAt(ss, at) == weight
    ensures var vs := Shares(ss, at, native, exact, weight, cursor);
            (forall i :: 0 <= i < |vs| ==> vs[i] >= 0.0) && cursor + Total(vs) == native
    decreases |at|
  {
    var cost := Cost(ss[at[0]]);
    if |at| == 1 {
      OneShare(ss, at, native, exact, weight, cursor);
      LastShare(native, exact, weight, done, cost);
    } else {
      var value := Share(ss[at[0]], false, native, exact, weight, cursor);
      ShareMoves(ss[at[0]], native, exact, weight, done, cursor);
      FirstShare(ss, at, native, exact, weight, cursor, value);
      SharesReach(ss, at[1..], native, exact, weight, done + cost, cursor + value);
    }
  }

  // -------------------------------------------------------------- the chain

  /** s with another cost and other totals. */
  predicate Repriced(s: Session, t: Session, cost: real, totals: Totals) {
    && t.cost == Some(cost)
    && t.totals == totals
    && t.status == s.status
    && t.provenance == s.provenance
    && t.resume == s.resume
    && t.id == s.id
  }

  /** The sessions at these positions cost vs, with running totals from cursor. */
  predicate PricedBy(ss: seq<Session>, after: seq<Session>, at: seq<nat>, p: string, vs: seq<real>, cursor: real)
    requires |after| == |ss| && |vs| == |at| && forall i :: 0 <= i < |at| ==> at[i] < |ss|
    decreases |at|
  {
    at == [] ||
    (&& Repriced(ss[at[0]], after[at[0]], vs[0], map[p := cursor + vs[0]])
     && PricedBy(ss, after, at[1..], p, vs[1..], cursor + vs[0]))
  }

  lemma PricedCons(ss: seq<Session>, after: seq<Session>, at: seq<nat>, p: string, v: real, vs: seq<real>, cursor: real)
    requires |after| == |ss| && at != [] && |vs| == |at| - 1 && forall i :: 0 <= i < |at| ==> at[i] < |ss|
    requires Repriced(ss[at[0]], after[at[0]], v, map[p := cursor + v])
    requires PricedBy(ss, after, at[1..], p, vs, cursor + v)
    ensures PricedBy(ss, after, at, p, [v] + vs, cursor)
  {
    assert ([v] + vs)[1..] == vs;
  }

  /** The events correct the sessions at these positions, each by its own. */
  predicate CorrectsAt(ss: seq<Session>, after: seq<Session>, at: seq<nat>, events: seq<Event>) {
    && |after| == |ss| && |events| == |at|
    && forall i :: 0 <= i < |at| ==>
         at[i] < |ss| && events[i].Correct? && after[at[i]] == Correcting(ss[at[i]], events[i])
  }

  lemma CorrectsTail(ss: seq<Session>, after: seq<Session>, at: seq<nat>, events: seq<Event>)
    requires at != [] && CorrectsAt(ss, after, at, events)
    ensures CorrectsAt(ss, after, at[1..], events[1..])
  {
    var later, rest := at[1..], events[1..];
    forall i | 0 <= i < |later|
      ensures later[i] < |ss| && rest[i].Correct? && after[later[i]] == Correcting(ss[later[i]], rest[i])
    {
      var j := i + 1;
      assert later[i] == at[j] && rest[i] == events[j];
    }
  }

  lemma {:induction false} EventsPrice(ss: seq<Session>, after: seq<Session>, at: seq<nat>, p: string,
                                       native: real, exact: real, weight: real, cursor: real)
    requires |after| == |ss| && forall i :: 0 <= i < |at| ==> at[i] < |ss|
    requires CorrectsAt(ss, after, at, ClampEvents(ss, at, p, native, exact, weight, cursor))
    ensures PricedBy(ss, after, at, p, Shares(ss, at, native, exact, weight, cursor), cursor)
    decreases |at|
  {
    if at != [] {
      var value := Share(ss[at[0]], |at| == 1, native, exact, weight, cursor);
      var rest := ClampEvents(ss, at[1..], p, native, exact, weight, cursor + value);
      var events := ClampEvents(ss, at, p, native, exact, weight, cursor);
      assert events[0] == ClampEvent(ss[at[0]], p, value, cursor + value) && events[1..] == rest;
      CorrectsTail(ss, after, at, events);
      EventsPrice(ss, after, at[1..], p, native, exact, weight, cursor + value);
      PricedCons(ss, after, at, p, value, Shares(ss, at[1..], native, exact, weight, cursor + value), cursor);
    }
  }

  /** Position i continues the chain of p. */
  predicate Continues(ss: seq<Session>, i: nat, p: string)
    requires i < |ss|
  {
    && ss[i].totals.Keys == {p}
    && ss[i].status == Settled
    && ss[i].cost.Some?
    && ss[i].cost.value >= 0.0
    && ss[i].totals[p] == Prev(ss, i, p) + ss[i].cost.value
  }

  /** The first loose session is priced by the first share. */
  lemma PricedFirst(ss: seq<Session>, after: seq<Session>, j: nat, k: nat, p: string,
                    exact: real, vs: seq<real>, cursor: real, next: nat)
    requires next == j + 1 <= k <= |ss| == |after| && ss[j].status == Settled && Loose(ss[j], p, exact)
    requires |vs| == |LooseAt(ss, j, k, p, exact)| && vs[0] >= 0.0
    requires PricedBy(ss, after, LooseAt(ss, j, k, p, exact), p, vs, cursor)
    requires Prev(after, j, p) == cursor
    ensures Continues(after, j, p) && Prev(after, next, p) == cursor + vs[0]
    ensures |vs[1..]| == |LooseAt(ss, next, k, p, exact)|
    ensures PricedBy(ss, after, LooseAt(ss, next, k, p, exact), p, vs[1..], cursor + vs[0])
  {
    assert LooseAt(ss, j, k, p, exact)[1..] == LooseAt(ss, next, k, p, exact);
  }

  /** What the end of a chain must be to be priced by these shares. */
  predicate Priceable(ss: seq<Session>, after: seq<Session>, j: nat, k: nat, p: string,
                      exact: real, vs: seq<real>, cursor: real)
  {
    && j <= k <= |ss| == |after|
    && (forall i :: j <= i < k && p in ss[i].totals ==> Loose(ss[i], p, exact) && ss[i].status == Settled)
    && (forall i :: j <= i < k && p !in ss[i].totals ==> after[i] == ss[i])
    && |vs| == |LooseAt(ss, j, k, p, exact)|
    && (forall i :: 0 <= i < |vs| ==> vs[i] >= 0.0)
    && PricedBy(ss, after, LooseAt(ss, j, k, p, exact), p, vs, cursor)
    && Prev(after, j, p) == cursor
  }
}

module ClampedChains {
  import opened Wrappers
  import opened Ledger
  import opened Receipts
  import opened Corrections
  import opened Chains
  import opened ShareArithmetic
  import opened Clamping

  lemma PricedOn(ss: seq<Session>, after: seq<Session>, j: nat, k: nat, p: string,
                 exact: real, vs: seq<real>, cursor: real, next: nat)
    requires Priceable(ss, after, j, k, p, exact, vs, cursor) && next == j + 1 <= k && p in ss[j].totals
    ensures |vs| > 0 && Continues(after, j, p)
    ensures Priceable(ss, after, next, k, p, exact, vs[1..], cursor + vs[0])
  {
    PricedFirst(ss, after, j, k, p, exact, vs, cursor, next);
  }

  lemma PricedOff(ss: seq<Session>, after: seq<Session>, j: nat, k: nat, p: string,
                  exact: real, vs: seq<real>, cursor: real, next: nat)
    requires Priceable(ss, after, j, k, p, exact, vs, cursor) && next == j + 1 <= k && p !in ss[j].totals
    ensures Priceable(ss, after, next, k, p, exact, vs, cursor)
  {
  }

  /** Each session of the clamped end continues the chain. */
  lemma {:induction false} PricedAt(ss: seq<Session>, after: seq<Session>, j: nat, k: nat, p: string,
                                    exact: real, vs: seq<real>, cursor: real, i: nat)
    requires Priceable(ss, after, j, k, p, exact, vs, cursor)
    requires j <= i < k && p in ss[i].totals
    ensures Continues(after, i, p)
    decreases k - j
  {
    var next := j + 1;
    if p in ss[j].totals {
      PricedOn(ss, after, j, k, p, exact, vs, cursor, next);
      if i > j {
        PricedAt(ss, after, next, k, p, exact, vs[1..], cursor + vs[0], i);
      }
    } else {
      PricedOff(ss, after, j, k, p, exact, vs, cursor, next);
      PricedAt(ss, after, next, k, p, exact, vs, cursor, i);
    }
  }

  /** The clamped chain ends where all its shares put it. */
  lemma {:induction false} PricedEnd(ss: seq<Session>, after: seq<Session>, j: nat, k: nat, p: string,
                                     exact: real, vs: seq<real>, cursor: real)
    requires Priceable(ss, after, j, k, p, exact, vs, cursor)
    ensures Prev(after, k, p) == cursor + Total(vs)
    decreases k - j
  {
    if j < k {
      var next := j + 1;
      if p in ss[j].totals {
        PricedOn(ss, after, j, k, p, exact, vs, cursor, next);
        PricedEnd(ss, after, next, k, p, exact, vs[1..], cursor + vs[0]);
      } else {
        PricedOff(ss, after, j, k, p, exact, vs, cursor, next);
        PricedEnd(ss, after, next, k, p, exact, vs, cursor);
      }
    }
  }

  /** Where the loose sessions of a clampable chain lie, and what they cost. */
  lemma LooseTail(ss: seq<Session>, k: nat, p: string, native: real) returns (f: nat)
    requires k <= |ss| && Linked(ss) && Clampable(ss, k, p, native)
    ensures var exact := Exact(ss[..k], p);
            var at := LooseAt(ss, 0, k, p, exact);
            && f < k && at == LooseAt(ss, f, k, p, exact)
            && Prev(ss, f, p) == exact
            && CostAt(ss, at) == Prev(ss, k, p) - exact > 0.0
            && (forall i :: 0 <= i < |at| ==> f <= at[i] < k && Cost(ss[at[i]]) >= 0.0)
            && (forall i :: f <= i < k && p in ss[i].totals ==> Loose(ss[i], p, exact) && i in at)
  {
    var exact := Exact(ss[..k], p);
    var at := LooseAt(ss, 0, k, p, exact);
    f := LooseAtFirst(ss, 0, k, p, exact);
    LooseSuffix(ss, f, k, p);
    LooseSpan(ss, f, k, p, exact);
    assert LinkedAt(ss, f);
    PrevMonotone(ss, f + 1, k, p);
    forall i | 0 <= i < |at| ensures f <= at[i] < k && Cost(ss[at[i]]) >= 0.0 {
      assert LinkedAt(ss, at[i]);
    }
    forall i | f <= i < k && p in ss[i].totals ensures i in at {
      LooseAtComplete(ss, 0, k, p, exact, i);
    }
  }

  /** t is s up to amounts, totals already recorded, and bookkeeping of its status. */
  predicate Alike(s: Session, t: Session) {
    && t.id == s.id
    && t.resume == s.resume
    && t.totals.Keys == s.totals.Keys
    && (t.status == Settled <==> s.status == Settled)
  }

  lemma {:induction false} PricedAlike(ss: seq<Session>, after: seq<Session>, at: seq<nat>, p: string,
                                       vs: seq<real>, cursor: real, i: nat)
    requires |after| == |ss| && |vs| == |at| && i < |at|
    requires forall j :: 0 <= j < |at| ==> at[j] < |ss| && ss[at[j]].totals.Keys == {p}
    requires PricedBy(ss, after, at, p, vs, cursor)
    ensures Alike(ss[at[i]], after[at[i]])
    decreases |at|
  {
    if i > 0 {
      PricedAlike(ss, after, at[1..], p, vs[1..], cursor + vs[0], i - 1);
    }
  }

  /** The state after the clamping events of one provider. */
  predicate Clamped(ss: seq<Session>, after: seq<Session>, k: nat, p: string, native: real)
    requires k <= |ss| == |after|
  {
    var exact := Exact(ss[..k], p);
    var at := LooseAt(ss, 0, k, p, exact);
    && PricedBy(ss, after, at, p, Shares(ss, at, native, exact, CostAt(ss, at), exact), exact)
    && forall i :: 0 <= i < k && i !in at ==> after[i] == ss[i]
  }

  /** The loose end of the chain, ready to be priced by its shares. */
  lemma ClampedPriceable(ss: seq<Session>, after: seq<Session>, k: nat, p: string, native: real)
    returns (f: nat, vs: seq<real>)
    requires k <= |ss| == |after| && Linked(ss)
    requires Clampable(ss, k, p, native) && Clamped(ss, after, k, p, native)
    ensures var exact := Exact(ss[..k], p);
            && f < k && Priceable(ss, after, f, k, p, exact, vs, exact)
            && exact + Total(vs) == native
    ensures forall i :: 0 <= i < k && (i < f || p !in ss[i].totals) ==> after[i] == ss[i]
  {
    var exact := Exact(ss[..k], p);
    var at := LooseAt(ss, 0, k, p, exact);
    f := LooseTail(ss, k, p, native);
    vs := ReachingShares(ss, at, native, exact);
    forall i | 0 <= i < k && (i < f || p !in ss[i].totals) ensures after[i] == ss[i] {
      assert i !in at;
    }
    PrevSame(ss, after, 0, f, p);
    forall i | f <= i < k && p in ss[i].totals ensures ss[i].status == Settled {
      assert LinkedAt(ss, i);
    }
  }

  lemma ClampedTail(ss: seq<Session>, after: seq<Session>, k: nat, p: string, native: real) returns (f: nat)
    requires k <= |ss| == |after| && Linked(ss)
    requires Clampable(ss, k, p, native) && Clamped(ss, after, k, p, native)
    ensures f < k && Prev(after, k, p) == native
    ensures forall i :: 0 <= i < k && (i < f || p !in ss[i].totals) ==> after[i] == ss[i]
    ensures forall i :: f <= i < k && p in ss[i].totals ==> Continues(after, i, p)
  {
    var exact := Exact(ss[..k], p);
    var vs;
    f, vs := ClampedPriceable(ss, after, k, p, native);
    PricedEnd(ss, after, f, k, p, exact, vs, exact);
    forall i | f <= i < k && p in ss[i].totals ensures Continues(after, i, p) {
      PricedAt(ss, after, f, k, p, exact, vs, exact, i);
    }
  }

  lemma ReachingShares(ss: seq<Session>, at: seq<nat>, native: real, exact: real) returns (vs: seq<real>)
    requires at != [] && native >= exact
    requires forall i :: 0 <= i < |at| ==> at[i] < |ss| && Cost(ss[at[i]]) >= 0.0
    requires CostAt(ss, at) > 0.0
    ensures vs == Shares(ss, at, native, exact, CostAt(ss, at), exact)
    ensures (forall i :: 0 <= i < |vs| ==> vs[i] >= 0.0) && exact + Total(vs) == native
  {
    var weight := CostAt(ss, at);
    vs := Shares(ss, at, native, exact, weight, exact);
    ScaledEnds(native, exact, weight);
    SharesReach(ss, at, native, exact, weight, 0.0, exact);
  }

  /** Clamping a chain below position k to a native total under its baseline:
      costs stay nonnegative, totals still link from the last authoritative one,
      and together they end exactly at the native total. */
  lemma ClampChain(ss: seq<Session>, after: seq<Session>, k: nat, p: string, native: real)
    requires k <= |ss| == |after| && Linked(ss)
    requires Clampable(ss, k, p, native) && Clamped(ss, after, k, p, native)
    ensures forall i :: 0 <= i < k ==> LinkedAt(after, i)
    ensures forall i :: 0 <= i < k ==> Alike(ss[i], after[i])
    ensures Prev(after, k, p) == native
    ensures forall q, i :: q != p && 0 <= i <= k ==> Prev(after, i, q) == Prev(ss, i, q)
  {
    var f := ClampedTail(ss, after, k, p, native);
    forall i | 0 <= i < k ensures Alike(ss[i], after[i]) {
      ClampedAlike(ss, after, k, p, native, i);
    }
    forall q, i | q != p && 0 <= i <= k ensures Prev(after, i, q) == Prev(ss, i, q) {
      ClampedElsewhere(ss, after, k, p, native, i, q);
    }
    forall i | 0 <= i < k ensures LinkedAt(after, i) {
      ClampLinked(ss, after, k, p, native, i);
    }
  }

  lemma ClampLinked(ss: seq<Session>, after: seq<Session>, k: nat, p: string, native: real, i: nat)
    requires i < k <= |ss| == |after| && Linked(ss)
    requires Clampable(ss, k, p, native) && Clamped(ss, after, k, p, native)
    ensures LinkedAt(after, i)
  {
    var f := ClampedTail(ss, after, k, p, native);
    assert LinkedAt(ss, i);
    ClampedAlike(ss, after, k, p, native, i);
    ClampedOthers(ss, after, k, p, native, i);
    if i < f || p !in ss[i].totals {
      forall q | q in ss[i].totals ensures Prev(after, i, q) == Prev(ss, i, q) {
        if q != p {
          ClampedElsewhere(ss, after, k, p, native, i, q);
        } else {
          PrevSame(ss, after, 0, i, p);
        }
      }
    }
  }

  lemma ClampedAlike(ss: seq<Session>, after: seq<Session>, k: nat, p: string, native: real, i: nat)
    requires i < k <= |ss| == |after| && Clampable(ss, k, p, native) && Clamped(ss, after, k, p, native)
    ensures Alike(ss[i], after[i])
  {
    var exact := Exact(ss[..k], p);
    var at := LooseAt(ss, 0, k, p, exact);
    if i in at {
      var j :| 0 <= j < |at| && at[j] == i;
      PricedAlike(ss, after, at, p, Shares(ss, at, native, exact, CostAt(ss, at), exact), exact, j);
    }
  }

  /** Other providers keep their totals. */
  lemma ClampedElsewhere(ss: seq<Session>, after: seq<Session>, k: nat, p: string, native: real, i: nat, q: string)
    requires i <= k <= |ss| == |after| && q != p && Clampable(ss, k, p, native) && Clamped(ss, after, k, p, native)
    ensures Prev(after, i, q) == Prev(ss, i, q)
  {
    forall j | 0 <= j < i
      ensures q in after[j].totals <==> q in ss[j].totals
      ensures q in ss[j].totals ==> after[j].totals[q] == ss[j].totals[q]
    {
      ClampedAlike(ss, after, k, p, native, j);
      ClampedOthers(ss, after, k, p, native, j);
    }
    PrevSame(ss, after, 0, i, q);
  }

  lemma ClampedOthers(ss: seq<Session>, after: seq<Session>, k: nat, p: string, native: real, j: nat)
    requires j < k <= |ss| == |after| && Clampable(ss, k, p, native) && Clamped(ss, after, k, p, native)
    ensures after[j] == ss[j] || ss[j].totals.Keys == {p}
  {
    var at := LooseAt(ss, 0, k, p, Exact(ss[..k], p));
    assert j in at ==> ss[j].totals.Keys == {p};
  }
}
