/** What each kind of settlement takes from the money left for admissions. */
module Availability {
  import opened Wrappers
  import opened Ledger
  import opened Selection
  import opened Receipts
  import opened Writers
  import opened Conservation
  import opened Corrections
  import opened ReceiptEffects
  import opened Chains
  import opened ShareArithmetic
  import opened Clamping
  import opened ClampedChains
  import opened ClampTheorem
  import opened ChainSteps
  import opened Charges
  import opened SolventRuns
  import ChainRuns

  /** What corrections give back. */
  function Deltas(events: seq<Event>): real
    decreases |events|
  {
    if events == [] then 0.0 else (if events[0].Correct? then events[0].delta else 0.0) + Deltas(events[1..])
  }

  lemma {:induction false} DeltasConcat(a: seq<Event>, b: seq<Event>)
    ensures Deltas(a + b) == Deltas(a) + Deltas(b)
    decreases |a|
  {
    if a == [] {
      assert a + b == b;
    } else {
      assert (a + b)[1..] == a[1..] + b;
      DeltasConcat(a[1..], b);
    }
  }

  lemma OneCorrection(st: State, e: Event, stamp: real)
    requires UniqueIds(st.sessions) && e.Correct? && Apply(st, e, stamp).Some?
    ensures var next := Apply(st, e, stamp).value;
            UniqueIds(next.sessions) && Available(next) == Available(st) + e.delta
  {
    var s := Correcting(Get(st.sessions, e.id), e);
    PutInPlace(st.sessions, s);
    SumByUpdate(Pending, st.sessions, IndexOf(st.sessions, e.id), s);
  }

  lemma {:induction false} CorrectionsAvailable(st: State, events: seq<Event>, stamp: real)
    requires UniqueIds(st.sessions) && (forall i :: 0 <= i < |events| ==> events[i].Correct?)
    requires ApplyAll(st, events, stamp).Some?
    ensures var next := ApplyAll(st, events, stamp).value;
            UniqueIds(next.sessions) && Available(next) == Available(st) + Deltas(events)
    decreases |events|
  {
    if events != [] {
      OneCorrection(st, events[0], stamp);
      CorrectionsAvailable(Apply(st, events[0], stamp).value, events[1..], stamp);
    }
  }

  /** Reversing a prefix, if there is one, and settling. */
  lemma UndoneAvailable(base: State, k: nat, last: Event, stamp: real)
    requires UniqueIds(base.sessions) && k < |base.sessions| && base.sessions[k].status != Settled
    requires last.Settle? && last.id == base.sessions[k].id
    ensures var next := ApplyAll(base, Undo(base.sessions[k]) + [last], stamp);
            && next.Some?
            && Available(next.value)
               == Available(base) + Pending(base.sessions[k]) + Cost(base.sessions[k]) - last.cost
  {
    var undo := Undo(base.sessions[k]);
    if undo != [] {
      CorrectOne(base, undo[0], k, stamp);
      OneCorrection(base, undo[0], stamp);
      assert (undo + [last])[1..] == [last];
      SettledAvailable(Apply(base, undo[0], stamp).value, k, last, stamp);
    } else {
      assert undo + [last] == [last];
      SettledAvailable(base, k, last, stamp);
    }
  }

  // --------------------------------------------------------- holds and journals

  lemma HeldPending(s: Session, e: Event)
    requires e.Unresolve? && e.hold.Some?
    ensures Pending(Unresolving(s, e)) == e.hold.value.reserve && Unresolving(s, e).id == s.id
  {
  }

  lemma HeldAvailable(base: State, e: Event, stamp: real)
    requires UniqueIds(base.sessions) && e.Unresolve? && e.hold.Some? && Has(base.sessions, e.id)
    requires Get(base.sessions, e.id).status != Settled
    ensures var next := ApplyAll(base, [e], stamp);
            && next.Some?
            && Available(next.value) == Available(base) + Pending(Get(base.sessions, e.id)) - e.hold.value.reserve
  {
    var s := Unresolving(Get(base.sessions, e.id), e);
    HeldPending(Get(base.sessions, e.id), e);
    PutInPlace(base.sessions, s);
    SumByUpdate(Pending, base.sessions, IndexOf(base.sessions, e.id), s);
    assert Apply(base, e, stamp) == Some(base.(sessions := base.sessions[IndexOf(base.sessions, e.id) := s]));
    ChainRuns.OneEvent(base, e, stamp);
  }

  /** The accrual at the start of a transaction changes funds only. */
  lemma BeginAvailable(st: State, rest: seq<Event>, t: Ticks) returns (base: State)
    ensures After(st, Append([AccrueEvent(st, t.accrual)] + rest), t) == ApplyAll(base, rest, t.stamp)
    ensures base.sessions == st.sessions && Available(base) == Available(Accrued(st, t.accrual))
  {
    AfterAccrual(st, rest, t);
    base := Started(st, t.accrual);
  }

  /** A lower bound exchanges the old reservation for the new one, which is the least amount
      that covers what is known and a further estimate. */
  lemma BoundAvailable(st: State, r: Receipt, known: real, estimate: real, t: Ticks, other: real)
    returns (reserve: real, further: real)
    requires UniqueIds(st.sessions) && Has(st.sessions, r.id) && Get(st.sessions, r.id).status != Settled
    requires BoundTx(st, r, known, estimate, t).Append?
    ensures var next := After(st, BoundTx(st, r, known, estimate, t), t);
            && next.Some?
            && Available(next.value) == Available(Accrued(st, t.accrual)) + Pending(Get(st.sessions, r.id)) - reserve
    ensures FurtherEstimate(further, Get(st.sessions, r.id), estimate, known)
    ensures Covers(reserve, Get(st.sessions, r.id), known, further)
    ensures Covers(other, Get(st.sessions, r.id), known, further) ==> reserve <= other
  {
    var tx := BoundTx(st, r, known, estimate, t);
    var hold := tx.events[1];
    reserve := hold.hold.value.reserve;
    further := LeastReserve(st, r, known, estimate, t, hold, other);
    assert tx == Append([AccrueEvent(st, t.accrual)] + [hold]);
    var base := BeginAvailable(st, [hold], t);
    HeldAvailable(base, hold, t.stamp);
  }

  lemma LeastReserve(st: State, r: Receipt, known: real, estimate: real, t: Ticks, hold: Event, other: real)
    returns (further: real)
    requires Has(st.sessions, r.id) && BoundTx(st, r, known, estimate, t).Append?
    requires hold == BoundTx(st, r, known, estimate, t).events[1]
    ensures hold.Unresolve? && hold.hold.Some?
    ensures FurtherEstimate(further, Get(st.sessions, r.id), estimate, known)
    ensures Covers(hold.hold.value.reserve, Get(st.sessions, r.id), known, further)
    ensures Covers(other, Get(st.sessions, r.id), known, further) ==> hold.hold.value.reserve <= other
  {
    var s := Get(st.sessions, r.id);
    further := if s.provenance == Some(TokenPricedPrefix) && s.tail.Some? then s.tail.value
               else Max(Max(s.estimate, estimate), known);
  }

  lemma PrefixOnBase(base: State, k: nat, stamp: (string, real), cost: real, tail: real, at: real)
    requires UniqueIds(base.sessions) && k < |base.sessions| && base.sessions[k].status != Settled
    ensures var s := base.sessions[k];
            var next := ApplyAll(base, PrefixEvents(s, stamp, cost, tail), at);
            next.Some? && Available(next.value) == Available(base) + Pending(s) + Cost(s) - cost - tail
  {
    var events := PrefixEvents(base.sessions[k], stamp, cost, tail);
    assert events[1..] == [events[1]];
    CorrectOne(base, events[0], k, at);
    OneCorrection(base, events[0], at);
    var mid := Apply(base, events[0], at).value;
    IndexOfUnique(mid.sessions, k);
    HeldAvailable(mid, events[1], at);
  }

  /** A charged prefix takes its cost and reserves the tail, in place of the old charge
      and reservation. */
  lemma PrefixAvailable(st: State, k: nat, stamp: (string, real), cost: real, tail: real, t: Ticks)
    requires UniqueIds(st.sessions) && k < |st.sessions| && st.sessions[k].status != Settled
    ensures var s := st.sessions[k];
            var next := After(st, Append([AccrueEvent(st, t.accrual)] + PrefixEvents(s, stamp, cost, tail)), t);
            && next.Some?
            && Available(next.value) == Available(Accrued(st, t.accrual)) + Pending(s) + Cost(s) - cost - tail
            && (Available(next.value) >= Available(Accrued(st, t.accrual)) <==> cost + tail <= Pending(s) + Cost(s))
  {
    var base := BeginAvailable(st, PrefixEvents(st.sessions[k], stamp, cost, tail), t);
    PrefixOnBase(base, k, stamp, cost, tail, t.stamp);
  }

  /** A complete journal takes its cost in place of the old charge and reservation. */
  lemma EstimateAvailable(st: State, k: nat, saved: Saved, cost: real, t: Ticks)
    requires UniqueIds(st.sessions) && k < |st.sessions| && st.sessions[k].status != Settled
    ensures var s := st.sessions[k];
            var tx := Append([AccrueEvent(st, t.accrual)] + EstimateEvents(s, st.sessions[..k], saved, cost));
            && After(st, tx, t).Some?
            && Available(After(st, tx, t).value) == Available(Accrued(st, t.accrual)) + Pending(s) + Cost(s) - cost
            && (Available(After(st, tx, t).value) >= Available(Accrued(st, t.accrual)) <==>
                  cost <= Pending(s) + Cost(s))
  {
    var s := st.sessions[k];
    var events := EstimateEvents(s, st.sessions[..k], saved, cost);
    var last := events[|events| - 1];
    assert events == Undo(s) + [last];
    var base := BeginAvailable(st, events, t);
    UndoneAvailable(base, k, last, t.stamp);
  }

  // ------------------------------------------------------------ native receipts

  /** The first native receipt: clamping gives back, and the charge is taken in place of
      the old charge and reservation. */
  lemma FirstReceiptAvailable(st: State, k: nat, r: Receipt, entries: Entries, clamps: seq<Event>, t: Ticks)
    requires UniqueIds(st.sessions) && k < |st.sessions| && st.sessions[k].status != Settled
    requires DistinctKeys(entries) && ClampAll(st.sessions, k, entries) == Some(clamps)
    ensures var s := st.sessions[k];
            var next := After(st, NativeTx(st, k, r, entries, clamps, t), t);
            && next.Some?
            && Available(next.value)
               == Available(Accrued(st, t.accrual)) + Pending(s) + Cost(s)
                  - Charge(st.sessions[..k], entries) + Deltas(clamps)
  {
    var s := st.sessions[k];
    var settle := SettleEvents(s, r, entries, Charge(st.sessions[..k], entries));
    var last := settle[|settle| - 1];
    assert settle == Undo(s) + [last];
    var base := BeginAvailable(st, clamps + settle, t);
    var mid := ClampsApplied(base, k, entries, clamps, t.stamp);
    UndoneAvailable(mid, k, last, t.stamp);
    ApplyAllConcat(base, clamps, settle, t.stamp);
  }

  lemma ClampsApplied(base: State, k: nat, entries: Entries, clamps: seq<Event>, stamp: real) returns (mid: State)
    requires UniqueIds(base.sessions) && k < |base.sessions|
    requires DistinctKeys(entries) && ClampAll(base.sessions, k, entries) == Some(clamps)
    ensures ApplyAll(base, clamps, stamp) == Some(mid) && UniqueIds(mid.sessions) && |mid.sessions| == |base.sessions|
    ensures mid.sessions[k] == base.sessions[k] && Available(mid) == Available(base) + Deltas(clamps)
  {
    var at := ClampAt(base.sessions, k, entries);
    ClampAllTargets(base.sessions, k, entries);
    CorrectAll(base, clamps, at, stamp);
    CorrectionsAvailable(base, clamps, stamp);
    mid := ApplyAll(base, clamps, stamp).value;
    assert k !in at;
  }

  /** A late native receipt: only the corrections count. */
  lemma LateReceiptAvailable(st: State, k: nat, r: Receipt, entries: Entries, clamps: seq<Event>, later: seq<Event>,
                             t: Ticks)
    requires UniqueIds(st.sessions) && k < |st.sessions| && st.sessions[k].status == Settled
    requires DistinctKeys(entries) && ClampAll(st.sessions, k, entries) == Some(clamps)
    requires Rebase(st.sessions, k + 1, AsTotals(entries).Keys,
                    Charge(st.sessions[..k], entries) - Cost(st.sessions[k])) == Ok(later)
    ensures var next := After(st, NativeTx(st, k, r, entries, clamps, t), t);
            && next.Some?
            && Available(next.value)
               == Available(Accrued(st, t.accrual)) + Cost(st.sessions[k]) - Charge(st.sessions[..k], entries)
                  + Deltas(clamps) + Deltas(later)
  {
    var cost := Charge(st.sessions[..k], entries);
    var own := OwnCorrection(st.sessions[k], r, entries, cost);
    LateTx(st, k, r, entries, clamps, later, t);
    var base := BeginAvailable(st, clamps + ([own] + later), t);
    LateOnBase(base, k, entries, clamps, own, later, cost - Cost(st.sessions[k]), t.stamp);
  }

  lemma LateTx(st: State, k: nat, r: Receipt, entries: Entries, clamps: seq<Event>, later: seq<Event>, t: Ticks)
    requires k < |st.sessions| && st.sessions[k].status == Settled
    requires Rebase(st.sessions, k + 1, AsTotals(entries).Keys,
                    Charge(st.sessions[..k], entries) - Cost(st.sessions[k])) == Ok(later)
    ensures var own := OwnCorrection(st.sessions[k], r, entries, Charge(st.sessions[..k], entries));
            NativeTx(st, k, r, entries, clamps, t) == Append([AccrueEvent(st, t.accrual)] + (clamps + ([own] + later)))
  {
  }

  lemma LateOnBase(base: State, k: nat, entries: Entries, clamps: seq<Event>, own: Event, later: seq<Event>,
                   delta: real, stamp: real)
    requires UniqueIds(base.sessions) && k < |base.sessions| && DistinctKeys(entries)
    requires ClampAll(base.sessions, k, entries) == Some(clamps)
    requires Rebase(base.sessions, k + 1, AsTotals(entries).Keys, delta) == Ok(later)
    requires own.Correct? && own.id == base.sessions[k].id && own.delta == Cost(base.sessions[k]) - own.cost
    ensures var next := ApplyAll(base, clamps + ([own] + later), stamp);
            next.Some? && Available(next.value) == Available(base) + Deltas(clamps) + own.delta + Deltas(later)
  {
    var events := clamps + [own] + later;
    assert clamps + ([own] + later) == events;
    LateTargets(base.sessions, k, entries, own, delta);
    CorrectAll(base, events, LateAt(base.sessions, k, entries), stamp);
    CorrectionsAvailable(base, events, stamp);
    DeltasThree(clamps, own, later);
  }

  lemma DeltasThree(a: seq<Event>, e: Event, b: seq<Event>)
    requires e.Correct?
    ensures Deltas(a + [e] + b) == Deltas(a) + e.delta + Deltas(b)
  {
    DeltasConcat(a + [e], b);
    DeltasConcat(a, [e]);
    assert [e][1..] == [];
  }

  // --------------------------------------------------------------- on a chain

  lemma {:induction false} SharesDeltas(ss: seq<Session>, events: seq<Event>, at: seq<nat>, p: string,
                                        vs: seq<real>, ts: seq<real>)
    requires forall i :: 0 <= i < |at| ==> at[i] < |ss|
    requires GivesShares(ss, events, at, p, vs, ts)
    ensures Deltas(events) == CostAt(ss, at) - Total(vs)
    decreases |at|
  {
    if at != [] {
      SharesDeltas(ss, events[1..], at[1..], p, vs[1..], ts[1..]);
    }
  }

  /** On a chain clamping gives back exactly what the baseline exceeded the total by. */
  lemma ClampDeltas(ss: seq<Session>, k: nat, p: string, native: real)
    requires Linked(ss) && k <= |ss| && Clampable(ss, k, p, native)
    ensures Deltas(Clamp(ss, k, p, native)) == Baseline(ss[..k], p) - native
  {
    forall i | 0 <= i < k && p in ss[i].totals ensures Cost(ss[i]) >= 0.0 {
      assert LinkedAt(ss, i);
    }
    var vs, ts := ClampSplits(ss, k, p, native);
    var at := LooseAt(ss, 0, k, p, Exact(ss[..k], p));
    SharesDeltas(ss, Clamp(ss, k, p, native), at, p, vs, ts);
    var f := LooseTail(ss, k, p, native);
    BaselineIsPrev(ss, k, p);
  }

  /** On a chain the first native receipt, clamped or not, takes exactly what its total
      adds to the baseline, in place of the old charge and reservation. */
  lemma ChainReceiptAvailable(st: State, k: nat, r: Receipt, p: string, native: real, clamps: seq<Event>, t: Ticks)
    requires UniqueIds(st.sessions) && Linked(st.sessions) && k < |st.sessions| && st.sessions[k].status != Settled
    requires ClampAll(st.sessions, k, [(p, native)]) == Some(clamps)
    ensures var s, added := st.sessions[k], native - Baseline(st.sessions[..k], p);
            var next := After(st, NativeTx(st, k, r, [(p, native)], clamps, t), t);
            && next.Some?
            && Available(next.value) == Available(Accrued(st, t.accrual)) + Pending(s) + Cost(s) - added
            && (Available(next.value) >= Available(Accrued(st, t.accrual)) <==> added <= Pending(s) + Cost(s))
  {
    FirstReceiptAvailable(st, k, r, [(p, native)], clamps, t);
    ChainRuns.OneProvider(st.sessions, k, p, native);
    if native < Baseline(st.sessions[..k], p) {
      ClampDeltas(st.sessions, k, p, native);
    }
  }
}
