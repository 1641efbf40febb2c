/** Keeping the later part of a chain consistent after an earlier cost changed. */
module Rebasing {
  import opened Wrappers
  import opened Ledger
  import opened Receipts
  import opened Corrections
  import opened ReceiptEffects
  import opened Chains
  import opened ShareArithmetic
  import opened Clamping
  import opened ClampedChains

  /** From position j on, later estimates of the chain have their totals shifted and
      the first authoritative session absorbs the change in its cost. */
  predicate RebasedBy(ss: seq<Session>, out: seq<Session>, j: nat, p: string, delta: real)
    requires j <= |ss| == |out|
    decreases |ss| - j
  {
    if j == |ss| then true
    else if p !in ss[j].totals then out[j] == ss[j] && RebasedBy(ss, out, j + 1, p, delta)
    else if Estimated(ss[j].provenance) then
      && Repriced(ss[j], out[j], Cost(ss[j]), Shift(ss[j].totals, delta))
      && RebasedBy(ss, out, j + 1, p, delta)
    else
      && Cost(ss[j]) >= delta
      && Repriced(ss[j], out[j], Cost(ss[j]) - delta, ss[j].totals)
      && forall m :: j < m < |ss| ==> out[m] == ss[m]
  }

  /** out is ss with these corrections at these positions, from position j on. */
  predicate CorrectedFrom(ss: seq<Session>, out: seq<Session>, j: nat, events: seq<Event>, at: seq<nat>)
    requires j <= |ss| == |out|
  {
    && |events| == |at|
    && (forall i :: 0 <= i < |at| ==>
          j <= at[i] < |ss| && events[i].Correct? && out[at[i]] == Correcting(ss[at[i]], events[i]))
    && (forall m :: j <= m < |ss| && m !in at ==> out[m] == ss[m])
  }

  lemma TouchesChain(ss: seq<Session>, j: nat, p: string)
    requires j < |ss| && LinkedAt(ss, j)
    ensures Touches(ss[j], {p}) <==> p in ss[j].totals
    ensures p in ss[j].totals ==> ss[j].totals.Keys == {p} && ss[j].cost.Some?
  {
    if p in ss[j].totals {
      assert p in ss[j].totals.Keys * {p};
    }
  }

  lemma CorrectedTail(ss: seq<Session>, out: seq<Session>, j: nat, events: seq<Event>, at: seq<nat>)
    requires j < |ss| == |out| && CorrectedFrom(ss, out, j, events, at)
    requires at != [] && at[0] == j && forall i :: 1 <= i < |at| ==> at[i] > j
    ensures CorrectedFrom(ss, out, j + 1, events[1..], at[1..])
  {
    forall m | j + 1 <= m < |ss| && m !in at[1..] ensures out[m] == ss[m] {
      assert m !in at;
    }
  }

  lemma CorrectedSkip(ss: seq<Session>, out: seq<Session>, j: nat, events: seq<Event>, at: seq<nat>)
    requires j < |ss| == |out| && CorrectedFrom(ss, out, j, events, at)
    requires forall i :: 0 <= i < |at| ==> at[i] > j
    ensures out[j] == ss[j] && CorrectedFrom(ss, out, j + 1, events, at)
  {
    assert j !in at;
  }

  lemma CorrectedOnly(ss: seq<Session>, out: seq<Session>, j: nat, e: Event)
    requires j < |ss| == |out| && CorrectedFrom(ss, out, j, [e], [j])
    ensures e.Correct? && out[j] == Correcting(ss[j], e)
    ensures forall m :: j < m < |ss| ==> out[m] == ss[m]
  {
    assert [j][0] == j;
    forall m | j < m < |ss| ensures out[m] == ss[m] {
      assert m !in [j];
    }
  }

  /** The first later estimate is rebased, and the rest of the chain follows. */
  lemma EstimateRebased(ss: seq<Session>, out: seq<Session>, j: nat, p: string, delta: real)
    requires j < |ss| == |out| && LinkedAt(ss, j) && p in ss[j].totals && Estimated(ss[j].provenance)
    requires Rebase(ss, j, {p}, delta).Ok?
    requires CorrectedFrom(ss, out, j, Rebase(ss, j, {p}, delta).value, RebaseAt(ss, j, {p}))
    ensures out[j] == Correcting(ss[j], RebaseEvent(ss[j], delta))
    ensures Rebase(ss, j + 1, {p}, delta).Ok?
    ensures CorrectedFrom(ss, out, j + 1, Rebase(ss, j + 1, {p}, delta).value, RebaseAt(ss, j + 1, {p}))
  {
    TouchesChain(ss, j, p);
    var events, at := Rebase(ss, j, {p}, delta).value, RebaseAt(ss, j, {p});
    var rest, restAt := Rebase(ss, j + 1, {p}, delta).value, RebaseAt(ss, j + 1, {p});
    RebaseTargets(ss, j + 1, {p}, delta);
    assert events == [RebaseEvent(ss[j], delta)] + rest && at == [j] + restAt;
    CorrectedTail(ss, out, j, events, at);
    assert events[1..] == rest && at[1..] == restAt;
    assert out[at[0]] == Correcting(ss[j], events[0]);
  }

  lemma {:induction false} EventsRebase(ss: seq<Session>, out: seq<Session>, j: nat, p: string, delta: real)
    requires j <= |ss| == |out| && Linked(ss)
    requires Rebase(ss, j, {p}, delta).Ok?
    requires CorrectedFrom(ss, out, j, Rebase(ss, j, {p}, delta).value, RebaseAt(ss, j, {p}))
    ensures RebasedBy(ss, out, j, p, delta)
    decreases |ss| - j
  {
    if j < |ss| {
      assert LinkedAt(ss, j);
      TouchesChain(ss, j, p);
      var events, at := Rebase(ss, j, {p}, delta).value, RebaseAt(ss, j, {p});
      if p !in ss[j].totals {
        RebaseTargets(ss, j + 1, {p}, delta);
        CorrectedSkip(ss, out, j, events, at);
        EventsRebase(ss, out, j + 1, p, delta);
      } else if Estimated(ss[j].provenance) {
        EstimateRebased(ss, out, j, p, delta);
        EventsRebase(ss, out, j + 1, p, delta);
      } else {
        CorrectedOnly(ss, out, j, AdjustEvent(ss[j], delta));
      }
    }
  }

  lemma {:induction false} RestLinked(ss: seq<Session>, out: seq<Session>, j: nat, m: nat)
    requires j <= m < |ss| == |out| && Linked(ss)
    requires forall q :: Prev(out, j, q) == Prev(ss, j, q)
    requires forall i :: j <= i < |ss| ==> out[i] == ss[i]
    ensures LinkedAt(out, m)
  {
    assert LinkedAt(ss, m);
    forall q ensures Prev(out, m, q) == Prev(ss, m, q) {
      PrevSame(ss, out, j, m, q);
    }
  }

  /** When the change of the previous total is exactly delta, every later session
      still costs its total minus the previous one. */
  lemma {:induction false} RebaseKeepsChain(ss: seq<Session>, out: seq<Session>, j: nat, p: string, delta: real, m: nat)
    requires j <= m < |ss| == |out| && Linked(ss) && RebasedBy(ss, out, j, p, delta)
    requires Prev(out, j, p) == Prev(ss, j, p) + delta
    requires forall q :: q != p ==> Prev(out, j, q) == Prev(ss, j, q)
    ensures LinkedAt(out, m)
    decreases |ss| - j
  {
    assert LinkedAt(ss, j);
    if p !in ss[j].totals || Estimated(ss[j].provenance) {
      if m > j {
        RebaseKeepsChain(ss, out, j + 1, p, delta, m);
      }
    } else if m > j {
      RestLinked(ss, out, j + 1, m);
    }
  }

  /** Otherwise the first later session of the chain is off. */
  lemma {:induction false} RebaseBreaksChain(ss: seq<Session>, out: seq<Session>, j: nat, p: string, delta: real,
                                             m: nat)
    requires j <= m < |ss| == |out| && Linked(ss) && RebasedBy(ss, out, j, p, delta)
    requires Prev(out, j, p) != Prev(ss, j, p) + delta
    requires p in ss[m].totals
    ensures !Linked(out)
    decreases |ss| - j
  {
    assert LinkedAt(ss, j);
    if p in ss[j].totals {
      assert !LinkedAt(out, j);
    } else {
      RebaseBreaksChain(ss, out, j + 1, p, delta, m);
    }
  }

  /** Nothing later is on the chain: later sessions are untouched. */
  lemma {:induction false} RebaseNothing(ss: seq<Session>, out: seq<Session>, j: nat, p: string, delta: real)
    requires j <= |ss| == |out| && RebasedBy(ss, out, j, p, delta)
    requires forall m :: j <= m < |ss| ==> p !in ss[m].totals
    ensures forall m :: j <= m < |ss| ==> out[m] == ss[m]
    decreases |ss| - j
  {
    if j < |ss| {
      RebaseNothing(ss, out, j + 1, p, delta);
    }
  }
}
