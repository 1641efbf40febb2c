/** Which sessions a receipt corrects: clamped estimates before its own session,
    then its own session, then the later sessions up to the first native one. */
module ReceiptEffects {
  import opened Wrappers
  import opened Ledger
  import opened Receipts
  import opened Conservation
  import opened Corrections

  // ---------------------------------------------------------------- clamping

  /** One more target in front. */
  lemma TargetsPrepend(ss: seq<Session>, e: Event, k: nat, events: seq<Event>, at: seq<nat>)
    requires Targets(ss, events, at) && k < |ss| && e.Correct? && e.id == ss[k].id && e.delta == Cost(ss[k]) - e.cost
    requires forall i :: 0 <= i < |at| ==> at[i] != k
    ensures Targets(ss, [e] + events, [k] + at)
  {
  }

  lemma {:induction false} ClampEventsTarget(ss: seq<Session>, at: seq<nat>, p: string,
                                             native: real, exact: real, weight: real, cursor: real)
    requires forall i :: 0 <= i < |at| ==> at[i] < |ss|
    requires forall i, j :: 0 <= i < j < |at| ==> at[i] < at[j]
    ensures Targets(ss, ClampEvents(ss, at, p, native, exact, weight, cursor), at)
    decreases |at|
  {
    if at != [] {
      var value := Share(ss[at[0]], |at| == 1, native, exact, weight, cursor);
      ClampEventsTarget(ss, at[1..], p, native, exact, weight, cursor + value);
      TargetsPrepend(ss, ClampEvent(ss[at[0]], p, value, cursor + value), at[0],
                     ClampEvents(ss, at[1..], p, native, exact, weight, cursor + value), at[1..]);
      assert at == [at[0]] + at[1..];
    }
  }

  /** The positions of the estimates that a receipt clamps. */
  function ClampAt(ss: seq<Session>, upto: nat, entries: Entries): seq<nat>
    requires upto <= |ss|
  {
    if entries == [] then []
    else
      var (p, native) := entries[|entries| - 1];
      var before := ClampAt(ss, upto, entries[..|entries| - 1]);
      if native >= Baseline(ss[..upto], p) then before
      else before + LooseAt(ss, 0, upto, p, Exact(ss[..upto], p))
  }

  /** Every position belongs to a session of just one of these providers. */
  predicate Belong(ss: seq<Session>, at: seq<nat>, entries: Entries) {
    forall i :: 0 <= i < |at| ==>
      at[i] < |ss| && exists j :: 0 <= j < |entries| && ss[at[i]].totals.Keys == {entries[j].0}
  }

  lemma EarlierEntries(ss: seq<Session>, at: seq<nat>, entries: Entries)
    requires entries != [] && DistinctKeys(entries) && Belong(ss, at, entries[..|entries| - 1])
    ensures Belong(ss, at, entries)
    ensures forall i :: 0 <= i < |at| ==> at[i] < |ss| && ss[at[i]].totals.Keys != {entries[|entries| - 1].0}
  {
    var init := entries[..|entries| - 1];
    forall i | 0 <= i < |at|
      ensures at[i] < |ss| && exists j :: 0 <= j < |entries| && ss[at[i]].totals.Keys == {entries[j].0}
      ensures ss[at[i]].totals.Keys != {entries[|entries| - 1].0}
    {
      var j :| 0 <= j < |init| && ss[at[i]].totals.Keys == {init[j].0};
      assert entries[j] == init[j] && entries[j].0 != entries[|entries| - 1].0;
      assert entries[j].0 in ss[at[i]].totals.Keys;
      assert ss[at[i]].totals.Keys == {entries[j].0};
    }
  }

  lemma OneMoreEntry(ss: seq<Session>, upto: nat, before: seq<nat>, loose: seq<nat>, entries: Entries)
    requires entries != [] && upto <= |ss| && Belong(ss, before, entries)
    requires forall i :: 0 <= i < |before| ==> ss[before[i]].totals.Keys != {entries[|entries| - 1].0}
    requires forall i :: 0 <= i < |loose| ==>
               loose[i] < upto && ss[loose[i]].totals.Keys == {entries[|entries| - 1].0}
    ensures Belong(ss, before + loose, entries)
    ensures forall i, j :: 0 <= i < |before| && 0 <= j < |loose| ==> before[i] != loose[j]
  {
    var at := before + loose;
    forall i | 0 <= i < |at|
      ensures at[i] < |ss| && exists j :: 0 <= j < |entries| && ss[at[i]].totals.Keys == {entries[j].0}
    {
      if i >= |before| {
        assert ss[at[i]].totals.Keys == {entries[|entries| - 1].0};
      }
    }
  }

  /** Each clamped position lies before the receipt's session. */
  lemma {:induction false} ClampAllBelong(ss: seq<Session>, upto: nat, entries: Entries)
    requires upto <= |ss| && DistinctKeys(entries) && ClampAll(ss, upto, entries).Some?
    ensures var at := ClampAt(ss, upto, entries);
            (forall i :: 0 <= i < |at| ==> at[i] < upto) && Belong(ss, at, entries)
    decreases |entries|
  {
    if entries != [] {
      var (p, native) := entries[|entries| - 1];
      var init := entries[..|entries| - 1];
      ClampAllBelong(ss, upto, init);
      EarlierEntries(ss, ClampAt(ss, upto, init), entries);
      if native < Baseline(ss[..upto], p) {
        OneMoreEntry(ss, upto, ClampAt(ss, upto, init), LooseAt(ss, 0, upto, p, Exact(ss[..upto], p)), entries);
      }
    }
  }

  /** One more provider clamps sessions that none of the others clamped. */
  lemma LastTargets(ss: seq<Session>, upto: nat, entries: Entries)
    requires upto <= |ss| && entries != [] && DistinctKeys(entries) && ClampAll(ss, upto, entries).Some?
    requires var init := entries[..|entries| - 1];
             Targets(ss, ClampAll(ss, upto, init).value, ClampAt(ss, upto, init))
    ensures Targets(ss, ClampAll(ss, upto, entries).value, ClampAt(ss, upto, entries))
  {
    var (p, native) := entries[|entries| - 1];
    var init := entries[..|entries| - 1];
    if native < Baseline(ss[..upto], p) {
      var exact := Exact(ss[..upto], p);
      var before, loose := ClampAt(ss, upto, init), LooseAt(ss, 0, upto, p, exact);
      ClampEventsTarget(ss, loose, p, native, exact, CostAt(ss, loose), exact);
      ClampAllBelong(ss, upto, init);
      EarlierEntries(ss, before, entries);
      OneMoreEntry(ss, upto, before, loose, entries);
      TargetsConcat(ss, ClampAll(ss, upto, init).value, before, Clamp(ss, upto, p, native), loose);
    }
  }

  /** However many providers a receipt names, each session is clamped at most once. */
  lemma {:induction false} ClampAllTargets(ss: seq<Session>, upto: nat, entries: Entries)
    requires upto <= |ss| && DistinctKeys(entries) && ClampAll(ss, upto, entries).Some?
    ensures Targets(ss, ClampAll(ss, upto, entries).value, ClampAt(ss, upto, entries))
    ensures forall i :: 0 <= i < |ClampAt(ss, upto, entries)| ==> ClampAt(ss, upto, entries)[i] < upto
    decreases |entries|
  {
    if entries != [] {
      ClampAllTargets(ss, upto, entries[..|entries| - 1]);
      LastTargets(ss, upto, entries);
    }
    ClampAllBelong(ss, upto, entries);
  }

  // --------------------------------------------------------------- rebasing

  /** The later sessions whose baseline or cost a changed cost reaches. */
  function RebaseAt(ss: seq<Session>, from: nat, keys: set<string>): seq<nat>
    requires from <= |ss|
    decreases |ss| - from
  {
    if from == |ss| then []
    else if !Touches(ss[from], keys) then RebaseAt(ss, from + 1, keys)
    else if Estimated(ss[from].provenance) then [from] + RebaseAt(ss, from + 1, keys)
    else [from]
  }

  lemma {:induction false} RebaseTargets(ss: seq<Session>, from: nat, keys: set<string>, delta: real)
    requires from <= |ss| && Rebase(ss, from, keys, delta).Ok?
    ensures Targets(ss, Rebase(ss, from, keys, delta).value, RebaseAt(ss, from, keys))
    ensures forall i :: 0 <= i < |RebaseAt(ss, from, keys)| ==> from <= RebaseAt(ss, from, keys)[i]
    decreases |ss| - from
  {
    if from < |ss| {
      if !Touches(ss[from], keys) {
        RebaseTargets(ss, from + 1, keys, delta);
      } else if Estimated(ss[from].provenance) {
        RebaseTargets(ss, from + 1, keys, delta);
        TargetsPrepend(ss, RebaseEvent(ss[from], delta), from,
                       Rebase(ss, from + 1, keys, delta).value, RebaseAt(ss, from + 1, keys));
      }
    }
  }

  // -------------------------------------------------------- whole corrections

  /** The sessions that a late receipt for the settled estimate at position k corrects. */
  function LateAt(ss: seq<Session>, k: nat, entries: Entries): seq<nat>
    requires k < |ss|
  {
    ClampAt(ss, k, entries) + [k] + RebaseAt(ss, k + 1, AsTotals(entries).Keys)
  }

  lemma LateTargets(ss: seq<Session>, k: nat, entries: Entries, own: Event, delta: real)
    requires k < |ss| && DistinctKeys(entries) && ClampAll(ss, k, entries).Some?
    requires Rebase(ss, k + 1, AsTotals(entries).Keys, delta).Ok?
    requires own.Correct? && own.id == ss[k].id && own.delta == Cost(ss[k]) - own.cost
    ensures Targets(ss, ClampAll(ss, k, entries).value + [own]
                        + Rebase(ss, k + 1, AsTotals(entries).Keys, delta).value,
                    LateAt(ss, k, entries))
  {
    var keys := AsTotals(entries).Keys;
    ClampAllTargets(ss, k, entries);
    RebaseTargets(ss, k + 1, keys, delta);
    TargetsConcat(ss, ClampAll(ss, k, entries).value, ClampAt(ss, k, entries), [own], [k]);
    TargetsConcat(ss, ClampAll(ss, k, entries).value + [own], ClampAt(ss, k, entries) + [k],
                  Rebase(ss, k + 1, keys, delta).value, RebaseAt(ss, k + 1, keys));
  }
}
