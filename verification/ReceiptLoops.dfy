/** The loops with which a receipt is settled against its related sessions. */
module ReceiptLoops {
  import opened Wrappers
  import opened Ledger
  import opened Receipts
  import opened RelatedRows

  // --------------------------------------------------------------- baselines

  /** The provider's entry in a baseline dictionary, zero when it has none. */
  function Known(baseline: map<string, real>, p: string): real {
    if p in baseline then baseline[p] else 0.0
  }

  /** The largest total of each provider over the sessions before the receipt's own. */
  method Baselines(prior: seq<Session>) returns (baseline: map<string, real>)
    ensures forall p :: Known(baseline, p) == Baseline(prior, p)
  {
    baseline := map[];
    var i := 0;
    while i < |prior|
      invariant i <= |prior|
      invariant forall p :: Known(baseline, p) == Baseline(prior[..i], p)
    {
      assert prior[..i + 1] == prior[..i] + [prior[i]];
      forall p ensures Baseline(prior[..i + 1], p)
                    == (if p in prior[i].totals then Max(Baseline(prior[..i], p), prior[i].totals[p])
                        else Baseline(prior[..i], p))
      {
        BaselineAppend(prior[..i], prior[i], p);
      }
      var totals := prior[i].totals;
      baseline := baseline + map p | p in totals :: Max(Known(baseline, p), totals[p]);
      i := i + 1;
    }
    assert prior[..|prior|] == prior;
  }

  // ---------------------------------------------------------------- clamping

  lemma {:induction false} LooseAppend(ss: seq<Session>, s: Session, p: string, exact: real)
    ensures LooseRows(ss + [s], p, exact)
         == LooseRows(ss, p, exact) + (if Loose(s, p, exact) then [s] else [])
    decreases |ss|
  {
    if ss == [] {
      assert [] + [s] == [s] && [s][1..] == [];
      assert LooseRows([s], p, exact) == if Loose(s, p, exact) then [s] else [];
    } else {
      assert (ss + [s])[1..] == ss[1..] + [s];
      LooseAppend(ss[1..], s, p, exact);
    }
  }

  /** The last exact total of a provider and the estimates above it. */
  method Trailing(prior: seq<Session>, p: string) returns (exact: real, estimates: seq<Session>)
    ensures exact == Exact(prior, p) && estimates == LooseRows(prior, p, exact)
  {
    exact := 0.0;
    for i := 0 to |prior|
      invariant exact == Exact(prior[..i], p)
    {
      assert prior[..i + 1] == prior[..i] + [prior[i]];
      BaselineAppend(prior[..i], prior[i], p);
      if p in prior[i].totals && !Estimated(prior[i].provenance) {
        exact := Max(exact, prior[i].totals[p]);
      }
    }
    assert prior[..|prior|] == prior;
    estimates := [];
    for i := 0 to |prior|
      invariant estimates == LooseRows(prior[..i], p, exact)
    {
      assert prior[..i + 1] == prior[..i] + [prior[i]];
      LooseAppend(prior[..i], prior[i], p, exact);
      if p in prior[i].totals && Estimated(prior[i].provenance) && prior[i].totals[p] > exact {
        estimates := estimates + [prior[i]];
      }
    }
  }

  lemma RowEventsStep(rows: seq<Session>, i: nat, p: string, native: real, exact: real, weight: real, cursor: real)
    requires i < |rows|
    ensures var value := Share(rows[i], i == |rows| - 1, native, exact, weight, cursor);
            RowEvents(rows[i..], p, native, exact, weight, cursor)
            == [ClampEvent(rows[i], p, value, cursor + value)]
               + RowEvents(rows[i + 1..], p, native, exact, weight, cursor + value)
  {
    assert rows[i..][1..] == rows[i + 1..];
  }

  /** Splits `native - exact` over the estimates, in proportion to their costs. */
  method Spread(estimates: seq<Session>, p: string, native: real, exact: real)
    returns (events: seq<Event>, cursor: real)
    ensures events == RowEvents(estimates, p, native, exact, RowCosts(estimates), exact)
    ensures estimates != [] ==> cursor == native
  {
    var weight := 0.0;
    for i := 0 to |estimates|
      invariant weight + RowCosts(estimates[i..]) == RowCosts(estimates)
    {
      assert estimates[i..][1..] == estimates[i + 1..];
      weight := weight + Cost(estimates[i]);
    }
    events, cursor := [], exact;
    for i := 0 to |estimates|
      invariant events + RowEvents(estimates[i..], p, native, exact, weight, cursor)
             == RowEvents(estimates, p, native, exact, weight, exact)
      invariant i == |estimates| > 0 ==> cursor == native
    {
      var prior := estimates[i];
      var value := Share(prior, i == |estimates| - 1, native, exact, weight, cursor);
      RowEventsStep(estimates, i, p, native, exact, weight, cursor);
      cursor := cursor + value;
      events := events + [Correct(prior.id, Cost(prior) - value, value, Some(map[p := cursor]), prior.provenance,
                                  Unstated)];
    }
  }

  /** The entry lies below the dictionary's baseline. */
  predicate Below(entries: Entries, i: int, baseline: map<string, real>) {
    0 <= i < |entries| && entries[i].1 < Known(baseline, entries[i].0)
  }

  /** For the first n entries the dictionary holds the baseline after clamping. */
  predicate Reached(prior: seq<Session>, entries: Entries, n: nat, baseline: map<string, real>)
    requires n <= |entries|
  {
    forall i :: 0 <= i < n ==>
      Known(baseline, entries[i].0) == entries[i].1 - Max(0.0, entries[i].1 - Baseline(prior, entries[i].0))
  }

  /** Clamps one provider, or finds that it cannot be clamped. */
  method ClampProvider(prior: seq<Session>, p: string, native: real)
    returns (events: Option<seq<Event>>, cursor: real)
    ensures events == ClampRows(prior, p, native)
    ensures events.Some? ==> cursor == native
  {
    var exact, estimates := Trailing(prior, p);
    if native < exact || estimates == [] || exists k :: 0 <= k < |estimates| && estimates[k].totals.Keys != {p} {
      return None, 0.0;
    }
    var corrections, reached := Spread(estimates, p, native, exact);
    return Some(corrections), reached;
  }

  lemma ClampAllStep(prior: seq<Session>, entries: Entries, i: nat)
    requires i < |entries|
    ensures ClampAllRows(prior, entries[..i + 1]) ==
            var before := ClampAllRows(prior, entries[..i]);
            var more := ClampRows(prior, entries[i].0, entries[i].1);
            if before.None? || entries[i].1 >= Baseline(prior, entries[i].0) then before
            else if more.None? then None
            else Some(before.value + more.value)
  {
    assert entries[..i + 1][..i] == entries[..i] && entries[..i + 1][i] == entries[i];
  }

  /** Updating one provider leaves those of the other entries alone. */
  lemma ReachedStep(prior: seq<Session>, entries: Entries, i: nat, before: map<string, real>, after: map<string, real>)
    requires i < |entries| && DistinctKeys(entries) && Reached(prior, entries, i, before)
    requires Known(before, entries[i].0) == Baseline(prior, entries[i].0)
    requires if entries[i].1 < Known(before, entries[i].0) then after == before[entries[i].0 := entries[i].1]
             else after == before
    ensures Reached(prior, entries, i + 1, after)
  {
  }

  /** The entries from position i on still have the baselines of the sessions. */
  predicate Untouched(prior: seq<Session>, entries: Entries, i: nat, baseline: map<string, real>) {
    forall j :: i <= j < |entries| ==> Known(baseline, entries[j].0) == Baseline(prior, entries[j].0)
  }

  /** Clamps every provider that reports less than its baseline, or stops at the first
      that cannot be clamped. */
  method ClampProviders(prior: seq<Session>, entries: Entries, base: map<string, real>)
    returns (clamps: Option<seq<Event>>, baseline: map<string, real>)
    requires DistinctKeys(entries)
    requires forall p :: Known(base, p) == Baseline(prior, p)
    ensures clamps == ClampAllRows(prior, entries)
    ensures clamps.Some? ==> Reached(prior, entries, |entries|, baseline)
    ensures clamps.None? ==> exists i :: Below(entries, i, baseline)
  {
    baseline := base;
    var events := [];
    for i := 0 to |entries|
      invariant ClampAllRows(prior, entries[..i]) == Some(events)
      invariant Reached(prior, entries, i, baseline) && Untouched(prior, entries, i, baseline)
    {
      ghost var before := baseline;
      var (p, native) := entries[i];
      ClampAllStep(prior, entries, i);
      assert Known(baseline, entries[i].0) == Baseline(prior, entries[i].0);
      if native < Known(baseline, p) {
        var more, cursor := ClampProvider(prior, p, native);
        if more.None? {
          BlockedPrefix(prior, entries, i + 1);
          assert Below(entries, i, baseline);
          return None, baseline;
        }
        events := events + more.value;
        baseline := baseline[p := cursor];
      }
      ReachedStep(prior, entries, i, before, baseline);
    }
    assert entries[..|entries|] == entries;
    return Some(events), baseline;
  }

  lemma {:induction false} BlockedPrefix(prior: seq<Session>, entries: Entries, i: nat)
    requires i <= |entries| && ClampAllRows(prior, entries[..i]).None?
    ensures ClampAllRows(prior, entries).None?
    decreases |entries| - i
  {
    if i == |entries| {
      assert entries[..i] == entries;
    } else {
      assert entries[..i + 1][..i] == entries[..i];
      BlockedPrefix(prior, entries, i + 1);
    }
  }

  /** What the totals add to the baselines; None when one lies below its baseline. */
  method Added(ghost prior: seq<Session>, entries: Entries, baseline: map<string, real>) returns (cost: Option<real>)
    ensures cost.None? <==> exists i :: Below(entries, i, baseline)
    ensures cost.Some? && Reached(prior, entries, |entries|, baseline) ==> cost.value == Charge(prior, entries)
  {
    var sum := 0.0;
    for i := 0 to |entries|
      invariant forall j :: 0 <= j < i ==> !Below(entries, j, baseline)
      invariant Reached(prior, entries, i, baseline) ==> sum == Charge(prior, entries[..i])
    {
      assert entries[..i + 1][..i] == entries[..i] && entries[..i + 1][i] == entries[i];
      if entries[i].1 < Known(baseline, entries[i].0) {
        assert Below(entries, i, baseline);
        return None;
      }
      sum := sum + (entries[i].1 - Known(baseline, entries[i].0));
    }
    assert entries[..|entries|] == entries;
    return Some(sum);
  }

  // --------------------------------------------------------------- successors

  function Prepend(events: seq<Event>, rest: Result<seq<Event>, Refusal>): Result<seq<Event>, Refusal> {
    if rest.Err? then rest else Ok(events + rest.value)
  }

  lemma PrependNothing(rest: Result<seq<Event>, Refusal>)
    ensures Prepend([], rest) == rest
  {
    if rest.Ok? {
      assert [] + rest.value == rest.value;
    }
  }

  lemma PrependStep(events: seq<Event>, e: Event, rest: Result<seq<Event>, Refusal>)
    ensures Prepend(events, Prepend([e], rest)) == Prepend(events + [e], rest)
  {
    if rest.Ok? {
      assert events + ([e] + rest.value) == events + [e] + rest.value;
    }
  }

  /** Keeps the totals of later sessions after an earlier cost changed by delta:
      estimates move along, and the first native session absorbs the change. */
  method Successors(later: seq<Session>, keys: set<string>, delta: real) returns (result: Result<seq<Event>, Refusal>)
    ensures result == Rebase(later, 0, keys, delta)
  {
    var events := [];
    PrependNothing(Rebase(later, 0, keys, delta));
    for i := 0 to |later|
      invariant Rebase(later, 0, keys, delta) == Prepend(events, Rebase(later, i, keys, delta))
    {
      var successor := later[i];
      if successor.status == Settled && successor.totals.Keys * keys != {} {
        if successor.totals.Keys != keys {
          return Err(MixedBaselines);
        }
        if Estimated(successor.provenance) {
          PrependStep(events, RebaseEvent(successor, delta), Rebase(later, i + 1, keys, delta));
          events := events + [Correct(successor.id, 0.0, Cost(successor), Some(Shift(successor.totals, delta)),
                                      None, Unstated)];
        } else {
          var adjusted := Cost(successor) - delta;
          if adjusted < 0.0 {
            return Err(BaselineConflict);
          }
          return Ok(events + [Correct(successor.id, delta, adjusted, None, None, Unstated)]);
        }
      }
    }
    assert events + [] == events;
    return Ok(events);
  }
}
