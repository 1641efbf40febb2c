/** Which sessions a planned candidate leaves alone. */
module PlannedCorrections {
  import opened Wrappers
  import opened Ledger
  import opened Receipts
  import opened Writers
  import opened Conservation
  import opened LedgerProjection
  import opened PlanLaws
  import opened RecoveryPlan
  import opened Recovery

  /** If the event names this session it only corrects its cost and its totals, and the
      session may be corrected. */
  predicate Mild(e: Event, id: string, open: bool) {
    NamesSession(e) && e.id == id ==> open && e.Correct? && e.provenance.None? && e.finish.Unstated?
  }

  predicate AllMild(events: seq<Event>, id: string, open: bool) {
    forall i :: 0 <= i < |events| ==> Mild(events[i], id, open)
  }

  /** The same session, perhaps at another cost. */
  predicate Alike(a: Session, b: Session) {
    b == a.(cost := b.cost, totals := b.totals)
  }

  lemma {:induction false} MildApplied(st: State, events: seq<Event>, stamp: real, m: nat, open: bool)
    requires UniqueIds(st.sessions) && OfSessions(events, st.sessions) && ApplyAll(st, events, stamp).Some?
    requires m < |st.sessions| && AllMild(events, st.sessions[m].id, open)
    ensures var out := ApplyAll(st, events, stamp).value.sessions;
            |out| == |st.sessions| && Alike(st.sessions[m], out[m]) && (!open ==> out[m] == st.sessions[m])
    decreases |events|
  {
    if events != [] {
      var e := events[0];
      var next := Apply(st, e, stamp).value;
      if !e.Accrue? {
        AppliedOne(ScalarsOf(st), st.sessions, e, stamp);
        KeepsId(Get(st.sessions, e.id), e, stamp);
        var k := IndexOf(st.sessions, e.id);
        assert next.sessions == st.sessions[k := Updated(st.sessions[k], e, stamp)];
        OneMild(st.sessions, k, m, e, stamp, open);
      }
      SameIds(st.sessions, next.sessions);
      MildApplied(next, events[1..], stamp, m, open);
    }
  }

  lemma OneMild(ss: seq<Session>, k: nat, m: nat, e: Event, stamp: real, open: bool)
    requires k < |ss| && m < |ss| && NamesSession(e) && e.id == ss[k].id && Mild(e, ss[m].id, open)
    ensures var out := ss[k := Updated(ss[k], e, stamp)];
            out[m].id == ss[m].id && Alike(ss[m], out[m]) && (!open ==> out[m] == ss[m])
  {
  }

  // ------------------------------------------------------- what receipts name

  lemma {:induction false} ClampsMild(ss: seq<Session>, at: seq<nat>, p: string, native: real, exact: real,
                                      weight: real, cursor: real, m: nat)
    requires UniqueIds(ss) && m < |ss| && m !in at && forall i :: 0 <= i < |at| ==> at[i] < |ss|
    ensures AllMild(ClampEvents(ss, at, p, native, exact, weight, cursor), ss[m].id, false)
    decreases |at|
  {
    if at != [] {
      var value := Share(ss[at[0]], |at| == 1, native, exact, weight, cursor);
      ClampsMild(ss, at[1..], p, native, exact, weight, cursor + value, m);
    }
  }

  /** Clamping names no session at or after the receipt's, and no authoritative one. */
  lemma {:induction false} ClampAllMild(ss: seq<Session>, upto: nat, entries: Entries, m: nat)
    requires UniqueIds(ss) && m < |ss| && upto <= |ss| && (upto <= m || !Estimated(ss[m].provenance))
    ensures ClampAll(ss, upto, entries).Some? ==> AllMild(ClampAll(ss, upto, entries).value, ss[m].id, false)
    decreases |entries|
  {
    if entries != [] {
      var (p, native) := entries[|entries| - 1];
      ClampAllMild(ss, upto, entries[..|entries| - 1], m);
      var exact := Exact(ss[..upto], p);
      var at := LooseAt(ss, 0, upto, p, exact);
      assert m !in at;
      ClampsMild(ss, at, p, native, exact, CostAt(ss, at), exact, m);
    }
  }

  lemma {:induction false} RebaseMild(ss: seq<Session>, from: nat, keys: set<string>, delta: real, m: nat)
    requires UniqueIds(ss) && m < |ss| && from <= |ss|
    ensures Rebase(ss, from, keys, delta).Ok? ==>
              AllMild(Rebase(ss, from, keys, delta).value, ss[m].id, from <= m && ss[m].status == Settled)
    decreases |ss| - from
  {
    if from < |ss| {
      RebaseMild(ss, from + 1, keys, delta, m);
    }
  }

  lemma MildConcat(a: seq<Event>, b: seq<Event>, id: string, open: bool)
    requires AllMild(a, id, false) && AllMild(b, id, open)
    ensures AllMild(a + b, id, open)
  {
  }

  lemma LateMild(accrual: Event, clamps: seq<Event>, own: Event, later: seq<Event>, id: string, open: bool)
    requires accrual.Accrue? && AllMild(clamps, id, false) && own.Correct? && own.id != id && AllMild(later, id, open)
    ensures AllMild([accrual] + (clamps + ([own] + later)), id, open)
  {
    MildConcat([own], later, id, open);
    MildConcat(clamps, [own] + later, id, open);
    MildConcat([accrual], clamps + ([own] + later), id, open);
  }

  lemma FirstMild(accrual: Event, clamps: seq<Event>, ending: seq<Event>, id: string, open: bool)
    requires accrual.Accrue? && AllMild(clamps, id, false) && AllMild(ending, id, false)
    ensures AllMild([accrual] + (clamps + ending), id, open)
  {
    MildConcat(clamps, ending, id, open);
    MildConcat([accrual], clamps + ending, id, open);
  }

  lemma EndingMild(s: Session, r: Receipt, entries: Entries, cost: real, id: string)
    requires s.id != id
    ensures AllMild(SettleEvents(s, r, entries, cost), id, false)
  {
  }

  lemma NativeMild(st: State, k: nat, r: Receipt, entries: Entries, clamps: seq<Event>, t: Ticks, m: nat, id: string)
    requires UniqueIds(st.sessions) && k < |st.sessions| && m < |st.sessions| && m != k && id == st.sessions[m].id
    requires k < m || !Estimated(st.sessions[m].provenance)
    requires ClampAll(st.sessions, k, entries) == Some(clamps)
    ensures var tx := NativeTx(st, k, r, entries, clamps, t);
            tx.Append? ==> AllMild(tx.events, id, k < m && st.sessions[m].status == Settled)
  {
    var ss, open := st.sessions, k < m && st.sessions[m].status == Settled;
    var cost, accrual := Charge(ss[..k], entries), AccrueEvent(st, t.accrual);
    ClampAllMild(ss, k, entries, m);
    if ss[k].status == Settled {
      var later := Rebase(ss, k + 1, AsTotals(entries).Keys, cost - Cost(ss[k]));
      if later.Ok? {
        RebaseMild(ss, k + 1, AsTotals(entries).Keys, cost - Cost(ss[k]), m);
        LateMild(accrual, clamps, OwnCorrection(ss[k], r, entries, cost), later.value, id, open);
      }
    } else {
      EndingMild(ss[k], r, entries, cost, id);
      FirstMild(accrual, clamps, SettleEvents(ss[k], r, entries, cost), id, open);
    }
  }

  lemma BoundMild(st: State, r: Receipt, t: Ticks, id: string, open: bool)
    requires Has(st.sessions, r.id) && r.id != id
    ensures var tx := LowerBoundTx(st, r, t); tx.Some? && tx.value.Append? ==> AllMild(tx.value.events, id, open)
  {
  }

  /** A receipt corrects settled sessions after its own, and estimates before it. */
  lemma ReceiptMild(st: State, r: Receipt, host: Host, t: Ticks, k: nat, m: nat, id: string, open: bool)
    requires UniqueIds(st.sessions) && k < |st.sessions| && m < |st.sessions| && m != k
    requires r.id == st.sessions[k].id && (k < m || !Estimated(st.sessions[m].provenance))
    requires id == st.sessions[m].id && open == (k < m && st.sessions[m].status == Settled)
    ensures var tx := ReceiptTx(st, r, host, t); tx.Append? ==> AllMild(tx.events, id, open)
  {
    var tx := ReceiptForms(st, r, host, t);
    if tx.Append? {
      IndexOfUnique(st.sessions, k);
      BoundMild(st, r, t, id, open);
      var totals := FinalTotals(r);
      if totals.Some? && ClampAll(st.sessions, k, totals.value).Some? {
        NativeMild(st, k, r, totals.value, ClampAll(st.sessions, k, totals.value).value, t, m, id);
      }
    }
  }

  lemma DatedMild(events: seq<Event>, ss: seq<Session>, id: string, open: bool)
    requires AllMild(events, id, open)
    ensures AllMild(DatedAll(events, ss), id, open)
  {
  }

  lemma ReplannedMild(st: State, more: seq<Event>, stamp: real, m: nat, open: bool)
    requires Reconciled(st) && Plannable(st, more, stamp)
    requires m < |st.sessions| && AllMild(more, st.sessions[m].id, open)
    ensures var out := Replanned(st, more, stamp).sessions;
            |out| == |st.sessions| && Alike(st.sessions[m], out[m]) && (!open ==> out[m] == st.sessions[m])
  {
    ReplannedFollows(st, more, stamp);
    DatedMild(more, st.sessions, st.sessions[m].id, open);
    DatedNames(more, st.sessions);
    MildApplied(st.(number := st.number + 1), DatedAll(more, st.sessions), stamp, m, open);
  }

  /** The receipt of session k. */
  lemma ReceivedKeeps(st: State, s: Session, k: nat, file: ReceiptFile, t: Ticks, m: nat)
    requires Reconciled(st) && DistinctFile(file) && k < |st.sessions| && s.id == st.sessions[k].id
    requires m < |st.sessions| && m != k && (k < m || !Estimated(st.sessions[m].provenance))
    ensures var out := Received(st, s, file, t).sessions;
            && Alike(st.sessions[m], out[m])
            && (out[m] == st.sessions[m] || (k < m && st.sessions[m].status == Settled))
  {
    if file.Readable? && file.receipt.id == s.id {
      var tx := ReceiptTx(st, file.receipt, file.host, t);
      if tx.Append? {
        ReceiptMild(st, file.receipt, file.host, t, k, m, st.sessions[m].id,
                    k < m && st.sessions[m].status == Settled);
        ReceiptPlannable(st, file.receipt, file.host, t);
        ReplannedMild(st, tx.events, t.stamp, m, k < m && st.sessions[m].status == Settled);
      }
    }
  }

  lemma AppraisedKeeps(st: State, s: Session, k: nat, journal: Journal, vague: set<string>, noted: bool, t: Ticks,
                       m: nat)
    requires Reconciled(st) && k < |st.sessions| && m < |st.sessions| && m != k
    ensures var next := Appraised(st, s, k, journal, vague, noted, t);
            next.Some? ==> next.value.sessions[m] == st.sessions[m]
  {
    if st.sessions[k].status != Settled && journal.Found? {
      AppraisedEffect(st, s, k, journal, vague, noted, t);
    }
  }

  /** Planning one candidate changes no other session except that it may correct
      estimates before it, and cost and totals of settled sessions after it. */
  lemma TurnKeeps(before: State, st: State, k: nat, inputs: seq<Candidate>, vague: set<string>, noted: bool, t: Ticks,
                  outcome: Outcome, next: State, m: nat)
    requires Turn(before, st, k, inputs, vague, noted, t, outcome, next)
    requires before.sessions[k].id == st.sessions[k].id
    requires m < |st.sessions| && m != k && (k < m || !Estimated(st.sessions[m].provenance))
    ensures |next.sessions| == |st.sessions| && Alike(st.sessions[m], next.sessions[m])
    ensures next.sessions[m] == st.sessions[m] || (k < m && st.sessions[m].status == Settled)
  {
    var s, c := before.sessions[k], inputs[k];
    if outcome == Planned {
      var received := if s.bridge.Some? && c.receipt.Some? then Received(st, s, c.receipt.value, t) else st;
      if s.bridge.Some? && c.receipt.Some? {
        ReceivedKeeps(st, s, k, c.receipt.value, t, m);
      }
      AppraisedKeeps(received, s, k, c.journal, vague, noted, t, m);
    }
  }
}

/** Usable receipts are planned at their native cost. */
module RecoveryOutcomes {
  import opened Wrappers
  import opened Ledger
  import opened Receipts
  import opened Writers
  import opened Conservation
  import opened Corrections
  import opened ReceiptEffects
  import opened LedgerProjection
  import opened PlanLaws
  import opened RecoveryPlan
  import opened Recovery
  import opened PlannedCorrections
  import Availability
  import ChainRuns
  import ChainSteps
  import History
  import RepeatedReceipts

  // ----------------------------------------------------- drafts of one plan

  lemma {:induction false} DraftIds(before: State, inputs: seq<Candidate>, vague: set<string>, noted: bool, t: Ticks,
                                    drafts: seq<State>, outcomes: seq<Outcome>, n: nat, m: nat)
    requires Planning(before, inputs, vague, noted, t, drafts, outcomes) && n <= |outcomes| && m < |before.sessions|
    ensures |drafts[n].sessions| == |before.sessions| && drafts[n].sessions[m].id == before.sessions[m].id
    decreases n
  {
    if n > 0 {
      DraftIds(before, inputs, vague, noted, t, drafts, outcomes, n - 1, m);
      assert TurnAt(before, inputs, vague, noted, t, drafts, outcomes, n - 1);
      TurnSettles(before, drafts[n - 1], n - 1, inputs, vague, noted, t, outcomes[n - 1], drafts[n]);
    }
  }

  /** Until its turn comes only cost and totals of a settled session change. */
  lemma {:induction false} UntilTurn(before: State, inputs: seq<Candidate>, vague: set<string>, noted: bool, t: Ticks,
                                     drafts: seq<State>, outcomes: seq<Outcome>, n: nat, m: nat)
    requires Planning(before, inputs, vague, noted, t, drafts, outcomes)
    requires n <= |outcomes| && n <= m < |before.sessions| == |inputs|
    ensures |drafts[n].sessions| == |inputs|
    ensures Alike(before.sessions[m], drafts[n].sessions[m])
    ensures before.sessions[m].status == Settled || drafts[n].sessions[m] == before.sessions[m]
    decreases n
  {
    if n > 0 {
      var k := n - 1;
      UntilTurn(before, inputs, vague, noted, t, drafts, outcomes, k, m);
      DraftIds(before, inputs, vague, noted, t, drafts, outcomes, k, k);
      assert TurnAt(before, inputs, vague, noted, t, drafts, outcomes, k);
      TurnKeeps(before, drafts[k], k, inputs, vague, noted, t, outcomes[k], drafts[n], m);
    }
  }

  /** Once a session has an authoritative cost no later candidate changes it. */
  lemma {:induction false} AfterTurn(before: State, inputs: seq<Candidate>, vague: set<string>, noted: bool, t: Ticks,
                                     drafts: seq<State>, outcomes: seq<Outcome>, n: nat, m: nat)
    requires Planning(before, inputs, vague, noted, t, drafts, outcomes)
    requires m < n <= |outcomes| && |before.sessions| == |inputs|
    requires m < |drafts[m + 1].sessions| && !Estimated(drafts[m + 1].sessions[m].provenance)
    ensures |drafts[n].sessions| == |inputs| && drafts[n].sessions[m] == drafts[m + 1].sessions[m]
    decreases n
  {
    DraftIds(before, inputs, vague, noted, t, drafts, outcomes, n, m);
    if n > m + 1 {
      var k := n - 1;
      AfterTurn(before, inputs, vague, noted, t, drafts, outcomes, k, m);
      DraftIds(before, inputs, vague, noted, t, drafts, outcomes, k, k);
      assert TurnAt(before, inputs, vague, noted, t, drafts, outcomes, k);
      TurnKeeps(before, drafts[k], k, inputs, vague, noted, t, outcomes[k], drafts[n], m);
    }
  }

  // ------------------------------------------------------ one usable receipt

  /** Settled by this receipt: its totals, and what they add to the baselines. */
  predicate SettledBy(s: Session, entries: Entries, cost: real) {
    && s.status == Settled
    && s.provenance == Some(NativeReported)
    && s.totals == AsTotals(entries)
    && s.cost == Some(cost)
  }

  /** The sessions that the receipt of session k corrects beside its own. */
  function Moved(ss: seq<Session>, k: nat, entries: Entries): seq<nat>
    requires k < |ss|
  {
    ClampAt(ss, k, entries) + (if ss[k].status == Settled then RebaseAt(ss, k + 1, AsTotals(entries).Keys) else [])
  }

  lemma DatedConcat(a: seq<Event>, b: seq<Event>, ss: seq<Session>)
    ensures DatedAll(a + b, ss) == DatedAll(a, ss) + DatedAll(b, ss)
  {
  }

  lemma DatedCorrections(events: seq<Event>, ss: seq<Session>)
    requires forall i :: 0 <= i < |events| ==> !events[i].Settle?
    ensures DatedAll(events, ss) == events
  {
  }

  lemma ReplannedAfter(st: State, rest: seq<Event>, t: Ticks)
    requires ApplyAll(ChainSteps.Started(st, t.accrual), DatedAll(rest, st.sessions), t.stamp).Some?
    ensures Replanned(st, [AccrueEvent(st, t.accrual)] + rest, t.stamp)
         == ApplyAll(ChainSteps.Started(st, t.accrual), DatedAll(rest, st.sessions), t.stamp).value
  {
    var accrual := [AccrueEvent(st, t.accrual)];
    DatedConcat(accrual, rest, st.sessions);
    DatedCorrections(accrual, st.sessions);
    ChainSteps.AfterAccrual(st, DatedAll(rest, st.sessions), t);
  }

  /** Clamping, and then settling a session natively. */
  lemma FirstApplied(base: State, k: nat, entries: Entries, clamps: seq<Event>, last: Event, stamp: real, m: nat)
    requires UniqueIds(base.sessions) && k < |base.sessions| && DistinctKeys(entries)
    requires ClampAll(base.sessions, k, entries) == Some(clamps)
    requires last.Settle? && last.id == base.sessions[k].id && last.provenance == Some(NativeReported)
    requires last.totals == AsTotals(entries)
    requires m < |base.sessions| && (m == k || m !in ClampAt(base.sessions, k, entries))
    ensures var next := ApplyAll(base, clamps + (Undo(base.sessions[k]) + [last]), stamp);
            && next.Some? && |next.value.sessions| == |base.sessions|
            && SettledBy(next.value.sessions[k], entries, last.cost)
            && (m != k ==> next.value.sessions[m] == base.sessions[m])
  {
    ClampAllTargets(base.sessions, k, entries);
    CorrectAll(base, clamps, ClampAt(base.sessions, k, entries), stamp);
    var mid := ApplyAll(base, clamps, stamp).value;
    assert mid.sessions[k] == base.sessions[k];
    ChainRuns.SettleEffect(mid, k, Cost(base.sessions[k]) != 0.0, last, stamp);
    ApplyAllConcat(base, clamps, Undo(base.sessions[k]) + [last], stamp);
  }

  lemma EndingDated(s: Session, r: Receipt, entries: Entries, cost: real, clamps: seq<Event>, ss: seq<Session>)
    returns (last: Event)
    requires forall i :: 0 <= i < |clamps| ==> clamps[i].Correct?
    ensures DatedAll(clamps + SettleEvents(s, r, entries, cost), ss) == clamps + (Undo(s) + [last])
    ensures last.Settle? && last.id == s.id && last.provenance == Some(NativeReported)
    ensures last.totals == AsTotals(entries) && last.cost == cost
  {
    var ending := SettleEvents(s, r, entries, cost);
    last := Dated(ending[|ending| - 1], ss);
    DatedConcat(clamps, ending, ss);
    DatedCorrections(clamps, ss);
    DatedConcat(Undo(s), [ending[|ending| - 1]], ss);
    DatedCorrections(Undo(s), ss);
    assert DatedAll([ending[|ending| - 1]], ss) == [last];
  }

  lemma FirstPlanned(st: State, k: nat, r: Receipt, entries: Entries, clamps: seq<Event>, t: Ticks, m: nat)
    requires UniqueIds(st.sessions) && k < |st.sessions| && st.sessions[k].status != Settled && DistinctKeys(entries)
    requires ClampAll(st.sessions, k, entries) == Some(clamps)
    requires m < |st.sessions| && (m == k || m !in ClampAt(st.sessions, k, entries))
    ensures var tx := NativeTx(st, k, r, entries, clamps, t);
            tx.Append? && MovedTo(st, Replanned(st, tx.events, t.stamp), k, entries, m)
  {
    var cost := Charge(st.sessions[..k], entries);
    ClampAllTargets(st.sessions, k, entries);
    var last := EndingDated(st.sessions[k], r, entries, cost, clamps, st.sessions);
    var base := StartedBase(st, t);
    FirstApplied(base, k, entries, clamps, last, t.stamp, m);
    ReplannedAfter(st, clamps + SettleEvents(st.sessions[k], r, entries, cost), t);
  }

  lemma StartedBase(st: State, t: Ticks) returns (base: State)
    ensures base == ChainSteps.Started(st, t.accrual) && base.sessions == st.sessions
  {
    base := ChainSteps.Started(st, t.accrual);
  }

  /** Session k is settled natively, and session m, when it is another one, is unchanged. */
  predicate MovedTo(st: State, next: State, k: nat, entries: Entries, m: nat) {
    && k < |st.sessions| && m < |st.sessions| == |next.sessions|
    && SettledBy(next.sessions[k], entries, Charge(st.sessions[..k], entries))
    && (m != k ==> next.sessions[m] == st.sessions[m])
  }

  /** Clamping, correcting a settled session and rebasing the later ones. */
  lemma LateApplied(base: State, k: nat, r: Receipt, entries: Entries, clamps: seq<Event>, cost: real,
                    later: seq<Event>, stamp: real, m: nat)
    requires UniqueIds(base.sessions) && k < |base.sessions| && DistinctKeys(entries)
    requires base.sessions[k].status == Settled && ClampAll(base.sessions, k, entries) == Some(clamps)
    requires Rebase(base.sessions, k + 1, AsTotals(entries).Keys, cost - Cost(base.sessions[k])) == Ok(later)
    requires m < |base.sessions| && (m == k || m !in Moved(base.sessions, k, entries))
    ensures var own := OwnCorrection(base.sessions[k], r, entries, cost);
            var next := ApplyAll(base, clamps + [own] + later, stamp);
            && next.Some? && |next.value.sessions| == |base.sessions|
            && SettledBy(next.value.sessions[k], entries, cost)
            && (m != k ==> next.value.sessions[m] == base.sessions[m])
            && forall i :: 0 <= i < |clamps + [own] + later| ==> (clamps + [own] + later)[i].Correct?
  {
    var own := OwnCorrection(base.sessions[k], r, entries, cost);
    var events, at := clamps + [own] + later, LateAt(base.sessions, k, entries);
    LateTargets(base.sessions, k, entries, own, cost - Cost(base.sessions[k]));
    CorrectAll(base, events, at, stamp);
    ClampAllTargets(base.sessions, k, entries);
    var n := |ClampAt(base.sessions, k, entries)|;
    assert at[n] == k && events[n] == own;
  }

  lemma LateForm(st: State, k: nat, r: Receipt, entries: Entries, clamps: seq<Event>, cost: real, t: Ticks)
    returns (later: seq<Event>)
    requires k < |st.sessions| && st.sessions[k].status == Settled && cost == Charge(st.sessions[..k], entries)
    requires NativeTx(st, k, r, entries, clamps, t).Append?
    ensures Rebase(st.sessions, k + 1, AsTotals(entries).Keys, cost - Cost(st.sessions[k])) == Ok(later)
    ensures NativeTx(st, k, r, entries, clamps, t)
         == Append([AccrueEvent(st, t.accrual)] + (clamps + [OwnCorrection(st.sessions[k], r, entries, cost)] + later))
  {
    var own := OwnCorrection(st.sessions[k], r, entries, cost);
    later := Rebase(st.sessions, k + 1, AsTotals(entries).Keys, cost - Cost(st.sessions[k])).value;
    assert clamps + ([own] + later) == clamps + [own] + later;
  }

  lemma LatePlanned(st: State, k: nat, r: Receipt, entries: Entries, clamps: seq<Event>, t: Ticks, m: nat)
    requires UniqueIds(st.sessions) && k < |st.sessions| && st.sessions[k].status == Settled && DistinctKeys(entries)
    requires ClampAll(st.sessions, k, entries) == Some(clamps) && NativeTx(st, k, r, entries, clamps, t).Append?
    requires m < |st.sessions| && (m == k || m !in Moved(st.sessions, k, entries))
    ensures MovedTo(st, Replanned(st, NativeTx(st, k, r, entries, clamps, t).events, t.stamp), k, entries, m)
  {
    var cost := Charge(st.sessions[..k], entries);
    var later := LateForm(st, k, r, entries, clamps, cost, t);
    var events := clamps + [OwnCorrection(st.sessions[k], r, entries, cost)] + later;
    var base := StartedBase(st, t);
    LateApplied(base, k, r, entries, clamps, cost, later, t.stamp, m);
    DatedCorrections(events, st.sessions);
    ReplannedAfter(st, events, t);
  }

  /** A receipt whose amounts are recorded settles its session natively in the plan, and
      changes no session but those that it clamps or rebases. */
  lemma NativeReceived(st: State, s: Session, k: nat, file: ReceiptFile, t: Ticks, m: nat)
    requires Reconciled(st) && DistinctFile(file) && k < |st.sessions| && s.id == st.sessions[k].id
    requires file.Readable? && file.receipt.id == s.id
    requires RepeatedReceipts.Recorded(st, file.receipt, file.host, t)
    requires m < |st.sessions| && (m == k || m !in Moved(st.sessions, k, FinalTotals(file.receipt).value))
    ensures MovedTo(st, Received(st, s, file, t), k, FinalTotals(file.receipt).value, m)
  {
    var entries := FinalTotals(file.receipt).value;
    IndexOfUnique(st.sessions, k);
    var clamps := ClampAll(st.sessions, k, entries).value;
    RepeatedReceipts.RecordedTx(st, file.receipt, file.host, t);
    if st.sessions[k].status == Settled {
      LatePlanned(st, k, file.receipt, entries, clamps, t, m);
    } else {
      FirstPlanned(st, k, file.receipt, entries, clamps, t, m);
    }
  }

  // ---------------------------------------------------- what becomes of a turn

  /** The receipt is there, is about this session, and its amounts can be recorded. */
  predicate Usable(st: State, s: Session, c: Candidate, t: Ticks) {
    && s.bridge.Some? && c.receipt.Some? && c.receipt.value.Readable? && c.receipt.value.receipt.id == s.id
    && RepeatedReceipts.Recorded(st, c.receipt.value.receipt, c.receipt.value.host, t)
  }

  /** The plan after the receipt of a candidate, if there is one. */
  function AfterReceipt(st: State, s: Session, c: Candidate, t: Ticks): State
    requires Reconciled(st) && WellFormedFile(c)
  {
    if s.bridge.Some? && c.receipt.Some? then Received(st, s, c.receipt.value, t) else st
  }

  /** A receipt whose amounts are not recorded leaves its session as open as it was, and
      every other session alone. */
  lemma UnusableReceipt(st: State, r: Receipt, host: Host, t: Ticks, k: nat, m: nat)
    requires UniqueIds(st.sessions) && k < |st.sessions| && r.id == st.sessions[k].id && m < |st.sessions|
    requires ReceiptTx(st, r, host, t).Append? && !RepeatedReceipts.Recorded(st, r, host, t)
    ensures st.sessions[k].status != Settled
    ensures var out := Replanned(st, ReceiptTx(st, r, host, t).events, t.stamp).sessions;
            |out| == |st.sessions| && out[k].status != Settled && (m != k ==> out[m] == st.sessions[m])
  {
    var tx := ReceiptForms(st, r, host, t);
    IndexOfUnique(st.sessions, k);
    var e := HoldForm(st, r, host, t);
    var next := ChainSteps.HoldOutcome(st, e, t);
    DatedCorrections([AccrueEvent(st, t.accrual), e], st.sessions);
  }

  lemma HoldForm(st: State, r: Receipt, host: Host, t: Ticks) returns (e: Event)
    requires ReceiptTx(st, r, host, t).Append? && !RepeatedReceipts.Recorded(st, r, host, t)
    ensures Has(st.sessions, r.id) && Get(st.sessions, r.id).status != Settled
    ensures e.Unresolve? && e.id == r.id && ReceiptTx(st, r, host, t) == Append([AccrueEvent(st, t.accrual), e])
  {
    e := ReceiptTx(st, r, host, t).events[1];
  }

  lemma OpenAfterReceipt(st: State, s: Session, k: nat, c: Candidate, t: Ticks, m: nat)
    requires Reconciled(st) && WellFormedFile(c) && k < |st.sessions| && s.id == st.sessions[k].id
    requires !Usable(st, s, c, t) && m < |st.sessions|
    ensures var next := AfterReceipt(st, s, c, t);
            && |next.sessions| == |st.sessions|
            && (next.sessions[k].status == Settled <==> st.sessions[k].status == Settled)
            && (m != k ==> next.sessions[m] == st.sessions[m])
            && (st.sessions[k].status == Settled ==> next == st)
  {
    if s.bridge.Some? && c.receipt.Some? && c.receipt.value.Readable? && c.receipt.value.receipt.id == s.id {
      var r, host := c.receipt.value.receipt, c.receipt.value.host;
      if ReceiptTx(st, r, host, t).Append? {
        UnusableReceipt(st, r, host, t, k, m);
      }
    }
  }

  /** What the settled plan of a candidate is. */
  lemma TriedMeans(st: State, s: Session, k: nat, c: Candidate, vague: set<string>, noted: bool, t: Ticks)
    requires Reconciled(st) && WellFormedFile(c) && k < |st.sessions|
    ensures var received := AfterReceipt(st, s, c, t);
            && Tried(st, s, k, c, vague, noted, t) == Appraised(received, s, k, c.journal, vague, noted, t)
            && Reconciled(received) && |received.sessions| == |st.sessions|
  {
  }

  /** The candidate may be planned. */
  predicate Eligible(s: Session, c: Candidate) {
    && !LeftAlone(s, c) && c.validId && !s.archived
    && !(s.bridge.Some? && c.receipt.Some? && AppliedBefore(s, c.receipt.value))
  }

  lemma NothingTouched(before: seq<Session>, now: seq<Session>, inputs: seq<Candidate>)
    requires |before| == |now| == |inputs|
    ensures TouchesLive(before, now, inputs) <==> !LiveUntouched(before, now, inputs)
  {
  }

  /** A candidate whose receipt is usable, and corrects no live session, is planned: its
      session is settled by the receipt. */
  lemma UsableTurn(before: State, st: State, k: nat, inputs: seq<Candidate>, vague: set<string>, noted: bool, t: Ticks,
                   outcome: Outcome, next: State)
    requires Turn(before, st, k, inputs, vague, noted, t, outcome, next)
    requires before.sessions[k].id == st.sessions[k].id && Eligible(before.sessions[k], inputs[k])
    requires Usable(st, before.sessions[k], inputs[k], t)
    requires var entries := FinalTotals(inputs[k].receipt.value.receipt).value;
             forall i :: 0 <= i < |inputs| && inputs[i].live ==> i !in Moved(st.sessions, k, entries)
    ensures outcome == Planned
    ensures var entries := FinalTotals(inputs[k].receipt.value.receipt).value;
            SettledBy(next.sessions[k], entries, Charge(st.sessions[..k], entries))
  {
    var s, c := before.sessions[k], inputs[k];
    var received := Received(st, s, c.receipt.value, t);
    var entries := FinalTotals(c.receipt.value.receipt).value;
    assert SettledBy(received.sessions[k], entries, Charge(st.sessions[..k], entries)) by {
      NativeReceived(st, s, k, c.receipt.value, t, k);
    }
    forall i | 0 <= i < |inputs| && inputs[i].live ensures received.sessions[i] == before.sessions[i] {
      NativeReceived(st, s, k, c.receipt.value, t, i);
    }
    NothingTouched(before.sessions, received.sessions, inputs);
    TriedMeans(st, s, k, c, vague, noted, t);
  }

  /** The recorded totals of an estimate: for at most one provider, its cost on top of the
      baseline; for the resumed provider, if there is one, else for that of the journal. */
  predicate Extends(totals: Totals, prior: seq<Session>, s: Session, saved: Option<Saved>, cost: real) {
    && (forall p, q :: p in totals && q in totals ==> p == q)
    && (forall p :: p in totals ==> totals[p] == Baseline(prior, p) + cost)
    && (Named(s.resume) ==> s.resume.value in totals)
    && (s.resume.None? && saved.Some? && Named(saved.value.provider) ==> saved.value.provider.value in totals)
  }

  predicate Named(p: Option<string>) {
    p.Some? && p.value != "" && p.value != "unknown"
  }

  lemma EstimateExtends(prior: seq<Session>, s: Session, current: Session, saved: Option<Saved>, cost: real)
    ensures Extends(EstimatedTotals(prior, ProviderOf(s, current, saved), cost), prior, s, saved, cost)
  {
  }

  lemma EstimateSpares(before: State, st: State, k: nat, inputs: seq<Candidate>, vague: set<string>, noted: bool,
                       t: Ticks)
    requires Reconciled(st) && LiveUntouched(before.sessions, st.sessions, inputs)
    requires k < |inputs| && WellFormedFile(inputs[k]) && !inputs[k].live
    requires before.sessions[k].id == st.sessions[k].id && !Usable(st, before.sessions[k], inputs[k], t)
    ensures var tried := Tried(st, before.sessions[k], k, inputs[k], vague, noted, t);
            tried.Some? ==> !TouchesLive(before.sessions, tried.value.sessions, inputs)
  {
    var s, c := before.sessions[k], inputs[k];
    var tried := Tried(st, s, k, c, vague, noted, t);
    if tried.Some? {
      forall i | 0 <= i < |inputs| && inputs[i].live ensures tried.value.sessions[i] == before.sessions[i] {
        OpenAfterReceipt(st, s, k, c, t, i);
        TriedMeans(st, s, k, c, vague, noted, t);
        AppraisedKeeps(AfterReceipt(st, s, c, t), s, k, c.journal, vague, noted, t, i);
      }
      NothingTouched(before.sessions, tried.value.sessions, inputs);
    }
  }

  /** An eligible candidate without a usable receipt fails exactly when its session is open
      and its journal has to be read again; otherwise an open session is settled by an
      estimate, and nothing else changes. */
  lemma EstimatedTurn(before: State, st: State, k: nat, inputs: seq<Candidate>, vague: set<string>, noted: bool,
                      t: Ticks, outcome: Outcome, next: State)
    requires Turn(before, st, k, inputs, vague, noted, t, outcome, next)
    requires before.sessions[k].id == st.sessions[k].id && Eligible(before.sessions[k], inputs[k])
    requires !Usable(st, before.sessions[k], inputs[k], t)
    ensures outcome == if st.sessions[k].status != Settled && !inputs[k].journal.Found? then Failed else Planned
    ensures st.sessions[k].status == Settled ==> next == st
    ensures outcome == Planned && st.sessions[k].status != Settled ==>
              var s, c := before.sessions[k], inputs[k];
              var received := AfterReceipt(st, s, c, t);
              var span := History.Interval(s, t.now, if c.journal.saved.Some? then c.journal.observed else None);
              Appraises(Cost(next.sessions[k]), next.sessions[k].provenance,
                        Floor(received.sessions[k], c.journal.saved), c.journal.saved,
                        History.Guess(s, received.sessions, t.now, span, vague))
              && Extends(next.sessions[k].totals, received.sessions[..k], s, c.journal.saved, Cost(next.sessions[k]))
  {
    var s, c := before.sessions[k], inputs[k];
    var received := AfterReceipt(st, s, c, t);
    OpenAfterReceipt(st, s, k, c, t, k);
    TriedMeans(st, s, k, c, vague, noted, t);
    if received.sessions[k].status != Settled && c.journal.Found? {
      AppraisedEffect(received, s, k, c.journal, vague, noted, t);
      EstimateExtends(received.sessions[..k], s, received.sessions[k], c.journal.saved, Cost(next.sessions[k]));
    }
    EstimateSpares(before, st, k, inputs, vague, noted, t);
  }

  /** Nothing is done about the candidate: it is left alone, or its receipt was applied. */
  predicate Idle(s: Session, c: Candidate) {
    || LeftAlone(s, c)
    || (c.validId && !s.archived && s.bridge.Some? && c.receipt.Some? && AppliedBefore(s, c.receipt.value))
  }

  /** Something stands in the way of a candidate: its identity, an archive that must be
      reconciled, a live session that its usable receipt reaches, or, without a usable
      receipt, an open session whose journal has to be read again. */
  predicate Hindered(before: State, st: State, s: Session, inputs: seq<Candidate>, k: nat, t: Ticks)
    requires Reconciled(st) && k < |inputs| && WellFormedFile(inputs[k])
  {
    var c := inputs[k];
    || !c.validId || s.archived
    || (if Usable(st, s, c, t) then TouchesLive(before.sessions, AfterReceipt(st, s, c, t).sessions, inputs)
        else s.status != Settled && !c.journal.Found?)
  }

  /** Which candidates are left untouched, which fail and which are planned. */
  lemma TurnOutcome(before: State, st: State, k: nat, inputs: seq<Candidate>, vague: set<string>, noted: bool, t: Ticks,
                    outcome: Outcome, next: State)
    requires Turn(before, st, k, inputs, vague, noted, t, outcome, next)
    requires Alike(before.sessions[k], st.sessions[k])
    ensures outcome == Untouched <==> Idle(before.sessions[k], inputs[k])
    ensures outcome == Failed <==>
              !Idle(before.sessions[k], inputs[k]) && Hindered(before, st, before.sessions[k], inputs, k, t)
    ensures outcome != Planned ==> next == st
  {
    var s, c := before.sessions[k], inputs[k];
    if Eligible(s, c) {
      if Usable(st, s, c, t) {
        NativeReceived(st, s, k, c.receipt.value, t, k);
        TriedMeans(st, s, k, c, vague, noted, t);
      } else {
        EstimatedTurn(before, st, k, inputs, vague, noted, t, outcome, next);
      }
    }
  }

  // --------------------------------------------------------- one whole recovery

  lemma {:induction false} RebaseTouches(ss: seq<Session>, from: nat, keys: set<string>, i: nat)
    requires from <= |ss| && i in RebaseAt(ss, from, keys)
    ensures from <= i < |ss| && Touches(ss[i], keys)
    decreases |ss| - from
  {
    if !(from < |ss| && Touches(ss[from], keys) && i == from) {
      RebaseTouches(ss, from + 1, keys, i);
    }
  }

  /** The conditions under which a final receipt for one provider, at or above its baseline,
      is accepted: no amount is negative, the process has exited, a failed launch left no
      usage, the finish time is possible, and later totals can be kept. */
  predicate Acceptable(st: State, k: nat, r: Receipt, host: Host, p: string, native: real, t: Ticks)
    requires k < |st.sessions|
  {
    var s := st.sessions[k];
    && native >= 0.0 && !Negative(LowerTotals(r))
    && !host.nativeAlive
    && !(r.outcome == "launch-failed" && native == 0.0 && (Cost(s) > 0.0 || host.usageRecorded))
    && (r.finished.Some? ==> s.started <= r.finished.value <= t.now)
    && (s.status == Settled ==>
          Rebase(st.sessions, k + 1, {p}, native - Baseline(st.sessions[..k], p) - Cost(s)).Ok?)
  }

  lemma OneScreened(st: State, k: nat, r: Receipt, host: Host, p: string, native: real, t: Ticks)
    requires UniqueIds(st.sessions) && k < |st.sessions| && r.id == st.sessions[k].id
    requires st.sessions[k].status == Settled ==> Estimated(st.sessions[k].provenance)
    requires FinalTotals(r) == Some([(p, native)])
    ensures Screened(st, r, host, t).None? || Screened(st, r, host, t).value.Refused?
    ensures var s := st.sessions[k];
            Screened(st, r, host, t).None? <==>
              && native >= 0.0 && !Negative(LowerTotals(r)) && !host.nativeAlive
              && !(r.outcome == "launch-failed" && native == 0.0 && (Cost(s) > 0.0 || host.usageRecorded))
              && (r.finished.Some? ==> s.started <= r.finished.value <= t.now)
  {
    IndexOfUnique(st.sessions, k);
    var entries := [(p, native)];
    assert Negative(entries) <==> native < 0.0 by {
      assert entries[0].1 == native;
    }
    assert (forall i :: 0 <= i < |entries| ==> entries[i].1 == 0.0) <==> native == 0.0 by {
      assert entries[0].1 == native;
    }
  }

  /** A final receipt for one provider, at or above its baseline, is recorded when it is
      acceptable and refused when it is not. */
  lemma OneUsable(st: State, k: nat, r: Receipt, host: Host, p: string, native: real, t: Ticks)
    requires UniqueIds(st.sessions) && k < |st.sessions| && r.id == st.sessions[k].id
    requires st.sessions[k].status == Settled ==> Estimated(st.sessions[k].provenance)
    requires FinalTotals(r) == Some([(p, native)]) && native >= Baseline(st.sessions[..k], p)
    ensures Acceptable(st, k, r, host, p, native, t) <==> RepeatedReceipts.Recorded(st, r, host, t)
    ensures Acceptable(st, k, r, host, p, native, t) <==> !ReceiptTx(st, r, host, t).Refused?
    ensures AsTotals([(p, native)]) == map[p := native]
    ensures Charge(st.sessions[..k], [(p, native)]) == native - Baseline(st.sessions[..k], p)
    ensures ClampAt(st.sessions, k, [(p, native)]) == []
  {
    IndexOfUnique(st.sessions, k);
    ChainRuns.OneProvider(st.sessions, k, p, native);
    assert map[p := native].Keys == {p};
    OneScreened(st, k, r, host, p, native, t);
  }

  lemma OneMoves(ss: seq<Session>, k: nat, p: string, native: real, i: nat)
    requires k < |ss| && i < |ss| && AsTotals([(p, native)]) == map[p := native]
    requires ClampAt(ss, k, [(p, native)]) == []
    requires ss[k].status == Settled && k < i && ss[i].status == Settled ==> p !in ss[i].totals
    ensures i !in Moved(ss, k, [(p, native)])
  {
    assert k < i && ss[k].status == Settled ==> !Touches(ss[i], {p});
    if ss[k].status == Settled && i in RebaseAt(ss, k + 1, {p}) {
      RebaseTouches(ss, k + 1, {p}, i);
    }
    assert map[p := native].Keys == {p};
  }

  /** Settled by a native total of one provider, at this cost. */
  predicate NativelySettled(s: Session, p: string, native: real, cost: real) {
    && s.status == Settled
    && s.provenance == Some(NativeReported)
    && s.totals == map[p := native]
    && s.cost == Some(cost)
  }

  /** No live session after this one is settled with a total of the provider. */
  predicate SparesLive(ss: seq<Session>, inputs: seq<Candidate>, k: nat, p: string)
    requires |inputs| == |ss|
  {
    forall i :: k < i < |inputs| && inputs[i].live && ss[i].status == Settled ==> p !in ss[i].totals
  }

  /** The candidate is eligible, and its own receipt states a final total for one provider
      that reaches no live session. */
  predicate Offers(before: State, inputs: seq<Candidate>, k: nat, r: Receipt, host: Host, p: string, native: real)
    requires k < |inputs| == |before.sessions|
  {
    var s, c := before.sessions[k], inputs[k];
    && !c.live && c.validId && !s.archived && s.bridge.Some?
    && c.receipt.Some? && c.receipt.value.Readable?
    && c.receipt.value.receipt == r && c.receipt.value.host == host
    && r.id == s.id && FinalTotals(r) == Some([(p, native)])
    && (s.status == Settled ==>
          Estimated(s.provenance) && !c.receipt.value.applied && SparesLive(before.sessions, inputs, k, p))
  }

  lemma NoLiveMoved(before: State, st: State, k: nat, inputs: seq<Candidate>, p: string, native: real)
    requires LiveUntouched(before.sessions, st.sessions, inputs) && k < |inputs|
    requires st.sessions[k].status == Settled ==> SparesLive(before.sessions, inputs, k, p)
    requires AsTotals([(p, native)]) == map[p := native] && ClampAt(st.sessions, k, [(p, native)]) == []
    ensures forall i :: 0 <= i < |inputs| && inputs[i].live ==> i !in Moved(st.sessions, k, [(p, native)])
  {
    forall i | 0 <= i < |inputs| && inputs[i].live ensures i !in Moved(st.sessions, k, [(p, native)]) {
      OneMoves(st.sessions, k, p, native, i);
    }
  }

  lemma OneEligible(before: State, st: State, k: nat, inputs: seq<Candidate>, r: Receipt, host: Host, p: string,
                    native: real, t: Ticks)
    requires UniqueIds(st.sessions) && LiveUntouched(before.sessions, st.sessions, inputs) && k < |inputs|
    requires Alike(before.sessions[k], st.sessions[k]) && Offers(before, inputs, k, r, host, p, native)
    requires native >= Baseline(st.sessions[..k], p) && Acceptable(st, k, r, host, p, native, t)
    ensures Eligible(before.sessions[k], inputs[k]) && Usable(st, before.sessions[k], inputs[k], t)
    ensures inputs[k].receipt.value.receipt == r
    ensures forall i :: 0 <= i < |inputs| && inputs[i].live ==> i !in Moved(st.sessions, k, [(p, native)])
    ensures AsTotals([(p, native)]) == map[p := native]
    ensures Charge(st.sessions[..k], [(p, native)]) == native - Baseline(st.sessions[..k], p)
  {
    OneUsable(st, k, r, host, p, native, t);
    NoLiveMoved(before, st, k, inputs, p, native);
  }

  lemma OneTurn(before: State, st: State, k: nat, inputs: seq<Candidate>, vague: set<string>, noted: bool, t: Ticks,
                outcome: Outcome, next: State, r: Receipt, host: Host, p: string, native: real, cost: real)
    requires Turn(before, st, k, inputs, vague, noted, t, outcome, next)
    requires Alike(before.sessions[k], st.sessions[k]) && Offers(before, inputs, k, r, host, p, native)
    requires cost == native - Baseline(st.sessions[..k], p) && cost >= 0.0
    requires Acceptable(st, k, r, host, p, native, t)
    ensures outcome == Planned
    ensures NativelySettled(next.sessions[k], p, native, cost)
  {
    OneEligible(before, st, k, inputs, r, host, p, native, t);
    UsableTurn(before, st, k, inputs, vague, noted, t, outcome, next);
  }

  /** Exactly which candidates of a recovery are left untouched, fail or are planned. */
  lemma PlanOutcome(before: State, inputs: seq<Candidate>, vague: set<string>, noted: bool, t: Ticks,
                    drafts: seq<State>, outcomes: seq<Outcome>, k: nat)
    requires Planning(before, inputs, vague, noted, t, drafts, outcomes)
    requires k < |outcomes| && |inputs| == |before.sessions|
    ensures Reconciled(drafts[k]) && WellFormedFile(inputs[k])
    ensures outcomes[k] == Untouched <==> Idle(before.sessions[k], inputs[k])
    ensures outcomes[k] == Failed <==>
              && !Idle(before.sessions[k], inputs[k])
              && Hindered(before, drafts[k], before.sessions[k], inputs, k, t)
  {
    UntilTurn(before, inputs, vague, noted, t, drafts, outcomes, k, k);
    assert TurnAt(before, inputs, vague, noted, t, drafts, outcomes, k);
    TurnOutcome(before, drafts[k], k, inputs, vague, noted, t, outcomes[k], drafts[k + 1]);
  }

  lemma PlannedAt(before: State, inputs: seq<Candidate>, vague: set<string>, noted: bool, t: Ticks,
                  drafts: seq<State>, outcomes: seq<Outcome>, k: nat, r: Receipt, host: Host, p: string,
                  native: real, cost: real)
    requires Planning(before, inputs, vague, noted, t, drafts, outcomes)
    requires k < |outcomes| && |inputs| == |before.sessions| && Offers(before, inputs, k, r, host, p, native)
    requires cost == native - Baseline(drafts[k].sessions[..k], p) && cost >= 0.0
    requires Acceptable(drafts[k], k, r, host, p, native, t)
    ensures outcomes[k] == Planned && NativelySettled(drafts[k + 1].sessions[k], p, native, cost)
  {
    UntilTurn(before, inputs, vague, noted, t, drafts, outcomes, k, k);
    assert TurnAt(before, inputs, vague, noted, t, drafts, outcomes, k);
    OneTurn(before, drafts[k], k, inputs, vague, noted, t, outcomes[k], drafts[k + 1], r, host, p, native, cost);
  }

  /** A usable native receipt is always planned. Its candidate is not live and not
      archived, has a valid identity and a bridge, and the receipt is its own, was not
      applied before, states a final total for one provider at or above the planned
      baseline, is acceptable, and reaches no live session. Then, whatever the other
      candidates are, the whole plan ends with the session settled by the receipt. */
  lemma ReceiptPlanned(before: State, inputs: seq<Candidate>, vague: set<string>, noted: bool, t: Ticks,
                       drafts: seq<State>, outcomes: seq<Outcome>, k: nat, r: Receipt, host: Host, p: string,
                       native: real, cost: real)
    requires Planning(before, inputs, vague, noted, t, drafts, outcomes)
    requires |outcomes| == |inputs| == |before.sessions| && k < |inputs|
    requires Offers(before, inputs, k, r, host, p, native)
    requires cost == native - Baseline(drafts[k].sessions[..k], p) && cost >= 0.0
    requires Acceptable(drafts[k], k, r, host, p, native, t)
    ensures outcomes[k] == Planned && |drafts[|inputs|].sessions| == |inputs|
    ensures NativelySettled(drafts[|inputs|].sessions[k], p, native, cost)
  {
    PlannedAt(before, inputs, vague, noted, t, drafts, outcomes, k, r, host, p, native, cost);
    AfterTurn(before, inputs, vague, noted, t, drafts, outcomes, |inputs|, k);
  }
}
