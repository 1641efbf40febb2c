/** Why a recovery plan can be committed: its events mean the same in any state with
    the same sessions, at any time. */
module PlanLaws {
  import opened Wrappers
  import opened Ledger
  import opened Receipts
  import opened Writers
  import opened Conservation
  import opened Corrections
  import opened ReceiptEffects
  import opened HonestWriters

  /** The event's effect does not depend on when its record is written. */
  predicate Timeless(e: Event) {
    e.Settle? ==> e.finish.Stated? || e.noted
  }

  predicate TimelessAll(events: seq<Event>) {
    forall i :: 0 <= i < |events| ==> Timeless(events[i])
  }

  /** A native settlement without a finish time keeps the one already recorded. */
  function Dated(e: Event, ss: seq<Session>): Event {
    if e.Settle? && e.provenance == Some(NativeReported) && e.finish.Unstated? && Has(ss, e.id)
    then Settle(e.id, e.cost, e.outcome, e.totals, e.provenance, Stated(Get(ss, e.id).finished), e.noted)
    else e
  }

  function DatedAll(events: seq<Event>, ss: seq<Session>): (r: seq<Event>)
    ensures |r| == |events| && forall i :: 0 <= i < |events| ==> r[i] == Dated(events[i], ss)
  {
    seq(|events|, i requires 0 <= i < |events| => Dated(events[i], ss))
  }

  function WithoutAccruals(events: seq<Event>): seq<Event>
    decreases |events|
  {
    if events == [] then []
    else (if events[0].Accrue? then [] else [events[0]]) + WithoutAccruals(events[1..])
  }

  /** The same sessions and the same spending; clocks and funds may differ. */
  predicate SameBooks(a: State, b: State) {
    a.sessions == b.sessions && a.spent == b.spent
  }

  lemma ApplySame(a: State, b: State, e: Event, s1: real, s2: real)
    requires SameBooks(a, b) && Timeless(e)
    ensures Apply(a, e, s1).Some? <==> Apply(b, e, s2).Some?
    ensures Apply(a, e, s1).Some? ==> SameBooks(Apply(a, e, s1).value, Apply(b, e, s2).value)
    ensures e.Accrue? ==> Apply(a, e, s1).Some? && SameBooks(Apply(a, e, s1).value, b)
  {
  }

  /** Replaying the planned events without their accruals leads to the same books. */
  lemma {:induction false} ReplaysSame(a: State, b: State, events: seq<Event>, s1: real, s2: real)
    requires SameBooks(a, b) && TimelessAll(events) && ApplyAll(a, events, s1).Some?
    ensures ApplyAll(b, WithoutAccruals(events), s2).Some?
    ensures SameBooks(ApplyAll(a, events, s1).value, ApplyAll(b, WithoutAccruals(events), s2).value)
    decreases |events|
  {
    if events != [] {
      var next := Apply(a, events[0], s1).value;
      ApplySame(a, b, events[0], s1, s2);
      if events[0].Accrue? {
        assert [] + WithoutAccruals(events[1..]) == WithoutAccruals(events[1..]);
        ReplaysSame(next, b, events[1..], s1, s2);
      } else {
        assert WithoutAccruals(events)[1..] == WithoutAccruals(events[1..]);
        ReplaysSame(next, Apply(b, events[0], s2).value, events[1..], s1, s2);
      }
    }
  }

  // ------------------------------------------------------------ stated finish

  /** Only the last event settles a session. */
  predicate SettlesLast(events: seq<Event>) {
    forall i :: 0 <= i < |events| - 1 ==> !events[i].Settle?
  }

  /** Native settlements, of recorded sessions. */
  predicate SettlesNative(events: seq<Event>, ss: seq<Session>) {
    forall i :: 0 <= i < |events| && events[i].Settle? ==>
      events[i].provenance == Some(NativeReported) && Has(ss, events[i].id)
  }

  lemma DatedTimeless(events: seq<Event>, ss: seq<Session>)
    requires SettlesNative(events, ss)
    ensures TimelessAll(DatedAll(events, ss))
  {
    forall i | 0 <= i < |events| ensures Timeless(DatedAll(events, ss)[i]) {
      assert DatedAll(events, ss)[i] == Dated(events[i], ss);
    }
  }

  /** Only settlements, corrections and unresolved marks of recorded sessions. */
  predicate OfSessions(events: seq<Event>, ss: seq<Session>) {
    forall i :: 0 <= i < |events| ==>
      && (events[i].Accrue? || events[i].Settle? || events[i].Correct? || events[i].Unresolve?)
      && (!events[i].Accrue? ==> Has(ss, events[i].id))
  }

  lemma SettleDated(st: State, e: Event, ss: seq<Session>, stamp: real)
    requires HonestAll(st, [e], stamp)
    ensures HonestAll(st, [Dated(e, ss)], stamp)
  {
  }

  /** Stating the finish time changes no amount. */
  lemma DatedHonest(st: State, events: seq<Event>, ss: seq<Session>, stamp: real)
    requires HonestAll(st, events, stamp) && SettlesLast(events)
    ensures HonestAll(st, DatedAll(events, ss), stamp)
  {
    if events == [] {
      assert DatedAll(events, ss) == [];
    } else {
      var n := |events| - 1;
      var init, last := events[..n], events[n];
      assert events == init + [last];
      assert DatedAll(events, ss) == init + [Dated(last, ss)];
      HonestSplit(st, init, [last], stamp);
      SettleDated(ApplyAll(st, init, stamp).value, last, ss, stamp);
      HonestConcat(st, init, [Dated(last, ss)], stamp);
    }
  }

  predicate AllCorrect(events: seq<Event>, ss: seq<Session>) {
    forall i :: 0 <= i < |events| ==> events[i].Correct? && Has(ss, events[i].id)
  }

  lemma TargetsCorrect(ss: seq<Session>, events: seq<Event>, at: seq<nat>)
    requires Targets(ss, events, at)
    ensures AllCorrect(events, ss)
  {
    forall i | 0 <= i < |events| ensures events[i].Correct? && Has(ss, events[i].id) {
      assert ss[at[i]].id == events[i].id;
    }
  }

  /** Planned in a form that can be committed later. */
  predicate Committable(events: seq<Event>, ss: seq<Session>) {
    SettlesLast(events) && SettlesNative(events, ss) && OfSessions(events, ss)
  }

  lemma CorrectedThenSettled(first: Event, a: seq<Event>, b: seq<Event>, last: Event, ss: seq<Session>)
    requires first.Accrue? && AllCorrect(a, ss) && AllCorrect(b, ss)
    requires last.Settle? || last.Correct?
    requires Has(ss, last.id) && (last.Settle? ==> last.provenance == Some(NativeReported))
    ensures last.Correct? ==> Committable([first] + (a + ([last] + b)), ss)
    ensures Committable([first] + (a + (b + [last])), ss)
  {
  }

  lemma NativeSettlesLast(st: State, k: nat, r: Receipt, entries: Entries, t: Ticks)
    requires k < |st.sessions| && DistinctKeys(entries) && ClampAll(st.sessions, k, entries).Some?
    ensures var tx := NativeTx(st, k, r, entries, ClampAll(st.sessions, k, entries).value, t);
            tx.Append? ==> Committable(tx.events, st.sessions)
  {
    var ss := st.sessions;
    assert Has(ss, ss[k].id) by { assert ss[k].id == ss[k].id; }
    var clamps := ClampAll(ss, k, entries).value;
    ClampAllTargets(ss, k, entries);
    TargetsCorrect(ss, clamps, ClampAt(ss, k, entries));
    var cost := Charge(ss[..k], entries);
    var accrual := AccrueEvent(st, t.accrual);
    if ss[k].status == Settled {
      var later := Rebase(ss, k + 1, AsTotals(entries).Keys, cost - Cost(ss[k]));
      if later.Ok? {
        RebaseTargets(ss, k + 1, AsTotals(entries).Keys, cost - Cost(ss[k]));
        TargetsCorrect(ss, later.value, RebaseAt(ss, k + 1, AsTotals(entries).Keys));
        CorrectedThenSettled(accrual, clamps, later.value, OwnCorrection(ss[k], r, entries, cost), ss);
      }
    } else {
      var ending := SettleEvents(ss[k], r, entries, cost);
      CorrectedThenSettled(accrual, clamps, Undo(ss[k]), ending[|ending| - 1], ss);
    }
  }

  lemma HoldCommittable(first: Event, hold: Event, ss: seq<Session>)
    requires first.Accrue? && hold.Unresolve? && Has(ss, hold.id)
    ensures Committable([first, hold], ss)
  {
  }

  lemma BoundCommittable(st: State, r: Receipt, t: Ticks)
    requires Has(st.sessions, r.id)
    ensures var tx := LowerBoundTx(st, r, t);
            tx.Some? && tx.value.Append? ==> Committable(tx.value.events, st.sessions)
  {
    var tx := LowerBoundTx(st, r, t);
    if tx.Some? && tx.value.Append? {
      HoldCommittable(AccrueEvent(st, t.accrual), tx.value.events[1], st.sessions);
    }
  }

  /** A receipt settles at most its own session, and last of all. */
  lemma ReceiptSettlesLast(st: State, r: Receipt, host: Host, t: Ticks)
    requires r.totals.Some? ==> DistinctKeys(r.totals.value)
    ensures var tx := ReceiptTx(st, r, host, t);
            tx.Append? ==> Committable(tx.events, st.sessions)
  {
    var tx := ReceiptTx(st, r, host, t);
    if tx.Append? {
      var k := IndexOf(st.sessions, r.id);
      var totals := FinalTotals(r);
      if totals.Some? && ClampAll(st.sessions, k, totals.value).Some? {
        NativeSettlesLast(st, k, r, totals.value, t);
      } else if totals.None? && LowerBoundTx(st, r, t).Some? {
        BoundCommittable(st, r, t);
      } else {
        HoldCommittable(AccrueEvent(st, t.accrual), Unresolve(r.id, false, FinishOf(r.finished), None), st.sessions);
      }
    }
  }
}
