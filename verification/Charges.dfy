/** What a saved journal charges, and what it or a lower bound reserves: stated of the
    session that the call leaves behind. */
module Charges {
  import opened Wrappers
  import opened Ledger
  import opened Selection
  import opened Receipts
  import opened Writers
  import opened Conservation
  import opened HonestWriters
  import ChainRuns
  import ChainSteps
  import RepeatedReceipts

  /** The larger of what the journal costs and what was certain already. */
  predicate ChargesJournal(cost: real, was: Session, saved: Saved) {
    var lower := was.lowerCost.GetOr(0.0);
    cost >= saved.cost && cost >= lower && (cost == saved.cost || cost == lower)
  }

  predicate LargestOf(x: real, a: real, b: real, c: real) {
    x >= a && x >= b && x >= c && (x == a || x == b || x == c)
  }

  /** What is held for the rest of a session: the tail recorded for this checkpoint, else a
      full further estimate. */
  predicate HoldsTail(reserve: real, was: Session, saved: Saved, cost: real, estimate: real) {
    if was.checkpoint == Some((saved.mark, cost)) && was.tail.Some? then reserve == was.tail.value
    else LargestOf(reserve, was.estimate, estimate, cost)
  }

  /** What charging the journal makes of the session. */
  predicate JournalOutcome(s: Session, was: Session, saved: Saved, estimate: real) {
    && ChargesJournal(Cost(s), was, saved)
    && (if saved.complete then s.status == Settled && s.provenance == Some(TokenPriced)
        else s.status == Provisional && s.reserve.Some?
             && HoldsTail(s.reserve.value, was, saved, Cost(s), estimate))
  }

  lemma SameElsewhere(ss: seq<Session>, out: seq<Session>, k: nat)
    requires k < |ss| == |out| && forall m :: 0 <= m < |ss| && m != k ==> out[m] == ss[m]
    ensures out == ss[k := out[k]]
  {
  }

  lemma CompleteCharged(st: State, k: nat, saved: Saved, cost: real, t: Ticks) returns (s: Session)
    requires UniqueIds(st.sessions) && k < |st.sessions|
    ensures var tx := Append([AccrueEvent(st, t.accrual)]
                             + EstimateEvents(st.sessions[k], st.sessions[..k], saved, cost));
            After(st, tx, t).Some? && After(st, tx, t).value.sessions == st.sessions[k := s]
    ensures s.status == Settled && s.provenance == Some(TokenPriced) && s.cost == Some(cost)
  {
    var events := EstimateEvents(st.sessions[k], st.sessions[..k], saved, cost);
    var base := ChainSteps.Started(st, t.accrual);
    ChainRuns.SettleEffect(base, k, Cost(st.sessions[k]) != 0.0, events[|events| - 1], t.stamp);
    ChainSteps.AfterAccrual(st, events, t);
    var out := ApplyAll(base, events, t.stamp).value.sessions;
    s := out[k];
    SameElsewhere(st.sessions, out, k);
  }

  lemma PrefixCharged(st: State, k: nat, stamp: (string, real), cost: real, tail: real, t: Ticks) returns (s: Session)
    requires UniqueIds(st.sessions) && k < |st.sessions|
    ensures var tx := Append([AccrueEvent(st, t.accrual)] + PrefixEvents(st.sessions[k], stamp, cost, tail));
            After(st, tx, t).Some? && After(st, tx, t).value.sessions == st.sessions[k := s]
    ensures s.status == Provisional && s.cost == Some(cost) && s.reserve == Some(tail)
  {
    var out := ChainSteps.PrefixOutcome(st, k, stamp, cost, tail, t);
    s := out[k];
  }

  /** A journal is charged at its price, or at the certain lower bound if that is more; an
      incomplete one also holds a further estimate. */
  lemma JournalAfter(st: State, k: nat, saved: Saved, estimate: real, t: Ticks) returns (s: Session)
    requires UniqueIds(st.sessions) && k < |st.sessions| && st.sessions[k].status != Settled
    ensures var next := After(st, UsageTx(st, k, saved, estimate, t), t);
            next.Some? && next.value.sessions == st.sessions[k := s]
    ensures JournalOutcome(s, st.sessions[k], saved, estimate)
  {
    var was := st.sessions[k];
    var cost := Max(saved.cost, was.lowerCost.GetOr(0.0));
    var stamp := (saved.mark, cost);
    var tail := if was.checkpoint == Some(stamp) && was.tail.Some? then was.tail.value
                else Max(Max(was.estimate, estimate), cost);
    if saved.complete {
      s := CompleteCharged(st, k, saved, cost, t);
    } else if Cost(was) == cost && was.reserve == Some(tail) && was.status == Provisional {
      s := was;
    } else {
      s := PrefixCharged(st, k, stamp, cost, tail, t);
    }
  }

  /** The state that a call leaves, from the state after its transaction. */
  lemma LeftSessions(files: Files, st: State, tx: Tx, queue: Option<Queue>, t: Ticks, ss: seq<Session>)
    requires Replay(files.ledger) == Some(st)
    requires After(st, tx, t).Some? && After(st, tx, t).value.sessions == ss
    ensures Holds(Left(files, st, tx, queue, t).ledger, ss)
  {
    if tx.Append? {
      ReplayAppend(files.ledger, RecordOf(st, tx.events, t));
    }
  }

  /** The ledger records these sessions. */
  predicate Holds(ledger: seq<Record>, ss: seq<Session>) {
    Replay(ledger).Some? && Replay(ledger).value.sessions == ss
  }

  lemma JournalTx(st: State, k: nat, saved: Saved, estimate: real, tx: Tx, t: Ticks) returns (s: Session)
    requires UniqueIds(st.sessions) && k < |st.sessions| && st.sessions[k].status != Settled
    requires tx == RecoverTx(st, st.sessions[k].id, Some(saved), false, t)
    requires estimate == Estimate(st.sessions, st.sessions[k].model, Some(st.sessions[k].phase), false)
    ensures After(st, tx, t).Some? && After(st, tx, t).value.sessions == st.sessions[k := s]
    ensures JournalOutcome(s, st.sessions[k], saved, estimate)
  {
    IndexOfUnique(st.sessions, k);
    s := JournalAfter(st, k, saved, estimate, t);
  }

  lemma JournalLeft(files: Files, st: State, k: nat, saved: Saved, estimate: real, tx: Tx, queue: Option<Queue>,
                    t: Ticks) returns (s: Session)
    requires Replay(files.ledger) == Some(st)
    requires UniqueIds(st.sessions) && k < |st.sessions| && st.sessions[k].status != Settled
    requires tx == RecoverTx(st, st.sessions[k].id, Some(saved), false, t)
    requires estimate == Estimate(st.sessions, st.sessions[k].model, Some(st.sessions[k].phase), false)
    ensures Holds(Left(files, st, tx, queue, t).ledger, st.sessions[k := s])
    ensures JournalOutcome(s, st.sessions[k], saved, estimate)
  {
    s := JournalTx(st, k, saved, estimate, tx, t);
    LeftSessions(files, st, tx, queue, t, st.sessions[k := s]);
  }

  /** Recovering the usage of an open session that has stopped replaces it by a charged one,
      and changes nothing else. */
  lemma JournalCharged(files: Files, st: State, k: nat, saved: Saved, estimate: real, t: Ticks) returns (s: Session)
    requires Sound(files.ledger) && Replay(files.ledger) == Some(st)
    requires k < |st.sessions| && st.sessions[k].status != Settled
    requires estimate == Estimate(st.sessions, st.sessions[k].model, Some(st.sessions[k].phase), false)
    ensures Holds(Step(files, RecoverUsage(st.sessions[k].id, Some(saved), false), t).ledger, st.sessions[k := s])
    ensures JournalOutcome(s, st.sessions[k], saved, estimate)
  {
    var tx := RecoverTx(st, st.sessions[k].id, Some(saved), false, t);
    s := JournalLeft(files, st, k, saved, estimate, tx, files.queue, t);
    UsageStep(files, st, st.sessions[k].id, Some(saved), false, t);
  }

  lemma UsageStep(files: Files, st: State, id: string, saved: Option<Saved>, live: bool, t: Ticks)
    requires Replay(files.ledger) == Some(st)
    ensures Step(files, RecoverUsage(id, saved, live), t)
         == Left(files, st, RecoverTx(st, id, saved, live, t), files.queue, t)
  {
  }

  /** Nothing is charged to a session that is settled or unknown or still runs, or without
      a journal. */
  lemma NothingCharged(files: Files, st: State, id: string, saved: Option<Saved>, live: bool, t: Ticks)
    requires Replay(files.ledger) == Some(st)
    requires !Has(st.sessions, id) || Get(st.sessions, id).status == Settled || live || saved.None?
    ensures Step(files, RecoverUsage(id, saved, live), t) == files
  {
    UsageStep(files, st, id, saved, live, t);
  }

  // ------------------------------------------------------------- lower bounds

  /** The full further estimate beside what is known, or the tail of a charged prefix. */
  predicate FurtherEstimate(further: real, s: Session, estimate: real, known: real) {
    if s.provenance == Some(TokenPricedPrefix) && s.tail.Some? then further == s.tail.value
    else LargestOf(further, s.estimate, estimate, known)
  }

  /** Together with what was charged already the reservation pays for what is known and for
      the further estimate; it never falls, and it never eats into the estimate. */
  predicate Covers(reserve: real, s: Session, known: real, further: real) {
    reserve + Cost(s) >= known + further && reserve >= further && reserve >= s.reserve.GetOr(0.0)
  }

  /** What a lower bound makes of the session. */
  predicate BoundOutcome(s: Session, was: Session, r: Receipt, known: real, further: real) {
    && s.status == (if LowerBoundOnly(r) then Provisional else Unresolved)
    && s.cost == was.cost && s.lowerTotals == AsTotals(LowerTotals(r))
    && s.reserve.Some? && Covers(s.reserve.value, was, known, further)
  }

  lemma BoundAfter(st: State, k: nat, r: Receipt, known: real, estimate: real, t: Ticks, other: real)
    returns (s: Session, further: real)
    requires UniqueIds(st.sessions) && k < |st.sessions| && r.id == st.sessions[k].id
    ensures Has(st.sessions, r.id)
    ensures var next := After(st, BoundTx(st, r, known, estimate, t), t);
            next.Some? && next.value.sessions == st.sessions[k := s]
    ensures FurtherEstimate(further, st.sessions[k], estimate, known)
    ensures BoundOutcome(s, st.sessions[k], r, known, further)
    ensures Covers(other, st.sessions[k], known, further) ==> s.reserve.value <= other
  {
    IndexOfUnique(st.sessions, k);
    var was := st.sessions[k];
    further := if was.provenance == Some(TokenPricedPrefix) && was.tail.Some? then was.tail.value
               else Max(Max(was.estimate, estimate), known);
    var tx := BoundTx(st, r, known, estimate, t);
    if tx.Append? {
      var next := ChainSteps.HoldOutcome(st, tx.events[1], t);
      s := Unresolving(was, tx.events[1]);
    } else {
      s := was;
    }
  }

  /** Every amount of the lower bound is possible: none is negative or below a baseline. */
  predicate PossibleBound(prior: seq<Session>, lower: Entries) {
    && lower != []
    && forall i :: 0 <= i < |lower| ==> lower[i].1 >= 0.0 && lower[i].1 >= Baseline(prior, lower[i].0)
  }

  lemma BoundScreened(st: State, k: nat, r: Receipt, host: Host, t: Ticks)
    requires UniqueIds(st.sessions) && k < |st.sessions| && r.id == st.sessions[k].id
    requires st.sessions[k].status != Settled && FinalTotals(r).None?
    requires r.finished.Some? ==> st.sessions[k].started <= r.finished.value <= t.now
    requires PossibleBound(st.sessions[..k], LowerTotals(r))
    ensures Screened(st, r, host, t).None?
  {
    IndexOfUnique(st.sessions, k);
  }

  lemma BoundPossible(st: State, k: nat, r: Receipt, known: real, estimate: real, t: Ticks)
    requires UniqueIds(st.sessions) && k < |st.sessions| && r.id == st.sessions[k].id
    requires PossibleBound(st.sessions[..k], LowerTotals(r))
    requires known == Sum(Differences(st.sessions[..k], LowerTotals(r)))
    requires estimate == Estimate(st.sessions, st.sessions[k].model, Some(st.sessions[k].phase), false)
    ensures Has(st.sessions, r.id) && LowerBoundTx(st, r, t) == Some(BoundTx(st, r, known, estimate, t))
  {
    IndexOfUnique(st.sessions, k);
  }

  lemma BoundReceipt(st: State, k: nat, r: Receipt, host: Host, known: real, estimate: real, tx: Tx, t: Ticks)
    requires UniqueIds(st.sessions) && k < |st.sessions| && r.id == st.sessions[k].id
    requires st.sessions[k].status != Settled && FinalTotals(r).None?
    requires r.finished.Some? ==> st.sessions[k].started <= r.finished.value <= t.now
    requires PossibleBound(st.sessions[..k], LowerTotals(r))
    requires known == Sum(Differences(st.sessions[..k], LowerTotals(r)))
    requires estimate == Estimate(st.sessions, st.sessions[k].model, Some(st.sessions[k].phase), false)
    requires tx == ReceiptTx(st, r, host, t)
    ensures Has(st.sessions, r.id) && tx == BoundTx(st, r, known, estimate, t)
  {
    BoundScreened(st, k, r, host, t);
    BoundPossible(st, k, r, known, estimate, t);
  }

  lemma BoundOf(st: State, k: nat, r: Receipt, host: Host, known: real, estimate: real, tx: Tx, t: Ticks, other: real)
    returns (s: Session, further: real)
    requires UniqueIds(st.sessions) && k < |st.sessions| && r.id == st.sessions[k].id
    requires st.sessions[k].status != Settled && FinalTotals(r).None?
    requires r.finished.Some? ==> st.sessions[k].started <= r.finished.value <= t.now
    requires PossibleBound(st.sessions[..k], LowerTotals(r))
    requires known == Sum(Differences(st.sessions[..k], LowerTotals(r)))
    requires estimate == Estimate(st.sessions, st.sessions[k].model, Some(st.sessions[k].phase), false)
    requires tx == ReceiptTx(st, r, host, t)
    ensures After(st, tx, t).Some? && After(st, tx, t).value.sessions == st.sessions[k := s]
    ensures FurtherEstimate(further, st.sessions[k], estimate, known)
    ensures BoundOutcome(s, st.sessions[k], r, known, further)
    ensures Covers(other, st.sessions[k], known, further) ==> s.reserve.value <= other
  {
    BoundReceipt(st, k, r, host, known, estimate, tx, t);
    s, further := BoundAfter(st, k, r, known, estimate, t, other);
  }

  lemma BoundLeft(files: Files, st: State, k: nat, r: Receipt, host: Host, known: real, estimate: real, tx: Tx,
                  queue: Option<Queue>, t: Ticks, other: real)
    returns (s: Session, further: real)
    requires Replay(files.ledger) == Some(st)
    requires UniqueIds(st.sessions) && k < |st.sessions| && r.id == st.sessions[k].id
    requires st.sessions[k].status != Settled && FinalTotals(r).None?
    requires r.finished.Some? ==> st.sessions[k].started <= r.finished.value <= t.now
    requires PossibleBound(st.sessions[..k], LowerTotals(r))
    requires known == Sum(Differences(st.sessions[..k], LowerTotals(r)))
    requires estimate == Estimate(st.sessions, st.sessions[k].model, Some(st.sessions[k].phase), false)
    requires tx == ReceiptTx(st, r, host, t)
    ensures Holds(Left(files, st, tx, queue, t).ledger, st.sessions[k := s])
    ensures FurtherEstimate(further, st.sessions[k], estimate, known)
    ensures BoundOutcome(s, st.sessions[k], r, known, further)
    ensures Covers(other, st.sessions[k], known, further) ==> s.reserve.value <= other
  {
    s, further := BoundOf(st, k, r, host, known, estimate, tx, t, other);
    LeftSessions(files, st, tx, queue, t, st.sessions[k := s]);
  }

  /** A lower bound reserves the least amount that, with what was charged already, covers
      what is known and a full further estimate, and that is not below the old reservation. */
  lemma BoundReserved(files: Files, st: State, k: nat, r: Receipt, host: Host, t: Ticks, known: real, estimate: real,
                      other: real) returns (s: Session, further: real)
    requires Sound(files.ledger) && Replay(files.ledger) == Some(st)
    requires k < |st.sessions| && r.id == st.sessions[k].id && st.sessions[k].status != Settled
    requires FinalTotals(r).None? && PossibleBound(st.sessions[..k], LowerTotals(r))
    requires r.finished.Some? ==> st.sessions[k].started <= r.finished.value <= t.now
    requires known == Sum(Differences(st.sessions[..k], LowerTotals(r)))
    requires estimate == Estimate(st.sessions, st.sessions[k].model, Some(st.sessions[k].phase), false)
    ensures Holds(Step(files, SettleReceipt(r, host), t).ledger, st.sessions[k := s])
    ensures FurtherEstimate(further, st.sessions[k], estimate, known)
    ensures BoundOutcome(s, st.sessions[k], r, known, further)
    ensures Covers(other, st.sessions[k], known, further) ==> s.reserve.value <= other
  {
    var tx := ReceiptTx(st, r, host, t);
    s, further := BoundLeft(files, st, k, r, host, known, estimate, tx, files.queue, t, other);
    RepeatedReceipts.ReceiptStep(files, st, r, host, t);
  }
}
