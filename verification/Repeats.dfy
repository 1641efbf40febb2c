/** A native receipt is recorded once: whatever happens after it, another receipt for
    its session changes nothing. */
module SettledSessions {
  import opened Wrappers
  import opened Ledger
  import opened Receipts
  import opened Writers
  import opened Conservation
  import opened SessionIndex

  predicate Closed(ss: seq<Session>, id: string) {
    Has(ss, id) && Get(ss, id).status == Settled
  }

  /** Settled by an authoritative receipt, or by hand. */
  predicate Certain(ss: seq<Session>, id: string) {
    Closed(ss, id) && !Estimated(Get(ss, id).provenance)
  }

  /** The event does not turn this session into an estimate. */
  predicate Respects(e: Event, id: string) {
    e.Correct? && e.id == id ==> !Estimated(e.provenance)
  }

  predicate RespectsAll(events: seq<Event>, id: string) {
    forall i :: 0 <= i < |events| ==> Respects(events[i], id)
  }

  lemma ApplyKeepsClosed(st: State, e: Event, stamp: real, id: string)
    requires UniqueIds(st.sessions) && Honest(st, e) && Apply(st, e, stamp).Some?
    requires Closed(st.sessions, id)
    ensures Closed(Apply(st, e, stamp).value.sessions, id)
  {
    match e
    case Admit(s) => HasAfterPut(st.sessions, s, id);
    case Settle(k, _, _, _, _, _, _) => HasAfterPut(st.sessions, Settling(Get(st.sessions, k), e, stamp), id);
    case Correct(k, _, _, _, _, _) => HasAfterPut(st.sessions, Correcting(Get(st.sessions, k), e), id);
    case Unresolve(k, _, _, _) => HasAfterPut(st.sessions, Unresolving(Get(st.sessions, k), e), id);
    case _ =>
  }

  lemma ApplyKeepsCertain(st: State, e: Event, stamp: real, id: string)
    requires UniqueIds(st.sessions) && Honest(st, e) && Respects(e, id) && Apply(st, e, stamp).Some?
    requires Certain(st.sessions, id)
    ensures Certain(Apply(st, e, stamp).value.sessions, id)
  {
    match e
    case Admit(s) => HasAfterPut(st.sessions, s, id);
    case Settle(k, _, _, _, _, _, _) => HasAfterPut(st.sessions, Settling(Get(st.sessions, k), e, stamp), id);
    case Correct(k, _, _, _, _, _) => HasAfterPut(st.sessions, Correcting(Get(st.sessions, k), e), id);
    case Unresolve(k, _, _, _) => HasAfterPut(st.sessions, Unresolving(Get(st.sessions, k), e), id);
    case _ =>
  }

  lemma {:induction false} AllKeepClosed(st: State, events: seq<Event>, f: Fund, stamp: real, id: string)
    requires HonestAll(st, events, stamp) && UniqueIds(st.sessions) && Balanced(st, f) && Closed(st.sessions, id)
    requires ApplyAll(st, events, stamp).Some?
    ensures Closed(ApplyAll(st, events, stamp).value.sessions, id)
    decreases |events|
  {
    if events != [] {
      HonestApplies(st, events[0], f, stamp);
      ApplyKeepsClosed(st, events[0], stamp, id);
      AllKeepClosed(Apply(st, events[0], stamp).value, events[1..], Funded(f, events[0]), stamp, id);
    }
  }

  lemma {:induction false} AllKeepCertain(st: State, events: seq<Event>, f: Fund, stamp: real, id: string)
    requires HonestAll(st, events, stamp) && UniqueIds(st.sessions) && Balanced(st, f)
    requires RespectsAll(events, id) && Certain(st.sessions, id) && ApplyAll(st, events, stamp).Some?
    ensures Certain(ApplyAll(st, events, stamp).value.sessions, id)
    decreases |events|
  {
    if events != [] {
      HonestApplies(st, events[0], f, stamp);
      ApplyKeepsCertain(st, events[0], stamp, id);
      AllKeepCertain(Apply(st, events[0], stamp).value, events[1..], Funded(f, events[0]), stamp, id);
    }
  }

  /** The event settles the session natively, or corrects a settled one to a native total. */
  predicate Confirms(ss: seq<Session>, e: Event, id: string) {
    || (e.Settle? && e.id == id && e.provenance == Some(NativeReported))
    || (e.Correct? && e.id == id && e.provenance == Some(NativeReported) && Closed(ss, id))
  }

  lemma ConfirmedIsCertain(st: State, e: Event, stamp: real, id: string)
    requires UniqueIds(st.sessions) && Confirms(st.sessions, e, id) && Apply(st, e, stamp).Some?
    ensures Certain(Apply(st, e, stamp).value.sessions, id)
  {
    var s := if e.Settle? then Settling(Get(st.sessions, id), e, stamp) else Correcting(Get(st.sessions, id), e);
    HasAfterPut(st.sessions, s, id);
  }

  /** A confirmed session stays certain through the later events. */
  lemma CertainAfter(st: State, before: seq<Event>, e: Event, after: seq<Event>, f: Fund, stamp: real, id: string)
    requires UniqueIds(st.sessions) && Balanced(st, f) && HonestAll(st, before + ([e] + after), stamp)
    requires Confirms(st.sessions, e, id) && RespectsAll(after, id)
    ensures ApplyAll(st, before + ([e] + after), stamp).Some?
    ensures Certain(ApplyAll(st, before + ([e] + after), stamp).value.sessions, id)
  {
    HonestSplit(st, before, [e] + after, stamp);
    HonestAllApplies(st, before, f, stamp);
    var mid := ApplyAll(st, before, stamp).value;
    if Closed(st.sessions, id) {
      AllKeepClosed(st, before, f, stamp, id);
    }
    assert ([e] + after)[1..] == after;
    var g := FundedAll(f, before);
    HonestApplies(mid, e, g, stamp);
    ConfirmedIsCertain(mid, e, stamp, id);
    var next := Apply(mid, e, stamp).value;
    HonestAllApplies(next, after, Funded(g, e), stamp);
    AllKeepCertain(next, after, Funded(g, e), stamp, id);
    ApplyAllConcat(st, before, [e] + after, stamp);
  }

  // ----------------------------------------------------- what the writers append

  lemma {:induction false} ClampsRespect(ss: seq<Session>, at: seq<nat>, p: string, native: real, exact: real,
                                         weight: real, cursor: real, id: string)
    requires UniqueIds(ss) && Certain(ss, id)
    requires forall i :: 0 <= i < |at| ==> at[i] < |ss| && Estimated(ss[at[i]].provenance)
    ensures RespectsAll(ClampEvents(ss, at, p, native, exact, weight, cursor), id)
    decreases |at|
  {
    if at != [] {
      var value := Share(ss[at[0]], |at| == 1, native, exact, weight, cursor);
      ClampsRespect(ss, at[1..], p, native, exact, weight, cursor + value, id);
      IndexOfUnique(ss, at[0]);
    }
  }

  lemma {:induction false} ClampAllRespects(ss: seq<Session>, upto: nat, entries: Entries, id: string)
    requires UniqueIds(ss) && Certain(ss, id) && upto <= |ss|
    ensures ClampAll(ss, upto, entries).Some? ==> RespectsAll(ClampAll(ss, upto, entries).value, id)
    decreases |entries|
  {
    if entries != [] {
      var (p, native) := entries[|entries| - 1];
      ClampAllRespects(ss, upto, entries[..|entries| - 1], id);
      var exact := Exact(ss[..upto], p);
      var at := LooseAt(ss, 0, upto, p, exact);
      ClampsRespect(ss, at, p, native, exact, CostAt(ss, at), exact, id);
    }
  }

  lemma {:induction false} RebaseRespects(ss: seq<Session>, from: nat, keys: set<string>, delta: real, id: string)
    requires from <= |ss|
    ensures Rebase(ss, from, keys, delta).Ok? ==> RespectsAll(Rebase(ss, from, keys, delta).value, id)
    decreases |ss| - from
  {
    if from < |ss| {
      RebaseRespects(ss, from + 1, keys, delta, id);
    }
  }

  lemma {:induction false} OrphansRespect(ss: seq<Session>, dead: set<string>, id: string)
    ensures RespectsAll(Orphans(ss, dead), id)
    decreases |ss|
  {
    if ss != [] {
      OrphansRespect(ss[..|ss| - 1], dead, id);
    }
  }

  lemma NativeRespects(st: State, k: nat, r: Receipt, entries: Entries, t: Ticks, id: string)
    requires UniqueIds(st.sessions) && Certain(st.sessions, id)
    requires k < |st.sessions| && ClampAll(st.sessions, k, entries).Some?
    ensures var tx := NativeTx(st, k, r, entries, ClampAll(st.sessions, k, entries).value, t);
            tx.Append? ==> RespectsAll(tx.events, id)
  {
    ClampAllRespects(st.sessions, k, entries, id);
    RebaseRespects(st.sessions, k + 1, AsTotals(entries).Keys,
                   Charge(st.sessions[..k], entries) - Cost(st.sessions[k]), id);
  }

  lemma BoundRespects(st: State, r: Receipt, t: Ticks, id: string)
    requires Has(st.sessions, r.id)
    ensures var tx := LowerBoundTx(st, r, t); tx.Some? && tx.value.Append? ==> RespectsAll(tx.value.events, id)
  {
  }

  lemma ReceiptRespects(st: State, r: Receipt, host: Host, t: Ticks, id: string)
    requires UniqueIds(st.sessions) && Certain(st.sessions, id)
    ensures var tx := ReceiptTx(st, r, host, t); tx.Append? ==> RespectsAll(tx.events, id)
  {
    var tx := ReceiptForms(st, r, host, t);
    if tx.Append? {
      BoundRespects(st, r, t, id);
      var k, totals := IndexOf(st.sessions, r.id), FinalTotals(r);
      if totals.Some? && ClampAll(st.sessions, k, totals.value).Some? {
        NativeRespects(st, k, r, totals.value, t, id);
      }
    }
  }
}

module RepeatedReceipts {
  import opened Wrappers
  import opened Ledger
  import opened Selection
  import opened Receipts
  import opened Writers
  import opened Conservation
  import opened HonestWriters
  import opened RunConservation
  import opened SettledSessions

  lemma JournalRespects(st: State, k: nat, saved: Saved, estimate: real, t: Ticks, id: string)
    requires k < |st.sessions|
    ensures var tx := UsageTx(st, k, saved, estimate, t); tx.Append? ==> RespectsAll(tx.events, id)
  {
  }

  lemma UsageRespects(st: State, other: string, saved: Option<Saved>, live: bool, t: Ticks, id: string)
    ensures var tx := RecoverTx(st, other, saved, live, t); tx.Append? ==> RespectsAll(tx.events, id)
  {
    if Has(st.sessions, other) && saved.Some? {
      var s := Get(st.sessions, other);
      JournalRespects(st, IndexOf(st.sessions, other), saved.value,
                      Estimate(st.sessions, s.model, Some(s.phase), false), t, id);
    }
  }

  lemma AttemptRespects(st: State, queue: Option<Queue>, r: Request, dead: set<string>, t: Ticks, id: string)
    ensures var tx := AdmitTx(st, queue, r, dead, t).tx; tx.Append? ==> RespectsAll(tx.events, id)
  {
    if AdmitTx(st, queue, r, dead, t).tx.Append? {
      var last := AttemptEvents(st, queue, r, dead, t);
      OrphansRespect(st.sessions, dead, id);
    }
  }

  lemma CostRespects(st: State, other: string, cost: Option<real>, outcome: string, noted: bool, totals: Totals,
                     provenance: Provenance, finished: Option<real>, alive: bool, t: Ticks, id: string)
    ensures var tx := SettleTx(st, other, cost, outcome, noted, totals, provenance, finished, t);
            tx.Append? ==> RespectsAll(tx.events, id)
    ensures cost.Some? ==> var tx := ReconcileTx(st, other, cost.value, noted, alive, t);
                           tx.Append? ==> RespectsAll(tx.events, id)
  {
  }

  lemma WriterRespects(st: State, queue: Option<Queue>, op: Op, t: Ticks, id: string)
    requires UniqueIds(st.sessions) && Certain(st.sessions, id)
    ensures var tx := TxOf(st, queue, op, t); tx.Append? ==> RespectsAll(tx.events, id)
  {
    match op
    case Launch(request, dead) => AttemptRespects(st, queue, request, dead, t, id);
    case SettleReceipt(receipt, host) => ReceiptRespects(st, receipt, host, t, id);
    case RecoverUsage(other, saved, live) => UsageRespects(st, other, saved, live, t, id);
    case SettleCost(other, cost, outcome, noted, totals, provenance, finished) =>
      CostRespects(st, other, cost, outcome, noted, totals, provenance, finished, false, t, id);
    case Reconcile(other, amount, noted, alive) =>
      CostRespects(st, other, Some(amount), "", noted, map[], NativeReported, None, alive, t, id);
    case _ =>
  }

  /** The ledger is sound, and the session is settled by a native receipt or by hand. */
  ghost predicate Confirmed(ledger: seq<Record>, id: string) {
    Sound(ledger) && Certain(Replay(ledger).value.sessions, id)
  }

  lemma TxKeepsConfirmed(files: Files, st: State, tx: Tx, queue: Option<Queue>, t: Ticks, id: string)
    requires Confirmed(files.ledger, id) && Replay(files.ledger) == Some(st)
    requires tx.Append? ==> HonestAll(st, tx.events, t.stamp) && RespectsAll(tx.events, id)
    ensures Confirmed(Left(files, st, tx, queue, t).ledger, id)
  {
    TxSound(files, st, tx, queue, t);
    if tx.Append? {
      HonestNumber(st, tx.events, t.stamp, st.number + 1);
      ReplayAppend(files.ledger, RecordOf(st, tx.events, t));
      AllKeepCertain(st.(number := st.number + 1), tx.events, FundOf(files.ledger), t.stamp, id);
    }
  }

  lemma StepKeepsConfirmed(files: Files, op: Op, t: Ticks, id: string) returns (next: seq<Record>)
    requires Confirmed(files.ledger, id) && WellFormed(op)
    ensures next == Step(files, op, t).ledger && Confirmed(next, id)
  {
    var st := Replay(files.ledger).value;
    var tx, queue := TxOf(st, files.queue, op, t), QueueAfter(st, files.queue, op, t);
    next := Left(files, st, tx, queue, t).ledger;
    assert Confirmed(next, id) by {
      WriterHonest(st, files.queue, op, t);
      WriterRespects(st, files.queue, op, t, id);
      TxKeepsConfirmed(files, st, tx, queue, t, id);
    }
  }

  lemma {:induction false} RunKeepsConfirmed(files: Files, calls: seq<Call>, id: string)
    requires Confirmed(files.ledger, id) && AllWellFormed(calls)
    ensures Confirmed(Run(files, calls).ledger, id)
  {
    if calls != [] {
      var init, last := calls[..|calls| - 1], calls[|calls| - 1];
      RunKeepsConfirmed(files, init, id);
      var next := StepKeepsConfirmed(Run(files, init), last.op, last.t, id);
    }
  }

  /** The receipt passes all checks, and every provider is at or above its baseline or
      can be clamped: its amounts are recorded. */
  predicate Recorded(st: State, r: Receipt, host: Host, t: Ticks) {
    && ReceiptTx(st, r, host, t).Append?
    && FinalTotals(r).Some?
    && ClampAll(st.sessions, IndexOf(st.sessions, r.id), FinalTotals(r).value).Some?
  }

  /** The event that records the amounts, and what stands before and after it. */
  lemma NativeEvents(st: State, k: nat, r: Receipt, entries: Entries, clamps: seq<Event>, t: Ticks)
    returns (before: seq<Event>, e: Event, after: seq<Event>)
    requires k < |st.sessions| && k == IndexOf(st.sessions, r.id) && NativeTx(st, k, r, entries, clamps, t).Append?
    ensures NativeTx(st, k, r, entries, clamps, t) == Append(before + ([e] + after))
    ensures Confirms(st.sessions, e, r.id) && RespectsAll(after, r.id)
  {
    var s, cost := st.sessions[k], Charge(st.sessions[..k], entries);
    var accrual := [AccrueEvent(st, t.accrual)];
    if s.status == Settled {
      var keys := AsTotals(entries).Keys;
      after := Rebase(st.sessions, k + 1, keys, cost - Cost(s)).value;
      before, e := accrual + clamps, OwnCorrection(s, r, entries, cost);
      RebaseRespects(st.sessions, k + 1, keys, cost - Cost(s), r.id);
      assert accrual + (clamps + ([e] + after)) == before + ([e] + after);
    } else {
      before, after := accrual + clamps + Undo(s), [];
      e := Settle(s.id, cost, r.outcome, AsTotals(entries), Some(NativeReported), FinishOf(r.finished), r.noted);
      assert accrual + (clamps + (Undo(s) + [e])) == before + ([e] + after);
    }
  }

  lemma EventsConfirm(ledger: seq<Record>, st: State, before: seq<Event>, e: Event, after: seq<Event>, t: Ticks,
                      id: string)
    requires Sound(ledger) && Replay(ledger) == Some(st) && HonestAll(st, before + ([e] + after), t.stamp)
    requires Confirms(st.sessions, e, id) && RespectsAll(after, id)
    ensures Confirmed(ledger + [RecordOf(st, before + ([e] + after), t)], id)
  {
    var events := before + ([e] + after);
    var rec := RecordOf(st, events, t);
    TxSound(Files(ledger, None), st, Append(events), None, t);
    HonestNumber(st, events, t.stamp, rec.number);
    ReplayAppend(ledger, rec);
    CertainAfter(st.(number := rec.number), before, e, after, FundOf(ledger), t.stamp, id);
  }

  lemma NativeConfirms(ledger: seq<Record>, st: State, r: Receipt, entries: Entries, clamps: seq<Event>, tx: Tx,
                       t: Ticks)
    requires Sound(ledger) && Replay(ledger) == Some(st) && Has(st.sessions, r.id)
    requires tx == NativeTx(st, IndexOf(st.sessions, r.id), r, entries, clamps, t) && tx.Append?
    requires HonestAll(st, tx.events, t.stamp)
    ensures Confirmed(ledger + [RecordOf(st, tx.events, t)], r.id)
  {
    var before, e, after := NativeEvents(st, IndexOf(st.sessions, r.id), r, entries, clamps, t);
    EventsConfirm(ledger, st, before, e, after, t, r.id);
  }

  lemma RecordedTx(st: State, r: Receipt, host: Host, t: Ticks)
    requires Recorded(st, r, host, t)
    ensures Has(st.sessions, r.id)
    ensures var k, entries := IndexOf(st.sessions, r.id), FinalTotals(r).value;
            ReceiptTx(st, r, host, t) == NativeTx(st, k, r, entries, ClampAll(st.sessions, k, entries).value, t)
  {
  }

  lemma RecordedConfirms(ledger: seq<Record>, st: State, r: Receipt, host: Host, t: Ticks) returns (next: seq<Record>)
    requires Sound(ledger) && Replay(ledger) == Some(st) && WellFormed(SettleReceipt(r, host))
             && Recorded(st, r, host, t)
    ensures next == ledger + [RecordOf(st, ReceiptTx(st, r, host, t).events, t)] && Confirmed(next, r.id)
  {
    var tx := ReceiptTx(st, r, host, t);
    var entries := FinalTotals(r).value;
    var clamps := ClampAll(st.sessions, IndexOf(st.sessions, r.id), entries).value;
    next := ledger + [RecordOf(st, tx.events, t)];
    RecordedTx(st, r, host, t);
    assert Confirmed(next, r.id) by {
      ReceiptHonest(st, r, host, t);
      NativeConfirms(ledger, st, r, entries, clamps, tx, t);
    }
  }

  lemma ReceiptStep(files: Files, st: State, r: Receipt, host: Host, t: Ticks)
    requires Replay(files.ledger) == Some(st)
    ensures Step(files, SettleReceipt(r, host), t) == Left(files, st, ReceiptTx(st, r, host, t), files.queue, t)
  {
  }

  /** Idempotence: once a native receipt was recorded, and whatever writers did after it,
      every receipt for its session leaves ledger and queue alone. */
  lemma RepeatedReceipt(files: Files, first: Receipt, host: Host, t: Ticks, calls: seq<Call>,
                        again: Receipt, later: Host, u: Ticks)
    requires Sound(files.ledger) && WellFormed(SettleReceipt(first, host)) && AllWellFormed(calls)
    requires Recorded(Replay(files.ledger).value, first, host, t) && again.id == first.id
    ensures var now := Run(Step(files, SettleReceipt(first, host), t), calls);
            Step(now, SettleReceipt(again, later), u) == now
  {
    var st := Replay(files.ledger).value;
    var next := RecordedConfirms(files.ledger, st, first, host, t);
    var after := Step(files, SettleReceipt(first, host), t);
    assert after.ledger == next by {
      ReceiptStep(files, st, first, host, t);
    }
    RunKeepsConfirmed(after, calls, first.id);
    Unchanged(Run(after, calls), again, later, u);
  }

  lemma Unchanged(files: Files, r: Receipt, host: Host, t: Ticks)
    requires Confirmed(files.ledger, r.id)
    ensures Step(files, SettleReceipt(r, host), t) == files
  {
    assert !ReceiptTx(Replay(files.ledger).value, r, host, t).Append?;
  }
}
