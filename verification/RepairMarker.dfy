/** After a repair no admission succeeds until the marker is settled. */
module RepairMarker {
  import opened Wrappers
  import opened Ledger
  import opened Receipts
  import opened Writers
  import opened Conservation
  import opened HonestWriters
  import opened RunConservation
  import opened LedgerRepair
  import ChainRuns
  import SessionIndex

  predicate HoldsMarker(ss: seq<Session>, id: string) {
    Has(ss, id) && Get(ss, id).archived
  }

  /** The ledger is sound and holds the marker, settled or not. */
  ghost predicate KeepsMarker(ledger: seq<Record>, id: string) {
    Sound(ledger) && HoldsMarker(Replay(ledger).value.sessions, id)
  }

  /** The ledger holds a repair marker that was not settled yet. */
  predicate Unaudited(ledger: seq<Record>, id: string) {
    && Replay(ledger).Some?
    && HoldsMarker(Replay(ledger).value.sessions, id)
    && Get(Replay(ledger).value.sessions, id).status != Settled
  }

  lemma PutKeepsMark(ss: seq<Session>, s: Session, id: string)
    requires UniqueIds(ss) && HoldsMarker(ss, id) && (s.id == id ==> s.archived)
    ensures HoldsMarker(Put(ss, s), id)
  {
    SessionIndex.HasAfterPut(ss, s, id);
  }

  lemma ApplyKeepsMark(st: State, e: Event, stamp: real, id: string)
    requires UniqueIds(st.sessions) && HoldsMarker(st.sessions, id) && Honest(st, e)
    requires Apply(st, e, stamp).Some?
    ensures HoldsMarker(Apply(st, e, stamp).value.sessions, id)
  {
    match e
    case Admit(s) => PutKeepsMark(st.sessions, s, id);
    case Settle(k, _, _, _, _, _, _) => PutKeepsMark(st.sessions, Settling(Get(st.sessions, k), e, stamp), id);
    case Correct(k, _, _, _, _, _) => PutKeepsMark(st.sessions, Correcting(Get(st.sessions, k), e), id);
    case Unresolve(k, _, _, _) => PutKeepsMark(st.sessions, Unresolving(Get(st.sessions, k), e), id);
    case _ =>
  }

  lemma {:induction false} AllKeepMark(st: State, events: seq<Event>, f: Fund, stamp: real, id: string)
    requires UniqueIds(st.sessions) && HoldsMarker(st.sessions, id) && HonestAll(st, events, stamp) && Balanced(st, f)
    requires ApplyAll(st, events, stamp).Some?
    ensures HoldsMarker(ApplyAll(st, events, stamp).value.sessions, id)
    decreases |events|
  {
    if events != [] {
      HonestApplies(st, events[0], f, stamp);
      ApplyKeepsMark(st, events[0], stamp, id);
      AllKeepMark(Apply(st, events[0], stamp).value, events[1..], Funded(f, events[0]), stamp, id);
    }
  }

  /** No writer removes the marker. */
  lemma StepKeepsMark(files: Files, op: Op, t: Ticks, id: string)
    requires KeepsMarker(files.ledger, id) && WellFormed(op)
    ensures KeepsMarker(Step(files, op, t).ledger, id)
  {
    var st := Replay(files.ledger).value;
    var tx, queue := TxOf(st, files.queue, op, t), QueueAfter(st, files.queue, op, t);
    assert KeepsMarker(Left(files, st, tx, queue, t).ledger, id) by {
      WriterHonest(st, files.queue, op, t);
      TxKeepsMark(files, st, tx, queue, t, id);
    }
  }

  lemma TxKeepsMark(files: Files, st: State, tx: Tx, queue: Option<Queue>, t: Ticks, id: string)
    requires Sound(files.ledger) && Replay(files.ledger) == Some(st) && HoldsMarker(st.sessions, id)
    requires tx.Append? ==> HonestAll(st, tx.events, t.stamp)
    ensures KeepsMarker(Left(files, st, tx, queue, t).ledger, id)
  {
    TxSound(files, st, tx, queue, t);
    if tx.Append? {
      HonestNumber(st, tx.events, t.stamp, st.number + 1);
      ReplayAppend(files.ledger, RecordOf(st, tx.events, t));
      AllKeepMark(st.(number := st.number + 1), tx.events, FundOf(files.ledger), t.stamp, id);
    }
  }

  lemma {:induction false} RunKeepsMark(files: Files, calls: seq<Call>, id: string)
    requires KeepsMarker(files.ledger, id) && AllWellFormed(calls)
    ensures KeepsMarker(Run(files, calls).ledger, id)
  {
    if calls != [] {
      var init, last := calls[..|calls| - 1], calls[|calls| - 1];
      RunKeepsMark(files, init, id);
      StepKeepsMark(Run(files, init), last.op, last.t, id);
    }
  }

  lemma MarkerBlocks(st: State, queue: Queue, r: Request, dead: set<string>, t: Ticks, id: string)
    requires HoldsMarker(st.sessions, id) && Get(st.sessions, id).status != Settled
    ensures Obstacle(st, queue, r, dead, t) == Some(RepairRequired)
  {
    var k := IndexOf(st.sessions, id);
    assert st.sessions[k].status != Settled && st.sessions[k].archived;
    assert NeedsRepair(st.sessions);
  }

  lemma MarkerHonest(st: State, id: string, t: Ticks)
    requires UniqueIds(st.sessions) && !Has(st.sessions, id)
    ensures HonestAll(st, MarkerRecord(st, id, t).events, t.stamp)
  {
    var admit := Admit(Marker(id, t.now));
    LastHonest(Accrued(st, t.accrual), admit, t.stamp);
    AccrueHonest(st, t.accrual, [admit], t.stamp);
    assert [AccrueEvent(st, t.accrual)] + [admit] == MarkerRecord(st, id, t).events;
  }

  lemma MarkerPut(st: State, id: string, now: real, stamp: real)
    requires UniqueIds(st.sessions) && !Has(st.sessions, id)
    ensures var next := Apply(st, Admit(Marker(id, now)), stamp);
            next.Some? && HoldsMarker(next.value.sessions, id) && Get(next.value.sessions, id).status == Unresolved
  {
    SessionIndex.HasAfterPut(st.sessions, Marker(id, now), id);
  }

  lemma MarkerApplied(st: State, id: string, t: Ticks)
    requires UniqueIds(st.sessions) && !Has(st.sessions, id)
    ensures ApplyAll(st, MarkerRecord(st, id, t).events, t.stamp)
         == Apply(Accrued(st, t.accrual), Admit(Marker(id, t.now)), t.stamp)
  {
    AccrualApplies(st, t.accrual, t.stamp);
    TwoEvents(st, AccrueEvent(st, t.accrual), Admit(Marker(id, t.now)), Accrued(st, t.accrual), t.stamp);
  }

  lemma AccrualApplies(st: State, clock: real, stamp: real)
    ensures Apply(st, AccrueEvent(st, clock), stamp) == Some(Accrued(st, clock))
  {
  }

  lemma TwoEvents(st: State, a: Event, b: Event, mid: State, stamp: real)
    requires Apply(st, a, stamp) == Some(mid)
    ensures ApplyAll(st, [a, b], stamp) == Apply(mid, b, stamp)
  {
    assert [a, b][1..] == [b];
    ChainRuns.OneEvent(mid, b, stamp);
  }

  lemma MarkerNumber(st: State, events: seq<Event>, stamp: real, n: nat)
    requires ApplyAll(st, events, stamp).Some?
    ensures ApplyAll(st.(number := n), events, stamp) == Some(ApplyAll(st, events, stamp).value.(number := n))
    decreases |events|
  {
    if events != [] {
      var next := Apply(st, events[0], stamp).value;
      assert Apply(st.(number := n), events[0], stamp) == Some(next.(number := n));
      MarkerNumber(next, events[1..], stamp, n);
    }
  }

  /** The repaired ledger is sound, and its marker is not settled. */
  lemma RepairedIsUnaudited(records: seq<Record>, id: string, t: Ticks)
    requires Sound(records) && !Has(Replay(records).value.sessions, id)
    ensures var repaired := records + [MarkerRecord(Replay(records).value, id, t)];
            Sound(repaired) && Unaudited(repaired, id)
  {
    var st := Replay(records).value;
    var rec := MarkerRecord(st, id, t);
    MarkerHonest(st, id, t);
    MarkerApplied(st, id, t);
    MarkerPut(Accrued(st, t.accrual), id, t.now, t.stamp);
    MarkerNumber(st, rec.events, t.stamp, rec.number);
    HonestNumber(st, rec.events, t.stamp, rec.number);
    HonestAllApplies(st.(number := rec.number), rec.events, FundOf(records), t.stamp);
    ReplayAppend(records, rec);
    assert (records + [rec])[..|records|] == records;
  }
}

/** Only a call that names the marker settles it. */
module RepairAudit {
  import opened Wrappers
  import opened Ledger
  import opened Selection
  import opened Receipts
  import opened Writers
  import opened Conservation
  import opened HonestWriters
  import opened LedgerRepair
  import opened RepairMarker
  import ChainRuns
  import ChainSteps
  import Queueing
  import SessionIndex

  /** The event settles no session with this identity. */
  predicate Spares(e: Event, id: string) {
    e.Settle? ==> e.id != id
  }

  predicate SparesAll(events: seq<Event>, id: string) {
    forall i :: 0 <= i < |events| ==> Spares(events[i], id)
  }

  predicate Open(ss: seq<Session>, id: string) {
    HoldsMarker(ss, id) && Get(ss, id).status != Settled
  }

  lemma PutKeepsOpen(ss: seq<Session>, s: Session, id: string)
    requires UniqueIds(ss) && Open(ss, id) && (s.id == id ==> s.archived && s.status != Settled)
    ensures Open(Put(ss, s), id)
  {
    SessionIndex.HasAfterPut(ss, s, id);
  }

  lemma ApplyKeepsOpen(st: State, e: Event, stamp: real, id: string)
    requires UniqueIds(st.sessions) && Open(st.sessions, id) && Honest(st, e) && Spares(e, id)
    requires Apply(st, e, stamp).Some?
    ensures Open(Apply(st, e, stamp).value.sessions, id)
  {
    match e
    case Admit(s) => PutKeepsOpen(st.sessions, s, id);
    case Settle(k, _, _, _, _, _, _) => PutKeepsOpen(st.sessions, Settling(Get(st.sessions, k), e, stamp), id);
    case Correct(k, _, _, _, _, _) => PutKeepsOpen(st.sessions, Correcting(Get(st.sessions, k), e), id);
    case Unresolve(k, _, _, _) => PutKeepsOpen(st.sessions, Unresolving(Get(st.sessions, k), e), id);
    case _ =>
  }

  lemma {:induction false} AllKeepOpen(st: State, events: seq<Event>, f: Fund, stamp: real, id: string)
    requires UniqueIds(st.sessions) && Open(st.sessions, id) && HonestAll(st, events, stamp) && Balanced(st, f)
    requires SparesAll(events, id) && ApplyAll(st, events, stamp).Some?
    ensures Open(ApplyAll(st, events, stamp).value.sessions, id)
    decreases |events|
  {
    if events != [] {
      HonestApplies(st, events[0], f, stamp);
      ApplyKeepsOpen(st, events[0], stamp, id);
      AllKeepOpen(Apply(st, events[0], stamp).value, events[1..], Funded(f, events[0]), stamp, id);
    }
  }

  // ------------------------------------------------ which sessions are settled

  lemma {:induction false} ClampsSpare(ss: seq<Session>, at: seq<nat>, p: string, native: real, exact: real,
                                       weight: real, cursor: real, id: string)
    requires forall i :: 0 <= i < |at| ==> at[i] < |ss|
    ensures SparesAll(ClampEvents(ss, at, p, native, exact, weight, cursor), id)
    decreases |at|
  {
    if at != [] {
      var value := Share(ss[at[0]], |at| == 1, native, exact, weight, cursor);
      ClampsSpare(ss, at[1..], p, native, exact, weight, cursor + value, id);
    }
  }

  lemma {:induction false} ClampAllSpare(ss: seq<Session>, upto: nat, entries: Entries, id: string)
    requires upto <= |ss|
    ensures ClampAll(ss, upto, entries).Some? ==> SparesAll(ClampAll(ss, upto, entries).value, id)
    decreases |entries|
  {
    if entries != [] {
      var (p, native) := entries[|entries| - 1];
      ClampAllSpare(ss, upto, entries[..|entries| - 1], id);
      var exact := Exact(ss[..upto], p);
      var at := LooseAt(ss, 0, upto, p, exact);
      ClampsSpare(ss, at, p, native, exact, CostAt(ss, at), exact, id);
    }
  }

  lemma {:induction false} RebaseSpares(ss: seq<Session>, from: nat, keys: set<string>, delta: real, id: string)
    requires from <= |ss|
    ensures Rebase(ss, from, keys, delta).Ok? ==> SparesAll(Rebase(ss, from, keys, delta).value, id)
    decreases |ss| - from
  {
    if from < |ss| {
      RebaseSpares(ss, from + 1, keys, delta, id);
    }
  }

  lemma {:induction false} OrphansSpare(ss: seq<Session>, dead: set<string>, id: string)
    ensures SparesAll(Orphans(ss, dead), id)
    decreases |ss|
  {
    if ss != [] {
      OrphansSpare(ss[..|ss| - 1], dead, id);
    }
  }

  lemma NativeSpares(st: State, k: nat, r: Receipt, entries: Entries, t: Ticks, id: string)
    requires k < |st.sessions| && ClampAll(st.sessions, k, entries).Some? && st.sessions[k].id != id
    ensures var tx := NativeTx(st, k, r, entries, ClampAll(st.sessions, k, entries).value, t);
            tx.Append? ==> SparesAll(tx.events, id)
  {
    ClampAllSpare(st.sessions, k, entries, id);
    RebaseSpares(st.sessions, k + 1, AsTotals(entries).Keys,
                 Charge(st.sessions[..k], entries) - Cost(st.sessions[k]), id);
  }

  lemma ReceiptSpares(st: State, r: Receipt, host: Host, t: Ticks, id: string)
    requires r.id != id
    ensures var tx := ReceiptTx(st, r, host, t); tx.Append? ==> SparesAll(tx.events, id)
  {
    if Has(st.sessions, r.id) {
      BoundSpares(st, r, t, id);
      var k := IndexOf(st.sessions, r.id);
      var totals := FinalTotals(r);
      if totals.Some? && ClampAll(st.sessions, k, totals.value).Some? {
        NativeSpares(st, k, r, totals.value, t, id);
      }
    }
  }

  lemma BoundSpares(st: State, r: Receipt, t: Ticks, id: string)
    requires Has(st.sessions, r.id)
    ensures var tx := LowerBoundTx(st, r, t); tx.Some? && tx.value.Append? ==> SparesAll(tx.value.events, id)
  {
  }

  lemma JournalSpares(st: State, k: nat, saved: Saved, estimate: real, t: Ticks, id: string)
    requires k < |st.sessions| && st.sessions[k].id != id
    ensures var tx := UsageTx(st, k, saved, estimate, t); tx.Append? ==> SparesAll(tx.events, id)
  {
  }

  lemma UsageSpares(st: State, other: string, saved: Option<Saved>, live: bool, t: Ticks, id: string)
    requires other != id
    ensures var tx := RecoverTx(st, other, saved, live, t); tx.Append? ==> SparesAll(tx.events, id)
  {
    if Has(st.sessions, other) && saved.Some? {
      var s := Get(st.sessions, other);
      JournalSpares(st, IndexOf(st.sessions, other), saved.value,
                    Estimate(st.sessions, s.model, Some(s.phase), false), t, id);
    }
  }

  lemma AttemptSpares(st: State, queue: Option<Queue>, r: Request, dead: set<string>, t: Ticks, id: string)
    ensures var tx := AdmitTx(st, queue, r, dead, t).tx; tx.Append? ==> SparesAll(tx.events, id)
  {
    if AdmitTx(st, queue, r, dead, t).tx.Append? {
      var last := AttemptEvents(st, queue, r, dead, t);
      OrphansSpare(st.sessions, dead, id);
    }
  }

  lemma CostSpares(st: State, other: string, cost: Option<real>, outcome: string, noted: bool, totals: Totals,
                   provenance: Provenance, finished: Option<real>, alive: bool, t: Ticks, id: string)
    requires cost.Some? ==> other != id
    ensures var tx := SettleTx(st, other, cost, outcome, noted, totals, provenance, finished, t);
            tx.Append? ==> SparesAll(tx.events, id)
    ensures cost.Some? ==> var tx := ReconcileTx(st, other, cost.value, noted, alive, t);
                           tx.Append? ==> SparesAll(tx.events, id)
  {
  }

  /** Somebody settles this very session: a settlement with a cost, a reconciliation, a
      receipt or a journal that names it. */
  predicate Audits(op: Op, id: string) {
    match op
    case SettleCost(other, cost, _, _, _, _, _) => other == id && cost.Some?
    case Reconcile(other, _, _, _) => other == id
    case SettleReceipt(receipt, _) => receipt.id == id
    case RecoverUsage(other, _, _) => other == id
    case _ => false
  }

  lemma WriterSpares(st: State, queue: Option<Queue>, op: Op, t: Ticks, id: string)
    requires !Audits(op, id)
    ensures var tx := TxOf(st, queue, op, t); tx.Append? ==> SparesAll(tx.events, id)
  {
    match op
    case Launch(request, dead) => AttemptSpares(st, queue, request, dead, t, id);
    case SettleReceipt(receipt, host) => ReceiptSpares(st, receipt, host, t, id);
    case RecoverUsage(other, saved, live) => UsageSpares(st, other, saved, live, t, id);
    case SettleCost(other, cost, outcome, noted, totals, provenance, finished) =>
      CostSpares(st, other, cost, outcome, noted, totals, provenance, finished, false, t, id);
    case Reconcile(other, amount, noted, alive) =>
      CostSpares(st, other, Some(amount), "", noted, map[], NativeReported, None, alive, t, id);
    case _ =>
  }

  // ---------------------------------------------------------------- whole runs

  /** A transaction of honest events that settle nothing with this identity. */
  lemma TxKeepsOpen(files: Files, st: State, tx: Tx, queue: Option<Queue>, t: Ticks, id: string)
    requires Sound(files.ledger) && Replay(files.ledger) == Some(st) && Open(st.sessions, id)
    requires tx.Append? ==> HonestAll(st, tx.events, t.stamp) && SparesAll(tx.events, id)
    ensures var next := Left(files, st, tx, queue, t).ledger; Sound(next) && Unaudited(next, id)
  {
    TxSound(files, st, tx, queue, t);
    if tx.Append? {
      var number := st.number + 1;
      HonestNumber(st, tx.events, t.stamp, number);
      ReplayAppend(files.ledger, RecordOf(st, tx.events, t));
      AllKeepOpen(st.(number := number), tx.events, FundOf(files.ledger), t.stamp, id);
    }
  }

  /** A call that does not name the marker leaves it open. */
  lemma StepKeepsOpen(files: Files, op: Op, t: Ticks, id: string)
    requires Sound(files.ledger) && WellFormed(op) && Unaudited(files.ledger, id) && !Audits(op, id)
    ensures Sound(Step(files, op, t).ledger) && Unaudited(Step(files, op, t).ledger, id)
  {
    var st := Replay(files.ledger).value;
    var tx, queue := TxOf(st, files.queue, op, t), QueueAfter(st, files.queue, op, t);
    assert Sound(Left(files, st, tx, queue, t).ledger) && Unaudited(Left(files, st, tx, queue, t).ledger, id) by {
      WriterHonest(st, files.queue, op, t);
      WriterSpares(st, files.queue, op, t, id);
      TxKeepsOpen(files, st, tx, queue, t, id);
    }
  }

  lemma {:induction false} RunKeepsOpen(files: Files, calls: seq<Call>, id: string)
    requires Sound(files.ledger) && AllWellFormed(calls) && Unaudited(files.ledger, id)
    requires forall i :: 0 <= i < |calls| ==> !Audits(calls[i].op, id)
    ensures Sound(Run(files, calls).ledger) && Unaudited(Run(files, calls).ledger, id)
  {
    if calls != [] {
      var init, last := calls[..|calls| - 1], calls[|calls| - 1];
      RunKeepsOpen(files, init, id);
      StepKeepsOpen(Run(files, init), last.op, last.t, id);
    }
  }

  lemma Blocked(files: Files, r: Request, dead: set<string>, t: Ticks, id: string)
    requires Unaudited(files.ledger, id)
    ensures Queueing.Readable(files) && !Queueing.Admits(files, Launch(r, dead), t)
  {
    var st := Replay(files.ledger).value;
    MarkerBlocks(st, QueueOf(st, files.queue), r, dead, t, id);
  }

  /** After a repair no admission succeeds, whatever writers do, until a call that names
      the marker settles it. */
  lemma NoAdmissionUntilAudited(records: seq<Record>, queue: Option<Queue>, id: string, calls: seq<Call>,
                                r: Request, dead: set<string>, t: Ticks, t0: Ticks)
    requires Sound(records) && !Has(Replay(records).value.sessions, id) && AllWellFormed(calls)
    requires forall i :: 0 <= i < |calls| ==> !Audits(calls[i].op, id)
    ensures var now := Run(Files(records + [MarkerRecord(Replay(records).value, id, t0)], queue), calls);
            Queueing.Readable(now) && !Queueing.Admits(now, Launch(r, dead), t)
  {
    var repaired := Files(records + [MarkerRecord(Replay(records).value, id, t0)], queue);
    RepairedIsUnaudited(records, id, t0);
    RunKeepsOpen(repaired, calls, id);
    Blocked(Run(repaired, calls), r, dead, t, id);
  }

  /** A reconciliation of the marker, which has no bridge, ends this. */
  lemma ReconciledMarker(files: Files, id: string, amount: real, alive: bool, t: Ticks)
    requires Sound(files.ledger) && Unaudited(files.ledger, id) && amount >= 0.0
    requires Get(Replay(files.ledger).value.sessions, id).bridge.None? || !alive
    ensures Replay(Step(files, Reconcile(id, amount, true, alive), t).ledger).Some?
    ensures !Unaudited(Step(files, Reconcile(id, amount, true, alive), t).ledger, id)
  {
    var st := Replay(files.ledger).value;
    var tx := ReconcileTx(st, id, amount, true, alive, t);
    var next := ReconciledNext(st, id, amount, tx, t);
    ReplayAppend(files.ledger, RecordOf(st, tx.events, t));
    assert Replay(files.ledger + [RecordOf(st, tx.events, t)]) == Some(next);
    assert Step(files, Reconcile(id, amount, true, alive), t) == Left(files, st, tx, files.queue, t);
  }

  lemma ReconciledNext(st: State, id: string, amount: real, tx: Tx, t: Ticks) returns (next: State)
    requires UniqueIds(st.sessions) && Has(st.sessions, id)
    requires var last := Settle(id, amount, "reconciled", map[], None, Unstated, true);
             tx == Append([AccrueEvent(st, t.accrual)] + (Reset(Get(st.sessions, id)) + [last]))
    ensures After(st, tx, t) == Some(next) && !Open(next.sessions, id)
  {
    var s, k := Get(st.sessions, id), IndexOf(st.sessions, id);
    var last := Settle(id, amount, "reconciled", map[], None, Unstated, true);
    ChainSteps.AfterAccrual(st, Reset(s) + [last], t);
    var base := ChainSteps.Started(st, t.accrual);
    ChainRuns.SettleEffect(base, k, s.cost.Some?, last, t.stamp);
    next := ApplyAll(base, Reset(s) + [last], t.stamp).value;
    SettledAtIndex(st.sessions, next.sessions, k, id);
  }

  lemma SettledAtIndex(ss: seq<Session>, out: seq<Session>, k: nat, id: string)
    requires UniqueIds(ss) && k < |ss| == |out| && ss[k].id == id && out[k].id == id && out[k].status == Settled
    requires forall m :: 0 <= m < |ss| && m != k ==> out[m] == ss[m]
    ensures Has(out, id) && Get(out, id) == out[k]
  {
    IndexOfUnique(out, k);
  }
}
