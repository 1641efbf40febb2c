/** Admission safety: the balance covers every outstanding reservation after each
    admission, and so a run that never costs more than it reserved never overdraws. */
module Solvency {
  import opened Wrappers
  import opened Ledger
  import opened Selection
  import opened Receipts
  import opened Writers
  import opened Conservation
  import opened HonestWriters

  /** Reservations that never hold back a negative amount. */
  predicate Held(s: Session) {
    && s.estimate >= 0.0
    && (s.reserve.Some? ==> s.reserve.value >= 0.0)
    && (s.tail.Some? ==> s.tail.value >= 0.0)
  }

  predicate HeldAll(st: State) {
    st.rate >= 0.0 && forall i :: 0 <= i < |st.sessions| ==> Held(st.sessions[i])
  }

  /** An event that neither takes funds away nor reserves a negative amount. */
  predicate Tame(e: Event) {
    match e
    case Grant(delta) => delta >= 0.0
    case Adjust(_) => false
    case SetRate(rate) => rate >= 0.0
    case Admit(s) => Held(s)
    case Unresolve(_, _, _, hold) =>
      hold.Some? ==> hold.value.reserve >= 0.0 && (hold.value.usage.Some? ==> hold.value.usage.value.1 >= 0.0)
    case _ => true
  }

  predicate TameAll(events: seq<Event>) {
    forall i :: 0 <= i < |events| ==> Tame(events[i])
  }

  function Funds(f: Fund): real {
    f.granted + f.earned
  }

  /** The ledger stays sound with reservations that hold, and no funds are taken away. */
  ghost predicate KeepsFunds(before: seq<Record>, after: seq<Record>) {
    Sound(after) && HeldAll(Replay(after).value) && Funds(FundOf(after)) >= Funds(FundOf(before))
  }

  /** What sessions cost and may still cost. */
  function Exposure(ss: seq<Session>): real {
    TotalCost(ss) + TotalPending(ss)
  }

  lemma TameApply(st: State, e: Event, f: Fund, stamp: real)
    requires Honest(st, e) && Tame(e) && HeldAll(st) && f.rate == st.rate && f.watermark == st.watermark
    requires Apply(st, e, stamp).Some?
    ensures HeldAll(Apply(st, e, stamp).value)
    ensures var g := Funded(f, e); var next := Apply(st, e, stamp).value;
            g.rate == next.rate && g.watermark == next.watermark && Funds(g) >= Funds(f)
  {
    if e.Accrue? {
      assert (e.watermark - f.watermark) * f.rate >= 0.0;
    }
  }

  lemma {:induction false} TameAllApply(st: State, events: seq<Event>, f: Fund, stamp: real)
    requires HonestAll(st, events, stamp) && TameAll(events) && HeldAll(st)
    requires f.rate == st.rate && f.watermark == st.watermark
    requires ApplyAll(st, events, stamp).Some?
    ensures HeldAll(ApplyAll(st, events, stamp).value)
    ensures Funds(FundedAll(f, events)) >= Funds(f)
    decreases |events|
  {
    if events != [] {
      TameApply(st, events[0], f, stamp);
      TameAllApply(Apply(st, events[0], stamp).value, events[1..], Funded(f, events[0]), stamp);
    }
  }

  // -------------------------------------------------- the writers are tame

  lemma {:induction false} ClampsTame(ss: seq<Session>, at: seq<nat>, p: string,
                                      native: real, exact: real, weight: real, cursor: real)
    requires forall i :: 0 <= i < |at| ==> at[i] < |ss|
    ensures TameAll(ClampEvents(ss, at, p, native, exact, weight, cursor))
    decreases |at|
  {
    if at != [] {
      var value := Share(ss[at[0]], |at| == 1, native, exact, weight, cursor);
      ClampsTame(ss, at[1..], p, native, exact, weight, cursor + value);
    }
  }

  lemma {:induction false} ClampAllTame(ss: seq<Session>, upto: nat, entries: Entries)
    requires upto <= |ss|
    ensures ClampAll(ss, upto, entries).Some? ==> TameAll(ClampAll(ss, upto, entries).value)
    decreases |entries|
  {
    if entries != [] {
      var (p, native) := entries[|entries| - 1];
      ClampAllTame(ss, upto, entries[..|entries| - 1]);
      var exact := Exact(ss[..upto], p);
      var at := LooseAt(ss, 0, upto, p, exact);
      ClampsTame(ss, at, p, native, exact, CostAt(ss, at), exact);
    }
  }

  lemma {:induction false} RebaseTame(ss: seq<Session>, from: nat, keys: set<string>, delta: real)
    requires from <= |ss|
    ensures Rebase(ss, from, keys, delta).Ok? ==> TameAll(Rebase(ss, from, keys, delta).value)
    decreases |ss| - from
  {
    if from < |ss| {
      RebaseTame(ss, from + 1, keys, delta);
    }
  }

  lemma {:induction false} OrphansTame(ss: seq<Session>, dead: set<string>)
    ensures TameAll(Orphans(ss, dead))
    decreases |ss|
  {
    if ss != [] {
      OrphansTame(ss[..|ss| - 1], dead);
    }
  }

  lemma ReserveTame(st: State, r: Receipt, known: real, estimate: real, t: Ticks)
    requires Has(st.sessions, r.id) && Held(Get(st.sessions, r.id))
    ensures var tx := BoundTx(st, r, known, estimate, t); tx.Append? ==> TameAll(tx.events)
  {
  }

  lemma BoundTame(st: State, r: Receipt, t: Ticks)
    requires Has(st.sessions, r.id) && Held(Get(st.sessions, r.id))
    ensures var tx := LowerBoundTx(st, r, t); tx.Some? && tx.value.Append? ==> TameAll(tx.value.events)
  {
    var s := Get(st.sessions, r.id);
    var ds := Differences(st.sessions[..IndexOf(st.sessions, r.id)], LowerTotals(r));
    ReserveTame(st, r, Sum(ds), Estimate(st.sessions, s.model, Some(s.phase), false), t);
  }

  lemma NativeTame(st: State, k: nat, r: Receipt, entries: Entries, t: Ticks)
    requires k < |st.sessions| && ClampAll(st.sessions, k, entries).Some?
    ensures var tx := NativeTx(st, k, r, entries, ClampAll(st.sessions, k, entries).value, t);
            tx.Append? ==> TameAll(tx.events)
  {
    ClampAllTame(st.sessions, k, entries);
    RebaseTame(st.sessions, k + 1, AsTotals(entries).Keys, Charge(st.sessions[..k], entries) - Cost(st.sessions[k]));
  }

  lemma ReceiptTame(st: State, r: Receipt, host: Host, t: Ticks)
    requires HeldAll(st)
    ensures var tx := ReceiptTx(st, r, host, t); tx.Append? ==> TameAll(tx.events)
  {
    if Has(st.sessions, r.id) {
      var k := IndexOf(st.sessions, r.id);
      var totals := FinalTotals(r);
      if totals.Some? && ClampAll(st.sessions, k, totals.value).Some? {
        NativeTame(st, k, r, totals.value, t);
      }
      BoundTame(st, r, t);
    }
  }

  lemma UsageTame(st: State, k: nat, saved: Saved, estimate: real, t: Ticks)
    requires k < |st.sessions| && Held(st.sessions[k])
    ensures var tx := UsageTx(st, k, saved, estimate, t); tx.Append? ==> TameAll(tx.events)
  {
  }

  lemma RecoverTame(st: State, id: string, saved: Option<Saved>, live: bool, t: Ticks)
    requires HeldAll(st)
    ensures var tx := RecoverTx(st, id, saved, live, t); tx.Append? ==> TameAll(tx.events)
  {
    if Has(st.sessions, id) && saved.Some? {
      var s := Get(st.sessions, id);
      UsageTame(st, IndexOf(st.sessions, id), saved.value, Estimate(st.sessions, s.model, Some(s.phase), false), t);
    }
  }

  lemma AttemptTame(st: State, dead: set<string>, last: Event, t: Ticks)
    requires Tame(last)
    ensures TameAll([AccrueEvent(st, t.accrual)] + (Orphans(st.sessions, dead) + [last]))
  {
    OrphansTame(st.sessions, dead);
  }

  lemma EstimatePositive(ss: seq<Session>, model: string, phase: Option<string>, pending: bool)
    ensures Estimate(ss, model, phase, pending) > 0.0
  {
    EstimateCovers(ss, model, phase, pending);
  }

  lemma AdmitTame(st: State, queue: Option<Queue>, r: Request, dead: set<string>, t: Ticks)
    ensures var tx := AdmitTx(st, queue, r, dead, t).tx; tx.Append? ==> TameAll(tx.events)
  {
    var a := AdmitTx(st, queue, r, dead, t);
    if a.tx.Append? {
      var last := AttemptEvents(st, queue, r, dead, t);
      EstimatePositive(st.sessions, r.model, Some(r.phase), true);
      AttemptTame(st, dead, last, t);
    }
  }

  /** Setting the balance outright is the only way to take funds away. */
  predicate SetsBalance(op: Op) {
    op.Configure? && op.target.Some?
  }

  lemma WriterTame(st: State, queue: Option<Queue>, op: Op, t: Ticks)
    requires HeldAll(st) && !SetsBalance(op)
    ensures var tx := TxOf(st, queue, op, t); tx.Append? ==> TameAll(tx.events)
  {
    match op
    case Launch(request, dead) => AdmitTame(st, queue, request, dead, t);
    case SettleReceipt(receipt, host) => ReceiptTame(st, receipt, host, t);
    case RecoverUsage(id, saved, live) => RecoverTame(st, id, saved, live, t);
    case _ =>
  }

  // --------------------------------------------------------- one admission

  lemma {:induction false} MarkedPending(ss: seq<Session>, after: seq<Session>, dead: set<string>)
    requires Marked(ss, after, |ss|, dead)
    ensures TotalPending(after) == TotalPending(ss) && TotalCost(after) == TotalCost(ss)
    decreases |ss|
  {
    if ss != [] {
      var n := |ss| - 1;
      assert Marked(ss[..n], after[..n], n, dead);
      MarkedPending(ss[..n], after[..n], dead);
    }
  }

  /** The state that an admission attempt leaves. */
  lemma AttemptOutcome(st: State, dead: set<string>, last: Event, t: Ticks) returns (mid: State)
    requires UniqueIds(st.sessions)
    requires last.Wait? || (last.Admit? && !Has(st.sessions, last.session.id))
    ensures var tx := Append([AccrueEvent(st, t.accrual)] + (Orphans(st.sessions, dead) + [last]));
            After(st, tx, t) == Apply(mid, last, t.stamp)
    ensures mid == Accrued(st, t.accrual).(number := st.number + 1, sessions := mid.sessions)
    ensures Marked(st.sessions, mid.sessions, |st.sessions|, dead) && UniqueIds(mid.sessions)
    ensures last.Admit? ==> !Has(mid.sessions, last.session.id)
  {
    var ss := st.sessions;
    var base := Accrued(st, t.accrual).(number := st.number + 1);
    var lost := Orphans(ss, dead);
    assert ss[..|ss|] == ss;
    OrphansApply(base, |ss|, dead, t.stamp);
    mid := ApplyAll(base, lost, t.stamp).value;
    ApplyAllConcat(base, lost, [last], t.stamp);
    var events := [AccrueEvent(st, t.accrual)] + (lost + [last]);
    assert events[1..] == lost + [last];
    assert [last][1..] == [];
    if last.Admit? {
      MarkedIds(ss, mid.sessions, |ss|, dead, last.session.id);
    }
  }

  lemma ObstacleFunding(st: State, queue: Queue, r: Request, dead: set<string>, t: Ticks)
    requires Obstacle(st, queue, r, dead, t).None?
    ensures Available(Accrued(st, t.accrual)) >= Estimate(st.sessions, r.model, Some(r.phase), true)
  {
    var available, estimate := Available(Accrued(st, t.accrual)), Estimate(st.sessions, r.model, Some(r.phase), true);
    var reason := Obstacle(st, queue, r, dead, t);
    assert available < estimate ==> reason.Some?;
  }

  lemma AdmissionOutcome(st: State, dead: set<string>, s: Session, t: Ticks) returns (next: State)
    requires UniqueIds(st.sessions) && !Has(st.sessions, s.id) && s.status == Active && s.reserve.None?
    requires Available(Accrued(st, t.accrual)) >= s.estimate
    ensures var tx := Append([AccrueEvent(st, t.accrual)] + (Orphans(st.sessions, dead) + [Admit(s)]));
            After(st, tx, t) == Some(next)
    ensures next.balance >= TotalPending(next.sessions)
    ensures TotalPending(next.sessions) == TotalPending(st.sessions) + s.estimate
    ensures Has(next.sessions, s.id) && Get(next.sessions, s.id) == s
  {
    var mid := AttemptOutcome(st, dead, Admit(s), t);
    MarkedPending(st.sessions, mid.sessions, dead);
    PutAtEnd(mid.sessions, s);
    SumByAppend(Pending, mid.sessions, s);
    IndexOfUnique(mid.sessions + [s], |mid.sessions|);
    next := Apply(mid, Admit(s), t.stamp).value;
  }

  /** Right after an admission the balance covers all outstanding reservations,
      the new one included. */
  lemma AdmissionCovered(st: State, queue: Option<Queue>, r: Request, dead: set<string>, t: Ticks)
    requires UniqueIds(st.sessions)
    requires var a := AdmitTx(st, queue, r, dead, t); a.tx.Append? && a.reason.None?
    ensures var next := After(st, AdmitTx(st, queue, r, dead, t).tx, t);
            && next.Some?
            && next.value.balance >= TotalPending(next.value.sessions)
            && TotalPending(next.value.sessions)
               == TotalPending(st.sessions) + Estimate(st.sessions, r.model, Some(r.phase), true)
            && Has(next.value.sessions, r.id) && Get(next.value.sessions, r.id).status == Active
  {
    var last := AttemptEvents(st, queue, r, dead, t);
    ObstacleFunding(st, QueueOf(st, queue), r, dead, t);
    var next := AdmissionOutcome(st, dead, last.session, t);
  }

  /** Neither the costs nor the reservations of the sessions changed. */
  predicate SameCharges(ss: seq<Session>, now: seq<Session>) {
    && |now| == |ss|
    && (forall i :: 0 <= i < |ss| ==> Cost(now[i]) == Cost(ss[i]) && Pending(now[i]) == Pending(ss[i]))
    && TotalCost(now) == TotalCost(ss)
    && TotalPending(now) == TotalPending(ss)
  }

  lemma WaitExposure(st: State, dead: set<string>, wait: Waiting, t: Ticks)
    requires UniqueIds(st.sessions)
    ensures var tx := Append([AccrueEvent(st, t.accrual)] + (Orphans(st.sessions, dead) + [Wait(wait)]));
            After(st, tx, t).Some? && SameCharges(st.sessions, After(st, tx, t).value.sessions)
  {
    var mid := AttemptOutcome(st, dead, Wait(wait), t);
    MarkedPending(st.sessions, mid.sessions, dead);
  }

  /** A refused or waiting attempt changes neither costs nor reservations. */
  lemma AttemptExposure(st: State, queue: Option<Queue>, r: Request, dead: set<string>, t: Ticks)
    requires UniqueIds(st.sessions)
    requires var a := AdmitTx(st, queue, r, dead, t); !a.tx.Append? || a.reason.Some?
    ensures var next := After(st, AdmitTx(st, queue, r, dead, t).tx, t);
            next.Some? && SameCharges(st.sessions, next.value.sessions)
  {
    if AdmitTx(st, queue, r, dead, t).tx.Append? {
      var last := AttemptEvents(st, queue, r, dead, t);
      WaitExposure(st, dead, last.wait, t);
    }
  }
}

module SolventRuns {
  import opened Wrappers
  import opened Ledger
  import opened Selection
  import opened Receipts
  import opened Writers
  import opened Conservation
  import opened Corrections
  import opened HonestWriters
  import opened Solvency

  /** The ledger is sound, and every reservation in it is covered. */
  ghost predicate Solvent(ledger: seq<Record>) {
    && Sound(ledger)
    && HeldAll(Replay(ledger).value)
    && Available(Replay(ledger).value) >= 0.0
  }

  /** The money left for admissions is what came in less what sessions cost and may cost. */
  lemma AvailableIsFundsLessExposure(ledger: seq<Record>)
    requires Sound(ledger)
    ensures var st := Replay(ledger).value; Available(st) == Funds(FundOf(ledger)) - Exposure(st.sessions)
  {
  }

  lemma {:induction false} PendingNonnegative(ss: seq<Session>)
    requires forall i :: 0 <= i < |ss| ==> Held(ss[i])
    ensures TotalPending(ss) >= 0.0
    decreases |ss|
  {
    if ss != [] {
      PendingNonnegative(ss[..|ss| - 1]);
    }
  }

  lemma SolventBalance(ledger: seq<Record>)
    requires Solvent(ledger)
    ensures Replay(ledger).value.balance >= 0.0
  {
    PendingNonnegative(Replay(ledger).value.sessions);
  }

  /** The call leaves the funds that it found, and adds to them. */
  lemma StepFunds(files: Files, op: Op, t: Ticks) returns (next: seq<Record>)
    requires Sound(files.ledger) && HeldAll(Replay(files.ledger).value) && WellFormed(op) && !SetsBalance(op)
    ensures next == Step(files, op, t).ledger && KeepsFunds(files.ledger, next)
  {
    var st := Replay(files.ledger).value;
    var tx, queue := TxOf(st, files.queue, op, t), QueueAfter(st, files.queue, op, t);
    assert tx.Append? ==> HonestAll(st, tx.events, t.stamp) && TameAll(tx.events) by {
      WriterHonest(st, files.queue, op, t);
      WriterTame(st, files.queue, op, t);
    }
    next := TxFunds(files, st, tx, queue, t);
  }

  /** A transaction of such events adds to the funds. */
  lemma TxFunds(files: Files, st: State, tx: Tx, queue: Option<Queue>, t: Ticks) returns (next: seq<Record>)
    requires Sound(files.ledger) && Replay(files.ledger) == Some(st) && HeldAll(st)
    requires tx.Append? ==> HonestAll(st, tx.events, t.stamp) && TameAll(tx.events)
    ensures next == Left(files, st, tx, queue, t).ledger && KeepsFunds(files.ledger, next)
  {
    next := Left(files, st, tx, queue, t).ledger;
    TxSound(files, st, tx, queue, t);
    if tx.Append? {
      var rec := RecordOf(st, tx.events, t);
      HonestNumber(st, tx.events, t.stamp, rec.number);
      ReplayAppend(files.ledger, rec);
      TameAllApply(st.(number := rec.number), tx.events, FundOf(files.ledger), t.stamp);
      assert (files.ledger + [rec])[..|files.ledger|] == files.ledger;
    }
  }

  /** The exposure of the ledger's sessions. */
  function ExposureOf(ledger: seq<Record>): real
    requires Replay(ledger).Some?
  {
    Exposure(Replay(ledger).value.sessions)
  }

  /** The call does not cost more than what was reserved for it. */
  predicate WithinReserve(files: Files, op: Op, t: Ticks) {
    Replay(files.ledger).Some? && Replay(Step(files, op, t).ledger).Some? ==>
      ExposureOf(Step(files, op, t).ledger) <= ExposureOf(files.ledger)
  }

  /** The ledger that an admission attempt leaves. */
  lemma LaunchNext(files: Files, st: State, r: Request, dead: set<string>, t: Ticks)
    requires Replay(files.ledger) == Some(st)
    ensures Replay(Step(files, Launch(r, dead), t).ledger) == After(st, AdmitTx(st, files.queue, r, dead, t).tx, t)
  {
    var tx := AdmitTx(st, files.queue, r, dead, t).tx;
    if tx.Append? {
      ReplayAppend(files.ledger, RecordOf(st, tx.events, t));
    }
  }

  /** Whether it admits or not, an attempt leaves every reservation covered. */
  lemma AttemptSolvent(before: seq<Record>, st: State, queue: Option<Queue>, r: Request, dead: set<string>, t: Ticks,
                       next: seq<Record>)
    requires Solvent(before) && Replay(before) == Some(st) && KeepsFunds(before, next)
    requires Replay(next) == After(st, AdmitTx(st, queue, r, dead, t).tx, t)
    ensures Solvent(next)
  {
    var a := AdmitTx(st, queue, r, dead, t);
    if a.tx.Append? && a.reason.None? {
      AdmissionCovered(st, queue, r, dead, t);
    } else {
      AttemptExposure(st, queue, r, dead, t);
      AvailableIsFundsLessExposure(before);
      AvailableIsFundsLessExposure(next);
    }
  }

  lemma LaunchSolvent(files: Files, r: Request, dead: set<string>, t: Ticks)
    requires Solvent(files.ledger)
    ensures Solvent(Step(files, Launch(r, dead), t).ledger)
  {
    var st := Replay(files.ledger).value;
    var next := StepFunds(files, Launch(r, dead), t);
    LaunchNext(files, st, r, dead, t);
    AttemptSolvent(files.ledger, st, files.queue, r, dead, t, next);
  }

  lemma StepSolvent(files: Files, op: Op, t: Ticks)
    requires Solvent(files.ledger) && WellFormed(op) && !SetsBalance(op)
    requires op.Launch? || WithinReserve(files, op, t)
    ensures Solvent(Step(files, op, t).ledger)
  {
    if op.Launch? {
      LaunchSolvent(files, op.request, op.dead, t);
    } else {
      var next := StepFunds(files, op, t);
      AvailableIsFundsLessExposure(files.ledger);
      AvailableIsFundsLessExposure(Step(files, op, t).ledger);
    }
  }

  /** Settling session k: the reservation comes back, and the cost beyond what was
      charged already goes out. */
  lemma SettledAvailable(base: State, k: nat, last: Event, stamp: real)
    requires UniqueIds(base.sessions) && k < |base.sessions| && base.sessions[k].status != Settled
    requires last.Settle? && last.id == base.sessions[k].id
    ensures var next := ApplyAll(base, [last], stamp);
            next.Some? && Available(next.value) == Available(base) + Pending(base.sessions[k]) - last.cost
  {
    IndexOfUnique(base.sessions, k);
    assert [last][1..] == [];
    SumByUpdate(Pending, base.sessions, k, Settling(base.sessions[k], last, stamp));
  }

  lemma ResetAvailable(base: State, k: nat, last: Event, stamp: real)
    requires UniqueIds(base.sessions) && k < |base.sessions| && base.sessions[k].status != Settled
    requires last.Settle? && last.id == base.sessions[k].id
    ensures var next := ApplyAll(base, Reset(base.sessions[k]) + [last], stamp);
            && next.Some?
            && Available(next.value)
               == Available(base) + Pending(base.sessions[k]) + Cost(base.sessions[k]) - last.cost
  {
    var reset := Reset(base.sessions[k]);
    if reset != [] {
      CorrectOne(base, reset[0], k, stamp);
      var mid := Apply(base, reset[0], stamp).value;
      SumByUpdate(Pending, base.sessions, k, mid.sessions[k]);
      assert (reset + [last])[1..] == [last];
      SettledAvailable(mid, k, last, stamp);
    } else {
      assert reset + [last] == [last];
      SettledAvailable(base, k, last, stamp);
    }
  }

  /** How a settlement changes what is available, and exactly when it takes nothing
      from the other reservations. */
  lemma SettlementAvailable(st: State, id: string, cost: real, outcome: string, noted: bool, totals: Totals,
                            provenance: Provenance, finished: Option<real>, t: Ticks)
    requires UniqueIds(st.sessions) && Has(st.sessions, id) && cost >= 0.0
    requires Get(st.sessions, id).status != Settled
    ensures var s := Get(st.sessions, id);
            var next := After(st, SettleTx(st, id, Some(cost), outcome, noted, totals, provenance, finished, t), t);
            && next.Some?
            && Available(next.value) == Available(Accrued(st, t.accrual)) + Pending(s) + Cost(s) - cost
            && (Available(next.value) >= Available(Accrued(st, t.accrual)) <==> cost <= Pending(s) + Cost(s))
  {
    var k := IndexOf(st.sessions, id);
    var last := Settle(id, cost, outcome, totals, Some(provenance), FinishOf(finished), noted);
    var rest := Reset(st.sessions[k]) + [last];
    var events := [AccrueEvent(st, t.accrual)] + rest;
    assert events[1..] == rest;
    ResetAvailable(Accrued(st, t.accrual).(number := st.number + 1), k, last, t.stamp);
  }
}

/** The safety theorem over whole runs. */
module RunSolvency {
  import opened Wrappers
  import opened Ledger
  import opened Receipts
  import opened Writers
  import opened HonestWriters
  import opened Solvency
  import opened SolventRuns

  /** No call sets the balance, and no call other than an admission costs more than
      what was reserved for it. */
  predicate Prudent(files: Files, calls: seq<Call>) {
    calls == [] ||
    (&& Prudent(files, calls[..|calls| - 1])
     && var last := calls[|calls| - 1];
        !SetsBalance(last.op) && (last.op.Launch? || WithinReserve(Run(files, calls[..|calls| - 1]), last.op, last.t)))
  }

  /** Over every prudent run the balance covers all reservations, and is never negative. */
  lemma {:induction false} NeverOverdrawn(files: Files, calls: seq<Call>)
    requires Solvent(files.ledger) && AllWellFormed(calls) && Prudent(files, calls)
    ensures Solvent(Run(files, calls).ledger)
    ensures Replay(Run(files, calls).ledger).value.balance >= 0.0
  {
    if calls != [] {
      var init, last := calls[..|calls| - 1], calls[|calls| - 1];
      NeverOverdrawn(files, init);
      StepSolvent(Run(files, init), last.op, last.t);
    }
    SolventBalance(Run(files, calls).ledger);
  }
}
