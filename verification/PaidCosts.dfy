/** No session ever costs a negative amount, whatever receipts and journals say. */
module PaidCosts {
  import opened Wrappers
  import opened Ledger
  import opened Selection
  import opened Receipts
  import opened Writers
  import opened ShareArithmetic
  import opened ClampTheorem

  predicate Paid(s: Session) {
    Cost(s) >= 0.0 && s.lowerCost.GetOr(0.0) >= 0.0
  }

  predicate PaidAll(ss: seq<Session>) {
    forall i :: 0 <= i < |ss| ==> Paid(ss[i])
  }

  /** The event states no negative cost. */
  predicate Fair(e: Event) {
    match e
    case Settle(_, cost, _, _, _, _, _) => cost >= 0.0
    case Correct(_, _, cost, _, _, _) => cost >= 0.0
    case Unresolve(_, _, _, hold) => hold.Some? ==> hold.value.lowerCost >= 0.0
    case Admit(s) => Paid(s)
    case _ => true
  }

  predicate FairAll(events: seq<Event>) {
    forall i :: 0 <= i < |events| ==> Fair(events[i])
  }

  lemma PutPaid(ss: seq<Session>, s: Session)
    requires PaidAll(ss) && Paid(s)
    ensures PaidAll(Put(ss, s))
  {
  }

  lemma ApplyPaid(st: State, e: Event, stamp: real)
    requires PaidAll(st.sessions) && Fair(e) && Apply(st, e, stamp).Some?
    ensures PaidAll(Apply(st, e, stamp).value.sessions)
  {
    match e
    case Admit(s) => PutPaid(st.sessions, s);
    case Settle(id, _, _, _, _, _, _) => PutPaid(st.sessions, Settling(Get(st.sessions, id), e, stamp));
    case Correct(id, _, _, _, _, _) => PutPaid(st.sessions, Correcting(Get(st.sessions, id), e));
    case Unresolve(id, _, _, _) => PutPaid(st.sessions, Unresolving(Get(st.sessions, id), e));
    case _ =>
  }

  lemma {:induction false} AllPaid(st: State, events: seq<Event>, stamp: real)
    requires PaidAll(st.sessions) && FairAll(events) && ApplyAll(st, events, stamp).Some?
    ensures PaidAll(ApplyAll(st, events, stamp).value.sessions)
    decreases |events|
  {
    if events != [] {
      ApplyPaid(st, events[0], stamp);
      AllPaid(Apply(st, events[0], stamp).value, events[1..], stamp);
    }
  }

  // --------------------------------------------------------- the writers are fair

  lemma ClampFair(ss: seq<Session>, upto: nat, p: string, native: real)
    requires PaidAll(ss) && upto <= |ss| && Clampable(ss, upto, p, native)
    ensures FairAll(Clamp(ss, upto, p, native))
  {
    var vs, ts := ClampSplits(ss, upto, p, native);
    var events := Clamp(ss, upto, p, native);
    forall i | 0 <= i < |events| ensures Fair(events[i]) {
      assert events[i].Correct? && events[i].cost == vs[i];
    }
  }

  lemma {:induction false} ClampAllFair(ss: seq<Session>, upto: nat, entries: Entries)
    requires PaidAll(ss) && upto <= |ss|
    ensures ClampAll(ss, upto, entries).Some? ==> FairAll(ClampAll(ss, upto, entries).value)
    decreases |entries|
  {
    if entries != [] {
      var (p, native) := entries[|entries| - 1];
      ClampAllFair(ss, upto, entries[..|entries| - 1]);
      if Clampable(ss, upto, p, native) {
        ClampFair(ss, upto, p, native);
      }
    }
  }

  lemma {:induction false} RebaseFair(ss: seq<Session>, from: nat, keys: set<string>, delta: real)
    requires PaidAll(ss) && from <= |ss|
    ensures Rebase(ss, from, keys, delta).Ok? ==> FairAll(Rebase(ss, from, keys, delta).value)
    decreases |ss| - from
  {
    if from < |ss| {
      RebaseFair(ss, from + 1, keys, delta);
    }
  }

  lemma {:induction false} OrphansFair(ss: seq<Session>, dead: set<string>)
    ensures FairAll(Orphans(ss, dead))
    decreases |ss|
  {
    if ss != [] {
      OrphansFair(ss[..|ss| - 1], dead);
    }
  }

  lemma {:induction false} ChargeNonnegative(prior: seq<Session>, entries: Entries)
    ensures Charge(prior, entries) >= 0.0
    decreases |entries|
  {
    if entries != [] {
      ChargeNonnegative(prior, entries[..|entries| - 1]);
    }
  }

  lemma {:induction false} SumNonnegative(xs: seq<real>)
    requires forall i :: 0 <= i < |xs| ==> xs[i] >= 0.0
    ensures Sum(xs) >= 0.0
    decreases |xs|
  {
    if xs != [] {
      SumNonnegative(xs[..|xs| - 1]);
    }
  }

  lemma NativeFair(st: State, k: nat, r: Receipt, entries: Entries, t: Ticks)
    requires PaidAll(st.sessions) && k < |st.sessions| && ClampAll(st.sessions, k, entries).Some?
    ensures var tx := NativeTx(st, k, r, entries, ClampAll(st.sessions, k, entries).value, t);
            tx.Append? ==> FairAll(tx.events)
  {
    ClampAllFair(st.sessions, k, entries);
    ChargeNonnegative(st.sessions[..k], entries);
    RebaseFair(st.sessions, k + 1, AsTotals(entries).Keys, Charge(st.sessions[..k], entries) - Cost(st.sessions[k]));
  }

  lemma BoundFair(st: State, r: Receipt, t: Ticks)
    requires Has(st.sessions, r.id)
    ensures var tx := LowerBoundTx(st, r, t); tx.Some? && tx.value.Append? ==> FairAll(tx.value.events)
  {
    var s := Get(st.sessions, r.id);
    var ds := Differences(st.sessions[..IndexOf(st.sessions, r.id)], LowerTotals(r));
    if forall i :: 0 <= i < |ds| ==> ds[i] >= 0.0 {
      SumNonnegative(ds);
      HoldFair(st, r, Sum(ds), Estimate(st.sessions, s.model, Some(s.phase), false), t);
    }
  }

  lemma HoldFair(st: State, r: Receipt, known: real, estimate: real, t: Ticks)
    requires Has(st.sessions, r.id) && known >= 0.0
    ensures var tx := BoundTx(st, r, known, estimate, t); tx.Append? ==> FairAll(tx.events)
  {
  }

  lemma ReceiptFair(st: State, r: Receipt, host: Host, t: Ticks)
    requires PaidAll(st.sessions)
    ensures var tx := ReceiptTx(st, r, host, t); tx.Append? ==> FairAll(tx.events)
  {
    var tx := ReceiptForms(st, r, host, t);
    if tx.Append? {
      FormFair(st, r, tx, t);
    }
  }

  lemma FormFair(st: State, r: Receipt, tx: Tx, t: Ticks)
    requires PaidAll(st.sessions) && ReceiptForm(st, r, tx, t) && tx.Append?
    ensures FairAll(tx.events)
  {
    BoundFair(st, r, t);
    var k, totals := IndexOf(st.sessions, r.id), FinalTotals(r);
    if totals.Some? && ClampAll(st.sessions, k, totals.value).Some? {
      NativeFair(st, k, r, totals.value, t);
    }
  }

  lemma JournalFair(st: State, k: nat, saved: Saved, estimate: real, t: Ticks)
    requires PaidAll(st.sessions) && k < |st.sessions|
    ensures var tx := UsageTx(st, k, saved, estimate, t); tx.Append? ==> FairAll(tx.events)
  {
    assert Paid(st.sessions[k]);
  }

  lemma UsageFair(st: State, id: string, saved: Option<Saved>, live: bool, t: Ticks)
    requires PaidAll(st.sessions)
    ensures var tx := RecoverTx(st, id, saved, live, t); tx.Append? ==> FairAll(tx.events)
  {
    if Has(st.sessions, id) && saved.Some? {
      var s := Get(st.sessions, id);
      JournalFair(st, IndexOf(st.sessions, id), saved.value, Estimate(st.sessions, s.model, Some(s.phase), false), t);
    }
  }

  lemma FairAround(first: Event, events: seq<Event>, last: Event)
    requires Fair(first) && FairAll(events) && Fair(last)
    ensures FairAll([first] + (events + [last]))
  {
  }

  lemma AttemptFair(st: State, queue: Option<Queue>, r: Request, dead: set<string>, t: Ticks)
    ensures var tx := AdmitTx(st, queue, r, dead, t).tx; tx.Append? ==> FairAll(tx.events)
  {
    if AdmitTx(st, queue, r, dead, t).tx.Append? {
      var last := AttemptEvents(st, queue, r, dead, t);
      OrphansFair(st.sessions, dead);
      FairAround(AccrueEvent(st, t.accrual), Orphans(st.sessions, dead), last);
    }
  }

  lemma CostFair(st: State, id: string, cost: Option<real>, outcome: string, noted: bool, totals: Totals,
                 provenance: Provenance, finished: Option<real>, alive: bool, t: Ticks)
    ensures var tx := SettleTx(st, id, cost, outcome, noted, totals, provenance, finished, t);
            tx.Append? ==> FairAll(tx.events)
    ensures cost.Some? ==> var tx := ReconcileTx(st, id, cost.value, noted, alive, t);
                           tx.Append? ==> FairAll(tx.events)
  {
  }

  lemma PlainFair(st: State, grant: Option<real>, target: Option<real>, rate: Option<real>, model: string,
                  seconds: real, t: Ticks)
    ensures var tx := ConfigureTx(st, grant, target, rate, t); tx.Append? ==> FairAll(tx.events)
    ensures var tx := CooldownTx(st, model, seconds, t); tx.Append? ==> FairAll(tx.events)
  {
  }

  lemma WriterFair(st: State, queue: Option<Queue>, op: Op, t: Ticks)
    requires PaidAll(st.sessions)
    ensures var tx := TxOf(st, queue, op, t); tx.Append? ==> FairAll(tx.events)
  {
    match op
    case Configure(grant, target, rate) => PlainFair(st, grant, target, rate, "", 0.0, t);
    case Launch(request, dead) => AttemptFair(st, queue, request, dead, t);
    case SettleCost(id, cost, outcome, noted, totals, provenance, finished) =>
      CostFair(st, id, cost, outcome, noted, totals, provenance, finished, false, t);
    case Reconcile(id, amount, noted, alive) =>
      CostFair(st, id, Some(amount), "", noted, map[], NativeReported, None, alive, t);
    case SettleReceipt(receipt, host) => ReceiptFair(st, receipt, host, t);
    case RecoverUsage(id, saved, live) => UsageFair(st, id, saved, live, t);
    case CoolDown(model, seconds) => PlainFair(st, None, None, None, model, seconds, t);
    case Queued(_, _, _, _, _) =>
    case Refresh(_) =>
  }
}

/** Over every run all costs are nonnegative, so clamping always splits as it should. */
module RunCosts {
  import opened Wrappers
  import opened Ledger
  import opened Receipts
  import opened Writers
  import opened Conservation
  import opened HonestWriters
  import opened RunConservation
  import opened ShareArithmetic
  import opened ClampTheorem
  import opened PaidCosts

  /** The ledger is sound, and no session in it costs a negative amount. */
  ghost predicate PaidLedger(ledger: seq<Record>) {
    Sound(ledger) && PaidAll(Replay(ledger).value.sessions)
  }

  lemma RecordPaid(ledger: seq<Record>, st: State, events: seq<Event>, t: Ticks)
    requires Replay(ledger) == Some(st) && PaidAll(st.sessions) && FairAll(events)
    requires Replay(ledger + [RecordOf(st, events, t)]).Some?
    ensures PaidAll(Replay(ledger + [RecordOf(st, events, t)]).value.sessions)
  {
    ReplayAppend(ledger, RecordOf(st, events, t));
    AllPaid(st.(number := st.number + 1), events, t.stamp);
  }

  lemma TxPaid(files: Files, st: State, tx: Tx, queue: Option<Queue>, t: Ticks)
    requires Replay(files.ledger) == Some(st) && PaidAll(st.sessions) && (tx.Append? ==> FairAll(tx.events))
    ensures var next := Replay(Left(files, st, tx, queue, t).ledger); next.Some? ==> PaidAll(next.value.sessions)
  {
    if tx.Append? && Replay(files.ledger + [RecordOf(st, tx.events, t)]).Some? {
      RecordPaid(files.ledger, st, tx.events, t);
    }
  }

  lemma StepKeepsPaid(files: Files, op: Op, t: Ticks)
    requires Replay(files.ledger).Some? && PaidAll(Replay(files.ledger).value.sessions)
    ensures var next := Replay(Step(files, op, t).ledger); next.Some? ==> PaidAll(next.value.sessions)
  {
    var st := Replay(files.ledger).value;
    WriterFair(st, files.queue, op, t);
    TxPaid(files, st, TxOf(st, files.queue, op, t), QueueAfter(st, files.queue, op, t), t);
  }

  lemma StepPaid(files: Files, op: Op, t: Ticks) returns (next: seq<Record>)
    requires PaidLedger(files.ledger) && WellFormed(op)
    ensures next == Step(files, op, t).ledger && PaidLedger(next)
  {
    next := Step(files, op, t).ledger;
    StepSound(files, op, t);
    StepKeepsPaid(files, op, t);
  }

  lemma {:induction false} RunPaid(files: Files, calls: seq<Call>)
    requires PaidLedger(files.ledger) && AllWellFormed(calls)
    ensures PaidLedger(Run(files, calls).ledger)
  {
    if calls != [] {
      var init, last := calls[..|calls| - 1], calls[|calls| - 1];
      RunPaid(files, init);
      var next := StepPaid(Run(files, init), last.op, last.t);
    }
  }

  /** In every ledger that writers can produce from nothing, a clamped provider is split
      into nonnegative costs under rising totals that reach exactly the native one. */
  lemma ReachableClampSplits(calls: seq<Call>, upto: nat, p: string, native: real)
    returns (vs: seq<real>, ts: seq<real>)
    requires AllWellFormed(calls)
    requires var st := Replay(Run(Files([], None), calls).ledger);
             st.Some? ==> upto <= |st.value.sessions| && Clampable(st.value.sessions, upto, p, native)
    ensures Replay(Run(Files([], None), calls).ledger).Some?
    ensures var ss := Replay(Run(Files([], None), calls).ledger).value.sessions;
            var exact := Exact(ss[..upto], p);
            && GivesShares(ss, Clamp(ss, upto, p, native), LooseAt(ss, 0, upto, p, exact), p, vs, ts)
            && (forall i :: 0 <= i < |vs| ==> vs[i] >= 0.0)
            && Total(vs) == native - exact
            && Rising(ts, exact)
            && ts != [] && ts[|ts| - 1] == native
  {
    EmptySound([]);
    RunPaid(Files([], None), calls);
    var ss := Replay(Run(Files([], None), calls).ledger).value.sessions;
    assert forall i :: 0 <= i < upto ==> Paid(ss[i]);
    vs, ts := ClampSplits(ss, upto, p, native);
  }
}
