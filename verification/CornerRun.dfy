/** The corner that the telescoping theorem excludes is reached by writer calls: three
    sessions of one chain, of which the first two are estimates and the third has a
    native total, and then a native receipt for the second one. */
module CornerSteps {
  import opened Wrappers
  import opened Ledger
  import opened Selection
  import opened Receipts
  import opened Writers
  import opened HonestWriters
  import opened Solvency
  import opened Chains
  import opened Telescoping
  import opened ChainRuns
  import opened ChainSteps
  import opened ChainTheorems
  import opened RunTelescoping

  const START := Files([], None)
  const NOW := Ticks(0.0, 0.0, 0.0)
  const CHAIN := "chain"

  /** No funding rate, no cooldown and nobody waiting. */
  predicate Calm(st: State) {
    st.rate == 0.0 && st.watermark == 0.0 && st.cooldowns == map[] && st.waiting == map[]
  }

  /** These calls lead from the empty files to this state. */
  ghost predicate At(calls: seq<Call>, st: State) {
    && AllWellFormed(calls)
    && AccountableRun(START, calls)
    && Replay(Run(START, calls).ledger) == Some(st)
    && Calm(st)
    && Chained(st.sessions)
    && QueueOf(st, Run(START, calls).queue) == map[]
  }

  lemma Nothing()
    ensures At([], EMPTY)
  {
  }

  lemma Extend(calls: seq<Call>, st: State, op: Op, tx: Tx, next: State)
    requires At(calls, st) && WellFormed(op) && Accountable(st, op)
    requires tx == TxOf(st, Run(START, calls).queue, op, NOW) && tx.Append?
    requires After(st, tx, NOW) == Some(next) && Calm(next)
    requires QueueOf(next, QueueAfter(st, Run(START, calls).queue, op, NOW)) == map[]
    ensures At(calls + [Call(op, NOW)], next)
  {
    var more := calls + [Call(op, NOW)];
    assert more[..|calls|] == calls;
    var files := Run(START, calls);
    ReplayAppend(files.ledger, RecordOf(st, tx.events, NOW));
    assert Run(START, more) == Left(files, st, tx, QueueAfter(st, files.queue, op, NOW), NOW);
    NothingChained();
    RunChained(START, more);
  }

  lemma NothingChained()
    ensures ChainedLedger([])
  {
  }

  // ------------------------------------------------------------------- launches

  /** Sets the balance. */
  lemma Funding(calls: seq<Call>, st: State, target: real) returns (more: seq<Call>, next: State)
    requires At(calls, st)
    ensures At(more, next) && next.sessions == st.sessions && next.balance == target
  {
    var op := Configure(None, Some(target), None);
    var tx := ConfigureTx(st, None, Some(target), None, NOW);
    next := st.(balance := target, number := st.number + 1);
    FundingApplies(st, target, next);
    Extend(calls, st, op, tx, next);
    more := calls + [Call(op, NOW)];
  }

  lemma FundingApplies(st: State, target: real, next: State)
    requires Calm(st) && next == st.(balance := target, number := st.number + 1)
    ensures After(st, ConfigureTx(st, None, Some(target), None, NOW), NOW) == Some(next)
    ensures ConfigureTx(st, None, Some(target), None, NOW).Append?
  {
    var adjust := Adjust(target - st.balance);
    assert Accrued(st, 0.0) == st;
    var nothing: seq<Event> := [];
    assert nothing + ([adjust] + nothing) == [adjust];
    assert ConfigureTx(st, None, Some(target), None, NOW) == Append([AccrueEvent(st, 0.0)] + [adjust]);
    AfterAccrual(st, [adjust], NOW);
    OneEvent(Started(st, 0.0), adjust, 0.0);
  }

  lemma {:induction false} NothingPending(ss: seq<Session>)
    requires forall i :: 0 <= i < |ss| ==> ss[i].status == Settled
    ensures TotalPending(ss) == 0.0 && Orphans(ss, {}) == []
    decreases |ss|
  {
    if ss != [] {
      NothingPending(ss[..|ss| - 1]);
    }
  }

  lemma NoObstacle(st: State, r: Request)
    requires Calm(st) && forall i :: 0 <= i < |st.sessions| ==> st.sessions[i].status == Settled
    requires st.balance == Estimate(st.sessions, r.model, Some(r.phase), true)
    ensures Obstacle(st, map[], r, {}, NOW).None?
  {
    FreeBalance(st);
    EstimatePositive(st.sessions, r.model, Some(r.phase), true);
    NobodyActive(st.sessions, r.resume, r.model);
    Unobstructed(st, map[], r, {}, NOW);
  }

  lemma FreeBalance(st: State)
    requires Calm(st) && forall i :: 0 <= i < |st.sessions| ==> st.sessions[i].status == Settled
    ensures Available(Accrued(st, 0.0)) == st.balance
  {
    NothingPending(st.sessions);
    assert Accrued(st, 0.0) == st;
  }

  lemma Unobstructed(st: State, queue: Queue, r: Request, dead: set<string>, t: Ticks)
    requires !NeedsRepair(st.sessions) && !BeingResumed(st.sessions, r.resume) && st.cooldowns == map[]
    requires !LiveModel(st.sessions, dead, r.model) && queue == map[]
    requires Available(Accrued(st, t.accrual)) > 0.0
    requires Available(Accrued(st, t.accrual)) >= Estimate(st.sessions, r.model, Some(r.phase), true)
    ensures Obstacle(st, queue, r, dead, t).None?
  {
  }

  lemma NobodyActive(ss: seq<Session>, resume: Option<string>, model: string)
    requires forall i :: 0 <= i < |ss| ==> ss[i].status == Settled
    ensures !NeedsRepair(ss) && !BeingResumed(ss, resume) && !LiveModel(ss, {}, model)
  {
  }

  lemma AdmittedNext(st: State, s: Session) returns (next: State)
    requires Calm(st) && UniqueIds(st.sessions) && !Has(st.sessions, s.id)
    requires forall i :: 0 <= i < |st.sessions| ==> st.sessions[i].status == Settled
    ensures After(st, Append([AccrueEvent(st, 0.0)] + (Orphans(st.sessions, {}) + [Admit(s)])), NOW) == Some(next)
    ensures Calm(next) && next.sessions == st.sessions + [s]
  {
    var mid := AttemptOutcome(st, {}, Admit(s), NOW);
    assert mid.sessions == st.sessions;
    PutAtEnd(st.sessions, s);
    next := Apply(mid, Admit(s), 0.0).value;
    assert next.waiting == map[];
  }

  /** Launches a session while all others are settled. */
  lemma Launching(calls: seq<Call>, st: State, id: string, resume: Option<string>)
    returns (more: seq<Call>, next: State, s: Session)
    requires At(calls, st) && !Has(st.sessions, id) && Recorded(st.sessions, resume)
    requires forall i :: 0 <= i < |st.sessions| ==> st.sessions[i].status == Settled
    ensures At(more, next) && next.sessions == st.sessions + [s]
    ensures s.id == id && s.resume == resume && s.status == Active && s.totals == map[]
    ensures s.cost.None? && s.lowerCost.None?
  {
    var r := Request(id, "worker", "model", "phase", None, resume, 0);
    var estimate := Estimate(st.sessions, r.model, Some(r.phase), true);
    var funded, mid := Funding(calls, st, estimate);
    s := Admitted(r, estimate, 0.0);
    NoObstacle(mid, r);
    next := AdmittedNext(mid, s);
    LaunchTx(mid, Run(START, funded).queue, r, s);
    Extend(funded, mid, Launch(r, {}), AdmitTx(mid, Run(START, funded).queue, r, {}, NOW).tx, next);
    more := funded + [Call(Launch(r, {}), NOW)];
  }

  lemma LaunchTx(st: State, file: Option<Queue>, r: Request, s: Session)
    requires QueueOf(st, file) == map[] && Obstacle(st, map[], r, {}, NOW).None?
    requires !Has(st.sessions, r.id) && Recorded(st.sessions, r.resume)
    requires s == Admitted(r, Estimate(st.sessions, r.model, Some(r.phase), true), 0.0)
    ensures var a := AdmitTx(st, file, r, {}, NOW);
            && a.tx == Append([AccrueEvent(st, 0.0)] + (Orphans(st.sessions, {}) + [Admit(s)]))
            && a.queue == Some(map[])
  {
    var empty: Queue := map[];
    assert empty - {r.worker} == empty;
  }

  // ---------------------------------------------------------------- settlements

  /** Settles the last session by a complete journal. */
  lemma Journaled(calls: seq<Call>, st: State, k: nat, cost: real, total: real)
    returns (more: seq<Call>, next: State, s: Session)
    requires At(calls, st) && k + 1 == |st.sessions| && Names(st.sessions, k, CHAIN) && cost >= 0.0
    requires total == Baseline(st.sessions[..k], CHAIN) + cost
    requires var s := st.sessions[k];
             s.status != Settled && s.cost.None? && s.lowerCost.None? && s.resume in {None, Some(CHAIN)}
    ensures At(more, next) && next.sessions == st.sessions[k := s]
    ensures s.status == Settled && s.cost == Some(cost) && s.provenance == Some(TokenPriced)
    ensures s.id == st.sessions[k].id && s.resume == st.sessions[k].resume
    ensures s.totals == map[CHAIN := total]
  {
    var ss := st.sessions;
    var saved := Saved(cost, true, Some(CHAIN), "");
    var op := RecoverUsage(ss[k].id, Some(saved), false);
    var tx := RecoverTx(st, ss[k].id, Some(saved), false, NOW);
    PrimaryIsChain(ss[k], saved);
    var e := JournalTx(st, k, saved, tx, total);
    next, s := SettledNext(st, k, e);
    JournalAccountable(ss, k, saved);
    AfterAccrual(st, [e], NOW);
    Extend(calls, st, op, tx, next);
    more := calls + [Call(op, NOW)];
  }

  lemma PrimaryIsChain(s: Session, saved: Saved)
    requires s.resume in {None, Some(CHAIN)} && saved.provider == Some(CHAIN)
    ensures Primary(s, saved) == Some(CHAIN)
  {
    assert CHAIN[0] == 'c' && "unknown"[0] == 'u';
  }

  lemma JournalAccountable(ss: seq<Session>, k: nat, saved: Saved)
    requires UniqueIds(ss) && k < |ss| && saved.cost >= 0.0 && Primary(ss[k], saved) == Some(CHAIN)
             && Names(ss, k, CHAIN)
    ensures UsageAccountable(ss, ss[k].id, Some(saved))
  {
    IndexOfUnique(ss, k);
  }

  lemma JournalTx(st: State, k: nat, saved: Saved, tx: Tx, total: real) returns (e: Event)
    requires UniqueIds(st.sessions) && k < |st.sessions| && st.sessions[k].status != Settled
    requires st.sessions[k].lowerCost.None? && st.sessions[k].cost.None? && saved.complete && saved.cost >= 0.0
    requires Primary(st.sessions[k], saved) == Some(CHAIN) && total == Baseline(st.sessions[..k], CHAIN) + saved.cost
    requires tx == RecoverTx(st, st.sessions[k].id, Some(saved), false, NOW)
    ensures tx == Append([AccrueEvent(st, 0.0)] + [e])
    ensures e == Settle(st.sessions[k].id, saved.cost, "recovered usage estimate",
                        map[CHAIN := total], Some(TokenPriced), Unstated, true)
  {
    var s := st.sessions[k];
    IndexOfUnique(st.sessions, k);
    assert tx == UsageTx(st, k, saved, Estimate(st.sessions, s.model, Some(s.phase), false), NOW);
    e := JournalEvent(s, st.sessions[..k], saved, total);
  }

  lemma JournalEvent(s: Session, prior: seq<Session>, saved: Saved, total: real) returns (e: Event)
    requires s.cost.None? && Primary(s, saved) == Some(CHAIN) && total == Baseline(prior, CHAIN) + saved.cost
    ensures EstimateEvents(s, prior, saved, saved.cost) == [e]
    ensures e == Settle(s.id, saved.cost, "recovered usage estimate", map[CHAIN := total], Some(TokenPriced),
                        Unstated, true)
  {
    e := Settle(s.id, saved.cost, "recovered usage estimate", map[CHAIN := total], Some(TokenPriced), Unstated, true);
    assert Undo(s) + [e] == [e];
  }

  lemma SettledNext(st: State, k: nat, e: Event) returns (next: State, s: Session)
    requires Calm(st) && UniqueIds(st.sessions) && k < |st.sessions| && e.Settle? && e.id == st.sessions[k].id
    ensures ApplyAll(Started(st, 0.0), [e], 0.0) == Some(next) && Calm(next) && next.sessions == st.sessions[k := s]
    ensures s == Settling(st.sessions[k], e, 0.0) && s.totals == e.totals && s.cost == Some(e.cost)
  {
    IndexOfUnique(st.sessions, k);
    s := Settling(st.sessions[k], e, 0.0);
    OneEvent(Started(st, 0.0), e, 0.0);
    next := Apply(Started(st, 0.0), e, 0.0).value;
  }

  function Reporting(id: string, total: real): Receipt {
    Receipt(id, "done", Some([(CHAIN, total)]), None, false, false, None, true)
  }

  const IDLE := Host(false, false)

  /** A receipt for a session that is open or estimated goes on to its amounts. */
  lemma ReportTx(st: State, k: nat, total: real, clamps: seq<Event>)
    requires UniqueIds(st.sessions) && k < |st.sessions| && total >= 0.0
    requires st.sessions[k].status != Settled || Estimated(st.sessions[k].provenance)
    requires ClampAll(st.sessions, k, [(CHAIN, total)]) == Some(clamps)
    ensures var r := Reporting(st.sessions[k].id, total);
            ReceiptTx(st, r, IDLE, NOW) == NativeTx(st, k, r, [(CHAIN, total)], clamps, NOW)
  {
    IndexOfUnique(st.sessions, k);
  }

  /** Settles the last session by a native receipt that is not below its baseline. */
  lemma Reported(calls: seq<Call>, st: State, k: nat, total: real) returns (more: seq<Call>, next: State, s: Session)
    requires At(calls, st) && k + 1 == |st.sessions| && Names(st.sessions, k, CHAIN)
    requires st.sessions[k].status != Settled && st.sessions[k].cost.None?
    requires total >= Baseline(st.sessions[..k], CHAIN) && total >= 0.0
    ensures At(more, next) && next.sessions == st.sessions[k := s]
    ensures s.status == Settled && s.provenance == Some(NativeReported) && s.totals == map[CHAIN := total]
    ensures s.id == st.sessions[k].id
  {
    var ss := st.sessions;
    var r := Reporting(ss[k].id, total);
    IndexOfUnique(ss, k);
    OneProvider(ss, k, CHAIN, total);
    ReportTx(st, k, total, []);
    var cost := Charge(ss[..k], [(CHAIN, total)]);
    var events := SettleEvents(ss[k], r, [(CHAIN, total)], cost);
    assert events == [events[0]] && [] + events == events;
    next, s := SettledNext(st, k, events[0]);
    AfterAccrual(st, events, NOW);
    Extend(calls, st, SettleReceipt(r, IDLE), NativeTx(st, k, r, [(CHAIN, total)], [], NOW), next);
    more := calls + [Call(SettleReceipt(r, IDLE), NOW)];
  }
}

module CornerRun {
  import opened Wrappers
  import opened Ledger
  import opened Receipts
  import opened Writers
  import opened ReceiptEffects
  import opened Chains
  import opened Clamping
  import opened ClampedChains
  import opened Rebasing
  import opened Telescoping
  import opened ChainRuns
  import opened ChainSteps
  import opened RunTelescoping
  import opened CornerSteps

  /** Two estimates of 10 and 5, and a third session with the native total 18. */
  predicate Corner(ss: seq<Session>) {
    && |ss| == 3 && ss[0].id == "a" && ss[1].id == "b" && ss[2].id == "c"
    && (forall i :: 0 <= i < 3 ==> ss[i].status == Settled)
    && ss[0].provenance == Some(TokenPriced) && ss[1].provenance == Some(TokenPriced)
    && ss[2].provenance == Some(NativeReported)
    && ss[0].totals == map[CHAIN := 10.0] && ss[1].totals == map[CHAIN := 15.0] && ss[2].totals == map[CHAIN := 18.0]
  }

  lemma FirstLaunch() returns (calls: seq<Call>, st: State, s: Session)
    ensures At(calls, st) && st.sessions == [s] && Unused([s], CHAIN)
    ensures s.id == "a" && s.resume.None? && s.status == Active && s.cost.None? && s.lowerCost.None?
    ensures s.totals == map[]
  {
    Nothing();
    calls, st, s := Launching([], EMPTY, "a", None);
  }

  lemma FirstEstimate() returns (calls: seq<Call>, st: State)
    ensures At(calls, st) && |st.sessions| == 1
    ensures var s := st.sessions[0];
            s.id == "a" && s.status == Settled && s.provenance == Some(TokenPriced) && s.totals == map[CHAIN := 10.0]
  {
    var more, mid, s := FirstLaunch();
    assert Baseline(mid.sessions[..0], CHAIN) == 0.0;
    var t;
    calls, st, t := Journaled(more, mid, 0, 10.0, 10.0);
  }

  lemma SecondLaunch() returns (calls: seq<Call>, st: State, s: Session)
    ensures At(calls, st) && |st.sessions| == 2 && st.sessions[1] == s
    ensures s.id == "b" && s.resume == Some(CHAIN) && s.status == Active && s.cost.None? && s.lowerCost.None?
    ensures s.totals == map[] && Baseline(st.sessions[..1], CHAIN) == 10.0
    ensures var t := st.sessions[0];
            t.id == "a" && t.status == Settled && t.provenance == Some(TokenPriced) && t.totals == map[CHAIN := 10.0]
  {
    var before, base := FirstEstimate();
    assert CHAIN in base.sessions[0].totals;
    calls, st, s := Launching(before, base, "b", Some(CHAIN));
    assert st.sessions[..1] == base.sessions;
    BaselineOf(base.sessions);
  }

  lemma SecondEstimate() returns (calls: seq<Call>, st: State)
    ensures At(calls, st) && |st.sessions| == 2
    ensures forall i :: 0 <= i < 2 ==>
              st.sessions[i].status == Settled && st.sessions[i].provenance == Some(TokenPriced)
    ensures st.sessions[0].id == "a" && st.sessions[1].id == "b"
    ensures st.sessions[0].totals == map[CHAIN := 10.0] && st.sessions[1].totals == map[CHAIN := 15.0]
  {
    var more, mid, s := SecondLaunch();
    var t;
    calls, st, t := Journaled(more, mid, 1, 5.0, 15.0);
  }

  /** In a linked ledger the baseline is the last total. */
  lemma BaselineOf(ss: seq<Session>)
    requires Linked(ss) && ss != [] && CHAIN in ss[|ss| - 1].totals
    ensures Baseline(ss, CHAIN) == ss[|ss| - 1].totals[CHAIN]
  {
    assert ss[..|ss|] == ss;
    BaselineIsPrev(ss, |ss|, CHAIN);
  }

  lemma CornerReached() returns (calls: seq<Call>, st: State)
    ensures At(calls, st) && Corner(st.sessions)
  {
    var before, base := SecondEstimate();
    assert CHAIN in base.sessions[0].totals;
    var more, mid, s := Launching(before, base, "c", Some(CHAIN));
    assert mid.sessions[..2] == base.sessions;
    BaselineOf(base.sessions);
    var t;
    calls, st, t := Reported(more, mid, 2, 18.0);
  }

  // ------------------------------------------------------------- the late receipt

  lemma CornerCosts(ss: seq<Session>)
    requires Chained(ss) && Corner(ss)
    ensures Cost(ss[0]) == 10.0 && Cost(ss[1]) == 5.0 && ss[2].cost == Some(3.0)
    ensures Prev(ss, 1, CHAIN) == 10.0 && Baseline(ss[..1], CHAIN) == 10.0
  {
    assert LinkedAt(ss, 0) && LinkedAt(ss, 1) && LinkedAt(ss, 2);
    assert Prev(ss, 0, CHAIN) == 0.0;
    BaselineIsPrev(ss, 1, CHAIN);
  }

  /** The receipt of 8 lies below the first total, which can be clamped. */
  lemma CornerClamps(ss: seq<Session>) returns (clamps: seq<Event>)
    requires Chained(ss) && Corner(ss)
    ensures ClampAll(ss, 1, [(CHAIN, 8.0)]) == Some(clamps)
    ensures Charge(ss[..1], [(CHAIN, 8.0)]) == 0.0
    ensures Clampable(ss, 1, CHAIN, 8.0)
  {
    CornerCosts(ss);
    OneProvider(ss, 1, CHAIN, 8.0);
    assert Exact(ss[..1], CHAIN) == 0.0 by { assert Exact([], CHAIN) == 0.0; }
    assert LooseAt(ss, 0, 1, CHAIN, 0.0) == [0] by { assert LooseAt(ss, 1, 1, CHAIN, 0.0) == []; }
    clamps := Clamp(ss, 1, CHAIN, 8.0);
  }

  /** The native session absorbs the change of the second one, and not the clamp. */
  lemma CornerRebases(ss: seq<Session>)
    requires Chained(ss) && Corner(ss)
    ensures Rebase(ss, 2, {CHAIN}, -5.0) == Ok([AdjustEvent(ss[2], -5.0)])
  {
    CornerCosts(ss);
    assert Touches(ss[2], {CHAIN}) by { assert CHAIN in ss[2].totals.Keys * {CHAIN}; }
    assert ss[2].totals.Keys == {CHAIN};
  }

  lemma LateSum(ss: seq<Session>, out: seq<Session>)
    requires Chained(ss) && Corner(ss) && |out| == 3 && Clampable(ss, 1, CHAIN, 8.0)
    requires LateReceipt(ss, out, 1, CHAIN, 8.0)
    ensures out[2].status == Settled && out[2].provenance == Some(NativeReported) && out[2].totals == map[CHAIN := 18.0]
    ensures ChainCost(out, 3, CHAIN) == 16.0
  {
    CornerCosts(ss);
    ClampChain(ss, out, 1, CHAIN, 8.0);
    assert LinkedAt(out, 0) && Prev(out, 0, CHAIN) == 0.0;
    assert CHAIN in out[0].totals by { assert Alike(ss[0], out[0]); }
    assert Cost(out[0]) == 8.0 && Cost(out[1]) == 0.0;
    assert RebasedBy(ss, out, 2, CHAIN, -5.0);
    assert Cost(out[2]) == 8.0;
    assert ChainCost(out, 1, CHAIN) == 8.0 && ChainCost(out, 2, CHAIN) == 8.0;
  }

  /** The exception is reached: after these calls, every one of them accountable, a
      native receipt of 8 for the second session is accepted, and then the costs through
      the third session are 16, although its own native receipt said 18. */
  lemma ClampedLateReceiptBreaks() returns (calls: seq<Call>, late: Call)
    ensures AllWellFormed(calls) && AccountableRun(Files([], None), calls)
    ensures late.op.SettleReceipt? && WellFormed(late.op)
    ensures var after := Replay(Step(Run(Files([], None), calls), late.op, late.t).ledger);
            && after.Some?
            && |after.value.sessions| == 3
            && after.value.sessions[2].provenance == Some(NativeReported)
            && after.value.sessions[2].totals == map[CHAIN := 18.0]
            && ChainCost(after.value.sessions, 3, CHAIN) == 16.0
  {
    var st;
    calls, st := CornerReached();
    late := Call(SettleReceipt(Reporting("b", 8.0), IDLE), NOW);
    var next := LateNext(st);
    RecordedNext(Run(START, calls), st, Reporting("b", 8.0), next);
  }

  lemma LateNext(st: State) returns (next: State)
    requires Chained(st.sessions) && Corner(st.sessions)
    ensures var tx := ReceiptTx(st, Reporting("b", 8.0), IDLE, NOW); tx.Append? && After(st, tx, NOW) == Some(next)
    ensures |next.sessions| == 3 && next.sessions[2].provenance == Some(NativeReported)
    ensures next.sessions[2].totals == map[CHAIN := 18.0] && ChainCost(next.sessions, 3, CHAIN) == 16.0
  {
    var ss, r := st.sessions, Reporting("b", 8.0);
    var clamps := CornerClamps(ss);
    ReportTx(st, 1, 8.0, clamps);
    next := LateBreaks(st, r, clamps);
  }

  lemma LateBreaks(st: State, r: Receipt, clamps: seq<Event>) returns (next: State)
    requires Chained(st.sessions) && Corner(st.sessions) && Clampable(st.sessions, 1, CHAIN, 8.0)
    requires ClampAll(st.sessions, 1, [(CHAIN, 8.0)]) == Some(clamps) && Charge(st.sessions[..1], [(CHAIN, 8.0)]) == 0.0
    ensures var tx := NativeTx(st, 1, r, [(CHAIN, 8.0)], clamps, NOW); tx.Append? && After(st, tx, NOW) == Some(next)
    ensures |next.sessions| == 3 && next.sessions[2].provenance == Some(NativeReported)
    ensures next.sessions[2].totals == map[CHAIN := 18.0] && ChainCost(next.sessions, 3, CHAIN) == 16.0
  {
    var ss := st.sessions;
    CornerCosts(ss);
    CornerRebases(ss);
    LateShape(st, 1, r, CHAIN, 8.0, clamps, NOW);
    var out := LateOutcome(st, 1, r, CHAIN, 8.0, clamps, [AdjustEvent(ss[2], -5.0)], NOW);
    LateSum(ss, out);
    next := After(st, NativeTx(st, 1, r, [(CHAIN, 8.0)], clamps, NOW), NOW).value;
  }

  lemma RecordedNext(files: Files, st: State, r: Receipt, next: State)
    requires Replay(files.ledger) == Some(st) && ReceiptTx(st, r, IDLE, NOW).Append?
    requires After(st, ReceiptTx(st, r, IDLE, NOW), NOW) == Some(next)
    ensures Replay(Step(files, SettleReceipt(r, IDLE), NOW).ledger) == Some(next)
  {
    var tx := ReceiptTx(st, r, IDLE, NOW);
    assert Step(files, SettleReceipt(r, IDLE), NOW).ledger == files.ledger + [RecordOf(st, tx.events, NOW)];
    ReplayAppend(files.ledger, RecordOf(st, tx.events, NOW));
  }
}
