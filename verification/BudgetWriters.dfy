/** The budget's files and the writers that change them in place. Every writer does to
    the files exactly what its specification says. */
module BudgetWriters {
  import opened Wrappers
  import opened Ledger
  import opened Selection
  import opened Receipts
  import opened Writers
  import opened RelatedRows
  import opened AdmissionLoops
  import opened StateBooks
  import opened Accounting
  import Queueing

  // ------------------------------------------------------ parts of the writers

  /** Tries the reasons for which an admission must wait, in order. */
  method ReasonToWait(st: State, ghost begun: State, queue: Queue, r: Request, dead: set<string>, active: seq<Session>,
                      available: real, estimate: real, t: Ticks)
    returns (reason: Option<Reason>)
    requires Orderly(queue)
    requires active == MarkedActive(st.sessions, dead)
    requires st == Accrued(begun, t.accrual) && available == Available(st)
    requires estimate == Estimate(st.sessions, r.model, Some(r.phase), true)
    ensures reason == Obstacle(begun, queue, r, dead, t)
  {
    ActiveMeans(st.sessions, dead, r.resume, r.model);
    var first := FirstInLine(queue, r.model, t.now);
    LineMeans(queue, r.model, t.now, r.worker, first);
    var costs := CostSample(st.sessions, r.model, Some(r.phase), true);
    if NeedsRepair(active) {
      reason := Some(RepairRequired);
    } else if BeingResumed(active, r.resume) {
      reason := if LiveResume(active, {}, r.resume) then Some(AlreadyResumed) else Some(BaselineUnresolved);
    } else if r.model in st.cooldowns && st.cooldowns[r.model] > t.now {
      reason := Some(Throughput);
    } else if costs == [] && LiveModel(active, {}, r.model) {
      reason := Some(Calibrating);
    } else if available <= 0.0 || available < estimate {
      reason := Some(Funding);
    } else if first.Some? && first.value.worker != r.worker {
      reason := Some(Behind);
    } else {
      reason := None;
    }
  }

  lemma AnyAppend(a: seq<Session>, s: Session, dead: set<string>, resume: Option<string>, model: string)
    ensures NeedsRepair(a + [s]) <==> NeedsRepair(a) || (s.status != Settled && s.archived)
    ensures BeingResumed(a + [s], resume) <==> BeingResumed(a, resume) || (s.status != Settled && Resumes(s, resume))
    ensures LiveResume(a + [s], dead, resume) <==> LiveResume(a, dead, resume) || (Live(s, dead) && Resumes(s, resume))
    ensures LiveModel(a + [s], dead, model) <==> LiveModel(a, dead, model) || (Live(s, dead) && s.model == model)
  {
    var all := a + [s];
    assert all[|a|] == s;
    assert forall i :: 0 <= i < |a| ==> all[i] == a[i];
  }

  /** What holds of some unsettled session after marking holds of one before. */
  lemma {:induction false} ActiveMeans(ss: seq<Session>, dead: set<string>, resume: Option<string>, model: string)
    ensures var active := MarkedActive(ss, dead);
            && (NeedsRepair(active) <==> NeedsRepair(ss))
            && (BeingResumed(active, resume) <==> BeingResumed(ss, resume))
            && (LiveResume(active, {}, resume) <==> LiveResume(ss, dead, resume))
            && (LiveModel(active, {}, model) <==> LiveModel(ss, dead, model))
    decreases |ss|
  {
    if ss != [] {
      var n := |ss| - 1;
      ActiveMeans(ss[..n], dead, resume, model);
      AnyAppend(ss[..n], ss[n], dead, resume, model);
      assert ss == ss[..n] + [ss[n]];
      var init := MarkedActive(ss[..n], dead);
      if ss[n].status == Settled {
        assert init + [] == init;
      } else {
        AnyAppend(init, MarkedOne(ss[n], dead), {}, resume, model);
      }
    }
  }

  lemma LineMeans(queue: Queue, model: string, now: real, worker: string, first: Option<Waiting>)
    requires Orderly(queue)
    requires first.None? <==> !SomeoneInLine(queue, model, now)
    requires first.Some? ==> IsFirst(queue, model, now, first.value.worker)
    ensures BehindAnother(queue, model, now, worker) <==> (first.Some? && first.value.worker != worker)
  {
    if first.Some? {
      BehindIffNotFirst(queue, model, now, worker, first.value.worker);
    }
  }

  lemma BeforeOwn(ss: seq<Session>, p: string, id: string)
    requires Has(ss, id)
    ensures var ordered := Related(ss, {p}, id);
            && Has(ordered, id)
            && Baseline(ordered[..IndexOf(ordered, id)], p) == Baseline(ss[..IndexOf(ss, id)], p)
  {
    var k := IndexOf(ss, id);
    RelatedAround(ss, {p}, id);
    BaselineRelated(ss[..k], {p}, id, p);
    var ordered := Related(ss, {p}, id);
    assert ordered[..IndexOf(ordered, id)] == Related(ss[..k], {p}, id);
  }

  /** The largest total that earlier related sessions recorded for one provider. */
  lemma BaselineNext(rows: seq<Session>, i: nat, p: string)
    requires i < |rows|
    ensures var before := Baseline(rows[..i], p);
            Baseline(rows[..i + 1], p) == if p in rows[i].totals then Max(before, rows[i].totals[p]) else before
  {
    assert rows[..i + 1] == rows[..i] + [rows[i]];
    BaselineAppend(rows[..i], rows[i], p);
  }

  method LargestTotal(ss: seq<Session>, p: string, id: string) returns (baseline: real)
    requires Has(ss, id)
    ensures baseline == Baseline(ss[..IndexOf(ss, id)], p)
  {
    var ordered := Related(ss, {p}, id);
    BeforeOwn(ss, p, id);
    baseline := 0.0;
    var i := 0;
    while i < |ordered| && ordered[i].id != id
      invariant i <= IndexOf(ordered, id) && baseline == Baseline(ordered[..i], p)
    {
      BaselineNext(ordered, i, p);
      if p in ordered[i].totals {
        baseline := Max(baseline, ordered[i].totals[p]);
      }
      i := i + 1;
    }
  }

  /** Settles a complete journal by its estimate, on the baseline of its provider. */
  method SettleEstimate(ss: seq<Session>, id: string, saved: Saved, cost: real) returns (events: seq<Event>)
    requires Has(ss, id)
    ensures events == EstimateEvents(Get(ss, id), ss[..IndexOf(ss, id)], saved, cost)
  {
    var session := Get(ss, id);
    events := [];
    if Cost(session) != 0.0 {
      events := [Correct(id, Cost(session), 0.0, None, None, Unstated)];
    }
    var primary := Primary(session, saved);
    var totals := map[];
    if primary.Some? {
      var baseline := LargestTotal(ss, primary.value, id);
      totals := map[primary.value := baseline + cost];
    }
    events := events + [Settle(id, cost, "recovered usage estimate", totals, Some(TokenPriced), Unstated, true)];
  }

  /** Charges the prefix of an incomplete journal, unless that was done already. */
  method ChargePrefix(s: Session, saved: Saved, estimate: real, cost: real) returns (events: Option<seq<Event>>)
    ensures var mark := (saved.mark, cost);
            var tail := if s.checkpoint == Some(mark) && s.tail.Some? then s.tail.value
                        else Max(Max(s.estimate, estimate), cost);
            events == if Cost(s) == cost && s.reserve == Some(tail) && s.status == Provisional then None
                      else Some(PrefixEvents(s, mark, cost, tail))
  {
    var mark := (saved.mark, cost);
    var tail := 0.0;
    if s.checkpoint == Some(mark) && s.tail.Some? {
      tail := s.tail.value;
    } else {
      tail := Max(Max(s.estimate, estimate), cost);
    }
    if Cost(s) == cost && s.reserve == Some(tail) && s.status == Provisional {
      return None;
    }
    return Some(PrefixEvents(s, mark, cost, tail));
  }

  /** Charges a journal to a session: an estimate for a complete one, else a prefix. */
  method ChargeJournal(state: Books, id: string, saved: Saved, estimate: real, t: Ticks) returns (tx: Tx)
    requires Has(state.sessions, id)
    modifies state`balance, state`watermark
    ensures tx == UsageTx(old(state.View()), IndexOf(old(state.sessions), id), saved, estimate, t)
  {
    var session := Get(state.sessions, id);
    var cost := Max(saved.cost, session.lowerCost.GetOr(0.0));
    var events := None;
    if saved.complete {
      var settling := SettleEstimate(state.sessions, id, saved, cost);
      events := Some(settling);
    } else {
      events := ChargePrefix(session, saved, estimate, cost);
    }
    if events.None? {
      return NoChange;
    }
    var accrual := state.EarnRate(t.accrual);
    return Append([accrual] + events.value);
  }

  /** What a saved journal changes. */
  method UsageAgainst(state: Books, id: string, saved: Option<Saved>, live: bool, t: Ticks) returns (tx: Tx)
    modifies state`balance, state`watermark
    ensures tx == RecoverTx(old(state.View()), id, saved, live, t)
  {
    if !Has(state.sessions, id) || Get(state.sessions, id).status == Settled || live || saved.None? {
      return NoChange;
    }
    var session := Get(state.sessions, id);
    var estimate := Estimate(state.sessions, session.model, Some(session.phase), false);
    tx := ChargeJournal(state, id, saved.value, estimate, t);
  }

  /** One admission attempt: what it appends, and the queue that it leaves. */
  method Attempt(state: Books, file: Option<Queue>, r: Request, dead: set<string>, t: Ticks) returns (a: Admission)
    requires Orderly(QueueOf(state.View(), file))
    modifies state`balance, state`watermark
    ensures a == AdmitTx(old(state.View()), file, r, dead, t)
  {
    ghost var st := state.View();
    if Has(state.sessions, r.id) {
      return Admission(Refused(AlreadyLaunched), file, None);
    }
    var accrual := state.EarnRate(t.accrual);
    if !Recorded(state.sessions, r.resume) {
      return Admission(Refused(NoBaseline), file, None);
    }
    a := Weigh(state, st, accrual, QueueOf(state.View(), file), r, dead, t);
  }

  /** The unsettled sessions with the orphans among them marked, and the marks. */
  method Unsettled(ss: seq<Session>, dead: set<string>) returns (active: seq<Session>, lost: seq<Event>)
    ensures active == MarkedActive(ss, dead) && lost == Orphans(ss, dead)
    ensures TotalPending(active) == TotalPending(ss)
  {
    var rows := Select(ss, UNSETTLED);
    assert forall i :: 0 <= i < |rows| ==> rows[i] in rows && Matches(UNSETTLED, rows[i]);
    active, lost := MarkOrphans(rows, dead);
    UnsettledOrphans(ss, dead);
    MarkedActivePending(ss, dead);
  }

  /** Marks orphans, finds a reason to wait or none, and concludes. */
  method Weigh(state: Books, ghost st: State, accrual: Event, queue: Queue, r: Request, dead: set<string>, t: Ticks)
    returns (a: Admission)
    requires state.View() == Accrued(st, t.accrual) && accrual == AccrueEvent(st, t.accrual) && Orderly(queue)
    ensures a == Decide(st, queue, r, Estimate(st.sessions, r.model, Some(r.phase), true), Orphans(st.sessions, dead),
                        Obstacle(st, queue, r, dead, t), t)
  {
    var active, lost := Unsettled(state.sessions, dead);
    var estimate := Estimate(state.sessions, r.model, Some(r.phase), true);
    var reason := ReasonToWait(state.View(), st, queue, r, dead, active, state.balance - TotalPending(active),
                               estimate, t);
    a := Conclude(st, accrual, queue, r, estimate, lost, reason, t);
  }

  /** Admits the session, or files its wait; a wait for an unchanged reason is not
      recorded again. */
  method Conclude(ghost st: State, accrual: Event, queue: Queue, r: Request, estimate: real, lost: seq<Event>,
                  reason: Option<Reason>, t: Ticks)
    returns (a: Admission)
    requires accrual == AccrueEvent(st, t.accrual)
    ensures a == Decide(st, queue, r, estimate, lost, reason, t)
  {
    if reason.None? {
      return Admission(Append([accrual] + (lost + [Admit(Admitted(r, estimate, t.now))])), Some(queue - {r.worker}),
                       None);
    }
    var wait := WaitOf(queue, r.worker, r.model, r.ticket, reason.value, estimate, t.now);
    var previous := Previous(queue, r.worker, t.now);
    var tx := NoChange;
    if previous.None? || previous.value.reason != reason.value || lost != [] {
      tx := Append([accrual] + (lost + [Wait(wait)]));
    }
    return Admission(tx, Some(queue[r.worker := wait]), reason);
  }

  /** What a settlement with a given cost, or with none, changes. */
  method CostAgainst(state: Books, id: string, cost: Option<real>, outcome: string, noted: bool, totals: Totals,
                     provenance: Provenance, finished: Option<real>, t: Ticks)
    returns (tx: Tx)
    modifies state`balance, state`watermark
    ensures tx == SettleTx(old(state.View()), id, cost, outcome, noted, totals, provenance, finished, t)
  {
    if cost.Some? && cost.value < 0.0 {
      return Refused(InvalidAmount);
    }
    if !Has(state.sessions, id) {
      return Refused(UnknownInvocation);
    }
    var session := Get(state.sessions, id);
    if session.status == Settled {
      return if cost.Some? && Cost(session) != cost.value then Refused(CostConflict) else NoChange;
    }
    var accrual := state.EarnRate(t.accrual);
    if cost.None? {
      return Append([accrual, Unresolve(id, false, FinishOf(finished), None)]);
    }
    var events := [];
    if session.cost.Some? {
      events := [Correct(id, Cost(session), 0.0, None, None, Unstated)];
    }
    events := events + [Settle(id, cost.value, outcome, totals, Some(provenance), FinishOf(finished), noted)];
    return Append([accrual] + events);
  }

  lemma UsageStep(files: Files, st: State, id: string, saved: Option<Saved>, live: bool, tx: Tx, t: Ticks)
    requires Replay(files.ledger) == Some(st) && tx == RecoverTx(st, id, saved, live, t)
    ensures Step(files, Op.RecoverUsage(id, saved, live), t) == Left(files, st, tx, files.queue, t)
    ensures AnswerTo(files, Op.RecoverUsage(id, saved, live), t) == AnswerOf(tx)
  {
  }

  class Budget {
    var ledger: seq<Record>
    var queue: Option<Queue>

    /** The contents of the two files. */
    function Contents(): Files
      reads this
    {
      Files(ledger, queue)
    }

    constructor ()
      ensures Contents() == Files([], None)
    {
      ledger, queue := [], None;
    }

    /** Reads the whole ledger; None when it is damaged. */
    method Current() returns (books: Option<Books>)
      ensures books.Some? <==> Replay(ledger).Some?
      ensures books.Some? ==> fresh(books.value) && books.value.View() == Replay(ledger).value
    {
      var state := new Books();
      var ok := state.ReplayAll(ledger);
      books := if ok then Some(state) else None;
    }

    /** Appends one record and answers the caller. */
    method Commit(ghost st: State, number: nat, tx: Tx, t: Ticks) returns (answer: Answer)
      requires number == st.number
      modifies this`ledger
      ensures Contents() == Left(old(Contents()), st, tx, old(queue), t)
      ensures answer == AnswerOf(tx)
    {
      answer := Done;
      match tx {
        case Refused(why) => answer := Denied(why);
        case NoChange =>
        case Append(events) => ledger := ledger + [Record(number + 1, t.stamp, events)];
      }
    }

    method Configure(grant: Option<real>, target: Option<real>, rate: Option<real>, t: Ticks) returns (answer: Answer)
      modifies this`ledger
      ensures Contents() == Step(old(Contents()), Op.Configure(grant, target, rate), t)
      ensures answer == AnswerTo(old(Contents()), Op.Configure(grant, target, rate), t)
    {
      var books := Current();
      if books.None? {
        return Unreadable;
      }
      var state := books.value;
      ghost var st := state.View();
      if (grant.Some? && target.Some?) || (grant.Some? && grant.value <= 0.0) || (rate.Some? && rate.value < 0.0) {
        return Denied(InvalidAmount);
      }
      var accrual := state.EarnRate(t.accrual);
      var changes := [];
      if grant.Some? {
        changes := changes + [Grant(grant.value)];
      }
      if target.Some? {
        changes := changes + [Adjust(target.value - state.balance)];
      }
      if rate.Some? {
        changes := changes + [SetRate(rate.value)];
      }
      assert Append([accrual] + changes) == ConfigureTx(st, grant, target, rate, t);
      answer := Commit(st, state.number, Append([accrual] + changes), t);
    }

    method SettleCost(id: string, cost: Option<real>, outcome: string, noted: bool, totals: Totals,
                      provenance: Provenance, finished: Option<real>, t: Ticks)
      returns (answer: Answer)
      modifies this`ledger
      ensures Contents() == Step(old(Contents()),
                                 Op.SettleCost(id, cost, outcome, noted, totals, provenance, finished), t)
      ensures answer == AnswerTo(old(Contents()),
                                 Op.SettleCost(id, cost, outcome, noted, totals, provenance, finished), t)
    {
      var books := Current();
      if books.None? {
        return Unreadable;
      }
      var state := books.value;
      ghost var st := state.View();
      var tx := CostAgainst(state, id, cost, outcome, noted, totals, provenance, finished, t);
      answer := Commit(st, state.number, tx, t);
    }

    method Reconcile(id: string, amount: real, noted: bool, bridgeAlive: bool, t: Ticks) returns (answer: Answer)
      modifies this`ledger
      ensures Contents() == Step(old(Contents()), Op.Reconcile(id, amount, noted, bridgeAlive), t)
      ensures answer == AnswerTo(old(Contents()), Op.Reconcile(id, amount, noted, bridgeAlive), t)
    {
      var books := Current();
      if books.None? {
        return Unreadable;
      }
      var state := books.value;
      ghost var st := state.View();
      if !noted {
        return Denied(NoteRequired);
      }
      if amount < 0.0 {
        return Denied(InvalidAmount);
      }
      if !Has(state.sessions, id) {
        return Denied(UnknownInvocation);
      }
      var session := Get(state.sessions, id);
      if session.status != Settled && session.bridge.Some? && bridgeAlive {
        return Denied(LiveBridge);
      }
      var accrual := state.EarnRate(t.accrual);
      var events := [];
      if session.status != Settled {
        if session.cost.Some? {
          events := [Correct(id, Cost(session), 0.0, None, None, Unstated)];
        }
        events := events + [Settle(id, amount, "reconciled", map[], None, Unstated, true)];
      } else {
        events := [Correct(id, Cost(session) - amount, amount, None, None, Unstated)];
      }
      assert Append([accrual] + events) == ReconcileTx(st, id, amount, noted, bridgeAlive, t);
      answer := Commit(st, state.number, Append([accrual] + events), t);
    }

    method SettleReceipt(r: Receipt, host: Host, t: Ticks) returns (answer: Answer)
      requires r.totals.Some? ==> DistinctKeys(r.totals.value)
      modifies this`ledger
      ensures Contents() == Step(old(Contents()), Op.SettleReceipt(r, host), t)
      ensures answer == AnswerTo(old(Contents()), Op.SettleReceipt(r, host), t)
    {
      var books := Current();
      if books.None? {
        return Unreadable;
      }
      ghost var st := books.value.View();
      var tx := SettleAgainst(books.value, r, host, t);
      if tx.None? {
        answer := SettleCost(r.id, None, r.outcome, r.noted, map[], NativeReported, r.finished, t);
      } else {
        answer := Commit(st, books.value.number, tx.value, t);
      }
    }

    method RecoverUsage(id: string, saved: Option<Saved>, live: bool, t: Ticks) returns (answer: Answer)
      modifies this`ledger
      ensures Contents() == Step(old(Contents()), Op.RecoverUsage(id, saved, live), t)
      ensures answer == AnswerTo(old(Contents()), Op.RecoverUsage(id, saved, live), t)
    {
      var books := Current();
      if books.None? {
        return Unreadable;
      }
      var state := books.value;
      ghost var st := state.View();
      ghost var files := Contents();
      var tx := UsageAgainst(state, id, saved, live, t);
      UsageStep(files, st, id, saved, live, tx, t);
      answer := Commit(st, state.number, tx, t);
    }

    method CoolDown(model: string, seconds: real, t: Ticks) returns (answer: Answer)
      modifies this`ledger
      ensures Contents() == Step(old(Contents()), Op.CoolDown(model, seconds), t)
      ensures answer == AnswerTo(old(Contents()), Op.CoolDown(model, seconds), t)
    {
      var books := Current();
      if books.None? {
        return Unreadable;
      }
      var state := books.value;
      ghost var st := state.View();
      var before := if model in state.cooldowns then state.cooldowns[model] else 0.0;
      var accrual := state.EarnRate(t.accrual);
      answer := Commit(st, state.number, Append([accrual, Cooldown(model, Max(before, t.now + Max(0.0, seconds)))]), t);
    }

    method Admit(r: Request, dead: set<string>, t: Ticks) returns (answer: Answer, reason: Option<Reason>)
      requires Queueing.OrderlyFiles(Contents())
      modifies this
      ensures Contents() == Step(old(Contents()), Op.Launch(r, dead), t)
      ensures answer == AnswerTo(old(Contents()), Op.Launch(r, dead), t)
      ensures old(Replay(ledger)).Some? ==> reason == AdmitTx(old(Replay(ledger)).value, old(queue), r, dead, t).reason
    {
      reason := None;
      var books := Current();
      if books.None? {
        return Unreadable, None;
      }
      var state := books.value;
      ghost var st := state.View();
      ghost var files := Contents();
      var a := Attempt(state, queue, r, dead, t);
      answer := Commit(st, state.number, a.tx, t);
      queue, reason := a.queue, a.reason;
      assert Contents() == Left(files, st, a.tx, a.queue, t);
    }

    /** A preflight wait changes the queue file only. */
    method WaitForAdmission(worker: string, model: string, phase: string, ticket: nat, reason: Reason, t: Ticks)
      returns (answer: Answer)
      modifies this`queue
      ensures Contents() == Step(old(Contents()), Op.Queued(worker, model, phase, ticket, reason), t)
    {
      var books := Current();
      if books.None? {
        return Unreadable;
      }
      var state := books.value;
      var waiting := QueueOf(state.View(), queue);
      var previous := Previous(waiting, worker, t.now);
      var wait := Waiting(worker, model, ticket, t.now, t.now, reason,
                          Estimate(state.sessions, model, Some(phase), true));
      if previous.Some? {
        wait := wait.(ticket := previous.value.ticket, since := previous.value.since);
      }
      queue := Some(waiting[worker := wait]);
      return Done;
    }

    /** A heartbeat keeps a fresh wait fresh. */
    method RefreshWaiter(worker: string, t: Ticks) returns (answer: Answer)
      modifies this`queue
      ensures Contents() == Step(old(Contents()), Op.Refresh(worker), t)
    {
      var books := Current();
      if books.None? {
        return Unreadable;
      }
      var waiting := QueueOf(books.value.View(), queue);
      if worker in waiting && t.now - waiting[worker].seen < WAIT_SECONDS {
        queue := Some(waiting[worker := waiting[worker].(seen := t.now)]);
      }
      return Done;
    }
  }
}
