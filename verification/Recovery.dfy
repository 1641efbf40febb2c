/** Recovering stopped sessions: every candidate is planned against private state, a
    failed candidate leaves no trace, and the plan is committed as one transaction. */
module Recovery {
  import opened Wrappers
  import opened Ledger
  import opened Receipts
  import opened Writers
  import opened Conservation
  import opened HonestWriters
  import opened LedgerProjection
  import opened PlanLaws
  import opened RecoveryPlan
  import ChainRuns
  import ChainSteps
  import History

  /** What the host reports about one session's receipt file. */
  datatype ReceiptFile = Broken | Readable(receipt: Receipt, host: Host, applied: bool)

  /** What the host reports about its usage journal. */
  datatype Journal = NotPrefetched | Unusable | Found(saved: Option<Saved>, observed: Option<real>)

  datatype Candidate = Candidate(live: bool, validId: bool, receipt: Option<ReceiptFile>, journal: Journal)

  /** A receipt's totals come from a JSON object, whose keys are distinct. */
  predicate DistinctFile(file: ReceiptFile) {
    file.Readable? && file.receipt.totals.Some? ==> DistinctKeys(file.receipt.totals.value)
  }

  predicate WellFormedFile(c: Candidate) {
    c.receipt.Some? ==> DistinctFile(c.receipt.value)
  }

  datatype Outcome = Untouched | Planned | Failed

  // -------------------------------------------------------------- estimates

  /** The provider on which an estimate records its baseline. */
  function ProviderOf(s: Session, current: Session, saved: Option<Saved>): Option<string> {
    var named :=
      if s.resume.Some? && s.resume.value != "" then s.resume
      else if saved.Some? then saved.value.provider else None;
    var p :=
      if named.Some? && named.value != "" then named
      else if |current.lowerTotals.Keys| == 1 then Some(OnlyKey(current.lowerTotals)) else None;
    if p.Some? && p.value != "" && p.value != "unknown" then p else None
  }

  function OnlyKey(totals: Totals): (p: string)
    requires |totals.Keys| == 1
    ensures p in totals
  {
    assert totals.Keys != {};
    OnlyMember(totals.Keys);
    var only :| only in totals.Keys;
    only
  }

  lemma OnlyMember(keys: set<string>)
    requires |keys| == 1
    ensures forall p, q :: p in keys && q in keys ==> p == q
  {
    forall p, q | p in keys && q in keys ensures p == q {
      var rest := keys - {p};
      assert |rest| == 0;
      assert rest == {};
    }
  }

  /** What is certain of a session's cost. */
  function Floor(current: Session, saved: Option<Saved>): (floor: real)
    ensures floor >= Cost(current) && floor >= current.lowerCost.GetOr(0.0)
    ensures saved.Some? ==> floor >= saved.value.cost
  {
    Max(Max(Cost(current), current.lowerCost.GetOr(0.0)), if saved.Some? then saved.value.cost else 0.0)
  }

  /** Settles a stopped session by an estimate that is at least its known prefix. */
  function EstimateOf(s: Session, current: Session, prior: seq<Session>, saved: Option<Saved>,
                      guess: (real, Provenance), finish: Option<real>, noted: bool): seq<Event> {
    var floor := Floor(current, saved);
    var priced := saved.Some? && saved.value.complete;
    var cost := Max(floor, if priced then floor else guess.0);
    Undo(current)
    + [Settle(current.id, cost, "recovered stopped usage estimate",
              EstimatedTotals(prior, ProviderOf(s, current, saved), cost),
              Some(if priced then TokenPriced else guess.1), Stated(finish), noted)]
  }

  // -------------------------------------------------------------- invariants

  /** Spending is the sum of the costs. */
  predicate Reconciled(st: State) {
    UniqueIds(st.sessions) && st.spent == TotalCost(st.sessions)
  }

  lemma StaysReconciled(st: State, events: seq<Event>, stamp: real)
    requires Reconciled(st) && HonestAll(st, events, stamp)
    ensures ApplyAll(st, events, stamp).Some? && Reconciled(ApplyAll(st, events, stamp).value)
  {
    HonestAllApplies(st, events, Fund(st.rate, st.watermark, st.balance + st.spent, 0.0), stamp);
  }

  /** Events that may be planned: honest ones that mean the same at any time. */
  ghost predicate Plannable(st: State, events: seq<Event>, stamp: real) {
    && OfSessions(events, st.sessions)
    && HonestAll(st, DatedAll(events, st.sessions), stamp)
    && TimelessAll(DatedAll(events, st.sessions))
  }

  lemma ReceiptPlannable(st: State, r: Receipt, host: Host, t: Ticks)
    requires UniqueIds(st.sessions) && (r.totals.Some? ==> DistinctKeys(r.totals.value))
    requires ReceiptTx(st, r, host, t).Append?
    ensures Plannable(st, ReceiptTx(st, r, host, t).events, t.stamp)
  {
    var events := ReceiptTx(st, r, host, t).events;
    ReceiptHonest(st, r, host, t);
    ReceiptSettlesLast(st, r, host, t);
    DatedHonest(st, events, st.sessions, t.stamp);
    DatedTimeless(events, st.sessions);
  }

  lemma EstimatePlannable(st: State, k: nat, s: Session, saved: Option<Saved>, guess: (real, Provenance),
                          finish: Option<real>, noted: bool, stamp: real)
    requires UniqueIds(st.sessions) && k < |st.sessions| && st.sessions[k].status != Settled
    requires guess.1 != NativeReported
    ensures Plannable(st, EstimateOf(s, st.sessions[k], st.sessions[..k], saved, guess, finish, noted), stamp)
  {
    var current := st.sessions[k];
    var events := EstimateOf(s, current, st.sessions[..k], saved, guess, finish, noted);
    IndexOfUnique(st.sessions, k);
    SettleHonest(st, current.id, Cost(current) != 0.0, events[|events| - 1], stamp);
    assert DatedAll(events, st.sessions) == events;
  }

  /** The plan so far: reached from the state before by its events, reconciled, and
      with the same sessions in the same places. */
  ghost predicate Consistent(before: State, events: seq<Event>, st: State) {
    && Leads(before, events, st)
    && Reconciled(st)
    && |st.sessions| == |before.sessions|
    && forall i :: 0 <= i < |st.sessions| ==> st.sessions[i].id == before.sessions[i].id
  }

  /** The private state after these events were appended to it. */
  function Replanned(st: State, more: seq<Event>, stamp: real): State {
    ApplyRecord(st, Record(st.number + 1, stamp, DatedAll(more, st.sessions))).GetOr(st)
  }

  /** Spending is still the sum of the costs, and the same sessions are in the same places. */
  predicate Follows(st: State, next: State) {
    && Reconciled(next)
    && |next.sessions| == |st.sessions|
    && forall i :: 0 <= i < |st.sessions| ==> next.sessions[i].id == st.sessions[i].id
  }

  lemma ReplannedFollows(st: State, more: seq<Event>, stamp: real)
    requires Reconciled(st) && Plannable(st, more, stamp)
    ensures ApplyRecord(st, Record(st.number + 1, stamp, DatedAll(more, st.sessions)))
         == Some(Replanned(st, more, stamp))
    ensures Follows(st, Replanned(st, more, stamp))
    ensures KeepsSettled(st.sessions, Replanned(st, more, stamp).sessions)
  {
    var dated := DatedAll(more, st.sessions);
    var begun := st.(number := st.number + 1);
    HonestNumber(st, dated, stamp, st.number + 1);
    StaysReconciled(begun, dated, stamp);
    DatedNames(more, st.sessions);
    SessionsStay(begun, dated, stamp);
    SettledStays(begun, dated, stamp);
  }

  lemma StillConsistent(before: State, events: seq<Event>, st: State, more: seq<Event>, stamp: real)
    requires Consistent(before, events, st) && Plannable(st, more, stamp)
    ensures Consistent(before, events + WithoutAccruals(DatedAll(more, st.sessions)), Replanned(st, more, stamp))
  {
    var dated := DatedAll(more, st.sessions);
    ReplannedFollows(st, more, stamp);
    AccrualsAside(dated);
    LeadsFurther(before, events, st.(number := st.number + 1), dated, stamp, Replanned(st, more, stamp));
  }

  /** A settled session stays settled, whatever is corrected later. */
  predicate KeepsSettled(before: seq<Session>, after: seq<Session>) {
    && |before| == |after|
    && forall i :: 0 <= i < |before| && before[i].status == Settled ==> after[i].status == Settled
  }

  lemma {:induction false} SettledStays(st: State, events: seq<Event>, stamp: real)
    requires UniqueIds(st.sessions) && OfSessions(events, st.sessions) && HonestAll(st, events, stamp)
    requires ApplyAll(st, events, stamp).Some?
    ensures KeepsSettled(st.sessions, ApplyAll(st, events, stamp).value.sessions)
    decreases |events|
  {
    if events != [] {
      var next := Apply(st, events[0], stamp).value;
      if !events[0].Accrue? {
        AppliedOne(ScalarsOf(st), st.sessions, events[0], stamp);
        KeepsId(Get(st.sessions, events[0].id), events[0], stamp);
        var k := IndexOf(st.sessions, events[0].id);
        assert next.sessions == st.sessions[k := Updated(st.sessions[k], events[0], stamp)];
      }
      SameIds(st.sessions, next.sessions);
      SettledStays(next, events[1..], stamp);
    }
  }

  lemma {:induction false} SessionsStay(st: State, events: seq<Event>, stamp: real)
    requires UniqueIds(st.sessions) && OfSessions(events, st.sessions) && ApplyAll(st, events, stamp).Some?
    ensures var out := ApplyAll(st, events, stamp).value.sessions;
            |out| == |st.sessions| && forall i :: 0 <= i < |out| ==> out[i].id == st.sessions[i].id
    decreases |events|
  {
    if events != [] {
      var next := Apply(st, events[0], stamp).value;
      if !events[0].Accrue? {
        AppliedOne(ScalarsOf(st), st.sessions, events[0], stamp);
        KeepsId(Get(st.sessions, events[0].id), events[0], stamp);
        var k := IndexOf(st.sessions, events[0].id);
        assert next.sessions == st.sessions[k := Updated(st.sessions[k], events[0], stamp)];
      }
      SameIds(st.sessions, next.sessions);
      SessionsStay(next, events[1..], stamp);
    }
  }

  // ------------------------------------------------------------- candidates

  /** No session of a live invocation differs from what the ledger says. */
  predicate LiveUntouched(before: seq<Session>, now: seq<Session>, inputs: seq<Candidate>) {
    |before| == |now| == |inputs| && forall i :: 0 <= i < |inputs| && inputs[i].live ==> now[i] == before[i]
  }

  /** A live session differs from what the ledger says. */
  predicate TouchesLive(before: seq<Session>, now: seq<Session>, inputs: seq<Candidate>) {
    exists i :: 0 <= i < |inputs| && i < |before| && i < |now| && inputs[i].live && now[i] != before[i]
  }

  /** The plan after the receipt of session s was tried; an unusable one leaves it. */
  function Received(st: State, s: Session, file: ReceiptFile, t: Ticks): (next: State)
    requires Reconciled(st) && DistinctFile(file)
    ensures Follows(st, next) && KeepsSettled(st.sessions, next.sessions)
  {
    if file.Broken? || file.receipt.id != s.id then st
    else
      var tx := ReceiptTx(st, file.receipt, file.host, t);
      if tx.Append? then
        ReceiptPlannable(st, file.receipt, file.host, t);
        ReplannedFollows(st, tx.events, t.stamp);
        Replanned(st, tx.events, t.stamp)
      else st
  }

  /** What the journal of session s adds to the plan when the session is still open;
      None when it has to be read again. */
  function EstimateFor(st: State, s: Session, k: nat, journal: Journal, vague: set<string>, noted: bool, t: Ticks)
    : Option<seq<Event>>
    requires k < |st.sessions|
  {
    if !journal.Found? then None
    else
      var span := History.Interval(s, t.now, if journal.saved.Some? then journal.observed else None);
      var finish := if span.Some? then Some(span.value.finish) else None;
      Some(EstimateOf(s, st.sessions[k], st.sessions[..k], journal.saved,
                      History.Guess(s, st.sessions, t.now, span, vague), finish, noted))
  }

  /** The plan after a session that is still open was settled by an estimate; None when
      its journal cannot be used. */
  function Appraised(st: State, s: Session, k: nat, journal: Journal, vague: set<string>, noted: bool, t: Ticks)
    : (next: Option<State>)
    requires Reconciled(st) && k < |st.sessions|
    ensures next.Some? ==> Follows(st, next.value) && KeepsSettled(st.sessions, next.value.sessions)
    ensures next.Some? ==> next.value.sessions[k].status == Settled
  {
    if st.sessions[k].status == Settled then Some(st)
    else
      var more := EstimateFor(st, s, k, journal, vague, noted, t);
      if more.None? then None
      else
        AppraisedEffect(st, s, k, journal, vague, noted, t);
        Some(Replanned(st, more.value, t.stamp))
  }

  /** The plan after receipt and journal of a candidate were tried. */
  function Tried(st: State, s: Session, k: nat, c: Candidate, vague: set<string>, noted: bool, t: Ticks)
    : (next: Option<State>)
    requires Reconciled(st) && k < |st.sessions| && WellFormedFile(c)
    ensures next.Some? ==> Follows(st, next.value) && KeepsSettled(st.sessions, next.value.sessions)
    ensures next.Some? ==> next.value.sessions[k].status == Settled
  {
    Appraised(if s.bridge.Some? && c.receipt.Some? then Received(st, s, c.receipt.value, t) else st,
              s, k, c.journal, vague, noted, t)
  }

  /** The candidate is alive, or its settlement is not open to another receipt. */
  predicate LeftAlone(s: Session, c: Candidate) {
    c.live || (s.status == Settled && (!Estimated(s.provenance) || s.bridge.None? || c.receipt.None?))
  }

  /** The receipt replaced the estimate of this session in an earlier recovery. */
  predicate AppliedBefore(s: Session, file: ReceiptFile) {
    file.Readable? && file.receipt.id == s.id && s.status == Settled && file.applied
  }

  /** What becomes of a candidate that may be planned. */
  function Attempted(before: State, st: State, k: nat, inputs: seq<Candidate>, vague: set<string>, noted: bool,
                     t: Ticks): (r: (Outcome, State))
    requires Reconciled(st) && LiveUntouched(before.sessions, st.sessions, inputs)
    requires k < |inputs| && WellFormedFile(inputs[k])
    ensures Follows(st, r.1) && KeepsSettled(st.sessions, r.1.sessions)
    ensures LiveUntouched(before.sessions, r.1.sessions, inputs)
    ensures r.0 == Planned ==> r.1.sessions[k].status == Settled
  {
    match Tried(st, before.sessions[k], k, inputs[k], vague, noted, t)
    case None => (Failed, st)
    case Some(next) => if TouchesLive(before.sessions, next.sessions, inputs) then (Failed, st) else (Planned, next)
  }

  /** What becomes of one candidate, and the plan that it leaves. */
  function Considered(before: State, st: State, k: nat, inputs: seq<Candidate>, vague: set<string>, noted: bool,
                      t: Ticks): (r: (Outcome, State))
    requires Reconciled(st) && LiveUntouched(before.sessions, st.sessions, inputs)
    requires k < |inputs| && WellFormedFile(inputs[k])
    ensures Follows(st, r.1) && KeepsSettled(st.sessions, r.1.sessions)
    ensures LiveUntouched(before.sessions, r.1.sessions, inputs)
    ensures r.0 == Planned ==> r.1.sessions[k].status == Settled
  {
    var s, c := before.sessions[k], inputs[k];
    if LeftAlone(s, c) then (Untouched, st)
    else if !c.validId || s.archived then (Failed, st)
    else if s.bridge.Some? && c.receipt.Some? && AppliedBefore(s, c.receipt.value) then (Untouched, st)
    else Attempted(before, st, k, inputs, vague, noted, t)
  }

  /** One candidate is planned. */
  predicate Turn(before: State, st: State, k: nat, inputs: seq<Candidate>, vague: set<string>, noted: bool, t: Ticks,
                 outcome: Outcome, next: State) {
    && k < |inputs| && WellFormedFile(inputs[k])
    && Reconciled(st) && LiveUntouched(before.sessions, st.sessions, inputs)
    && (outcome, next) == Considered(before, st, k, inputs, vague, noted, t)
  }

  /** The k-th candidate leads from the k-th draft of the plan to the next. */
  predicate TurnAt(before: State, inputs: seq<Candidate>, vague: set<string>, noted: bool, t: Ticks,
                   drafts: seq<State>, outcomes: seq<Outcome>, k: nat) {
    && k < |outcomes| && k + 1 < |drafts|
    && Turn(before, drafts[k], k, inputs, vague, noted, t, outcomes[k], drafts[k + 1])
  }

  /** All candidates are planned in admission order, from one draft to the next. */
  predicate Planning(before: State, inputs: seq<Candidate>, vague: set<string>, noted: bool, t: Ticks,
                     drafts: seq<State>, outcomes: seq<Outcome>) {
    && |drafts| == |outcomes| + 1 && |outcomes| <= |inputs| && drafts[0] == before
    && (forall k :: 0 <= k < |drafts| ==> |drafts[k].sessions| == |inputs|)
    && (forall k: nat :: k < |outcomes| ==> TurnAt(before, inputs, vague, noted, t, drafts, outcomes, k))
  }

  lemma TurnSettles(before: State, st: State, k: nat, inputs: seq<Candidate>, vague: set<string>, noted: bool,
                    t: Ticks, outcome: Outcome, next: State)
    requires Turn(before, st, k, inputs, vague, noted, t, outcome, next)
    ensures Follows(st, next) && KeepsSettled(st.sessions, next.sessions) && |st.sessions| == |inputs|
    ensures outcome == Planned ==> next.sessions[k].status == Settled
  {
  }

  lemma PlanningNext(before: State, inputs: seq<Candidate>, vague: set<string>, noted: bool, t: Ticks,
                     drafts: seq<State>, outcomes: seq<Outcome>, outcome: Outcome, next: State)
    requires Planning(before, inputs, vague, noted, t, drafts, outcomes) && |outcomes| < |inputs|
    requires Turn(before, drafts[|outcomes|], |outcomes|, inputs, vague, noted, t, outcome, next)
    ensures Planning(before, inputs, vague, noted, t, drafts + [next], outcomes + [outcome])
  {
    var ds, os := drafts + [next], outcomes + [outcome];
    TurnSettles(before, drafts[|outcomes|], |outcomes|, inputs, vague, noted, t, outcome, next);
    forall k: nat | k < |os| ensures TurnAt(before, inputs, vague, noted, t, ds, os, k) {
      if k < |outcomes| {
        TurnStays(before, inputs, vague, noted, t, drafts, outcomes, outcome, next, k);
      }
    }
  }

  lemma TurnStays(before: State, inputs: seq<Candidate>, vague: set<string>, noted: bool, t: Ticks,
                  drafts: seq<State>, outcomes: seq<Outcome>, outcome: Outcome, next: State, k: nat)
    requires TurnAt(before, inputs, vague, noted, t, drafts, outcomes, k)
    ensures TurnAt(before, inputs, vague, noted, t, drafts + [next], outcomes + [outcome], k)
  {
  }

  /** What was planned stays settled. */
  lemma {:induction false} PlanSettles(before: State, inputs: seq<Candidate>, vague: set<string>, noted: bool, t: Ticks,
                                       drafts: seq<State>, outcomes: seq<Outcome>, i: nat, n: nat)
    requires Planning(before, inputs, vague, noted, t, drafts, outcomes) && i < n <= |outcomes|
    ensures |drafts[n].sessions| == |inputs|
    ensures outcomes[i] == Planned ==> drafts[n].sessions[i].status == Settled
    decreases n
  {
    assert TurnAt(before, inputs, vague, noted, t, drafts, outcomes, n - 1);
    TurnSettles(before, drafts[n - 1], n - 1, inputs, vague, noted, t, outcomes[n - 1], drafts[n]);
    if i < n - 1 {
      PlanSettles(before, inputs, vague, noted, t, drafts, outcomes, i, n - 1);
    }
  }

  /** Adds events to the plan. */
  method Replan(plan: Plan, more: seq<Event>, ghost before: State, t: Ticks)
    requires plan.Valid() && Consistent(before, plan.events, plan.View()) && Plannable(plan.View(), more, t.stamp)
    modifies plan
    ensures plan.Valid() && Consistent(before, plan.events, plan.View())
    ensures old(plan.events) <= plan.events
    ensures plan.View() == Replanned(old(plan.View()), more, t.stamp)
  {
    ghost var st, events := plan.View(), plan.events;
    plan.Append(more, t.stamp);
    assert plan.View() == Replanned(st, more, t.stamp);
    StillConsistent(before, events, st, more, t.stamp);
  }

  /** Tries the receipt of a candidate; an unusable one leaves the plan. */
  method TryReceipt(plan: Plan, s: Session, file: ReceiptFile, ghost before: State, t: Ticks)
    requires plan.Valid() && Consistent(before, plan.events, plan.View()) && DistinctFile(file)
    modifies plan
    ensures plan.Valid() && Consistent(before, plan.events, plan.View())
    ensures old(plan.events) <= plan.events
    ensures plan.View() == Received(old(plan.View()), s, file, t)
  {
    if file.Broken? || file.receipt.id != s.id {
      return;
    }
    var tx := ReceiptTx(plan.View(), file.receipt, file.host, t);
    if tx.Append? {
      ReceiptPlannable(plan.View(), file.receipt, file.host, t);
      Replan(plan, tx.events, before, t);
    }
  }

  /** An estimate settles its own session only: at what is certain, or at the guess when
      the journal is incomplete and the guess is more. */
  lemma EstimateEffect(st: State, k: nat, s: Session, saved: Option<Saved>, guess: (real, Provenance),
                       finish: Option<real>, noted: bool, stamp: real)
    requires Reconciled(st) && k < |st.sessions| && st.sessions[k].status != Settled && guess.1 != NativeReported
    ensures var more := EstimateOf(s, st.sessions[k], st.sessions[..k], saved, guess, finish, noted);
            var next := Replanned(st, more, stamp);
            && Follows(st, next) && KeepsSettled(st.sessions, next.sessions)
            && next.sessions[k].status == Settled
            && Appraises(Cost(next.sessions[k]), next.sessions[k].provenance, Floor(st.sessions[k], saved), saved,
                         guess)
            && next.sessions[k].totals
               == EstimatedTotals(st.sessions[..k], ProviderOf(s, st.sessions[k], saved), Cost(next.sessions[k]))
            && forall m :: 0 <= m < |st.sessions| && m != k ==> next.sessions[m] == st.sessions[m]
  {
    var current := st.sessions[k];
    var events := EstimateOf(s, current, st.sessions[..k], saved, guess, finish, noted);
    EstimatePlannable(st, k, s, saved, guess, finish, noted, stamp);
    ReplannedFollows(st, events, stamp);
    assert DatedAll(events, st.sessions) == events;
    ChainRuns.SettleEffect(st.(number := st.number + 1), k, Cost(current) != 0.0, events[|events| - 1], stamp);
  }

  /** The least charge that is certain and, unless the journal is complete, guessed. */
  predicate Appraises(cost: real, provenance: Option<Provenance>, floor: real, saved: Option<Saved>,
                      guess: (real, Provenance)) {
    if saved.Some? && saved.value.complete then cost == floor && provenance == Some(TokenPriced)
    else cost >= floor && cost >= guess.0 && (cost == floor || cost == guess.0) && provenance == Some(guess.1)
  }

  lemma AppraisedEffect(st: State, s: Session, k: nat, journal: Journal, vague: set<string>, noted: bool, t: Ticks)
    requires Reconciled(st) && k < |st.sessions| && st.sessions[k].status != Settled && journal.Found?
    ensures var next := Replanned(st, EstimateFor(st, s, k, journal, vague, noted, t).value, t.stamp);
            var span := History.Interval(s, t.now, if journal.saved.Some? then journal.observed else None);
            && Follows(st, next) && KeepsSettled(st.sessions, next.sessions)
            && next.sessions[k].status == Settled
            && Appraises(Cost(next.sessions[k]), next.sessions[k].provenance, Floor(st.sessions[k], journal.saved),
                         journal.saved, History.Guess(s, st.sessions, t.now, span, vague))
            && next.sessions[k].totals == EstimatedTotals(st.sessions[..k],
                                                          ProviderOf(s, st.sessions[k], journal.saved),
                                                          Cost(next.sessions[k]))
            && forall m :: 0 <= m < |st.sessions| && m != k ==> next.sessions[m] == st.sessions[m]
  {
    var span := History.Interval(s, t.now, if journal.saved.Some? then journal.observed else None);
    var finish := if span.Some? then Some(span.value.finish) else None;
    EstimateEffect(st, k, s, journal.saved, History.Guess(s, st.sessions, t.now, span, vague), finish, noted, t.stamp);
  }

  /** Settles a candidate that is still open by an estimate; false when its journal
      cannot be used. */
  method TryEstimate(plan: Plan, s: Session, k: nat, journal: Journal, vague: set<string>, noted: bool,
                     ghost before: State, t: Ticks) returns (ok: bool)
    requires plan.Valid() && Consistent(before, plan.events, plan.View()) && k < |plan.cells|
    modifies plan
    ensures plan.Valid() && Consistent(before, plan.events, plan.View())
    ensures old(plan.events) <= plan.events
    ensures !ok ==> plan.View() == old(plan.View()) && plan.events == old(plan.events)
    ensures Appraised(old(plan.View()), s, k, journal, vague, noted, t)
         == if ok then Some(plan.View()) else None
  {
    var current := plan.cells[k].session;
    if current.status == Settled {
      return true;
    }
    if !journal.Found? {
      return false;
    }
    var span := History.Interval(s, t.now, if journal.saved.Some? then journal.observed else None);
    var guess := History.Guess(s, plan.Sessions(), t.now, span, vague);
    var finish := if span.Some? then Some(span.value.finish) else None;
    var more := EstimateOf(s, current, plan.Sessions()[..k], journal.saved, guess, finish, noted);
    EstimatePlannable(plan.View(), k, s, journal.saved, guess, finish, noted, t.stamp);
    Replan(plan, more, before, t);
    return true;
  }

  /** Tries the receipt and then an estimate; false when the journal was needed and could
      not be used. */
  method Try(plan: Plan, s: Session, k: nat, c: Candidate, vague: set<string>, noted: bool, ghost before: State,
             t: Ticks) returns (ok: bool)
    requires plan.Valid() && Consistent(before, plan.events, plan.View()) && k < |plan.cells| && WellFormedFile(c)
    modifies plan
    ensures plan.Valid() && Consistent(before, plan.events, plan.View())
    ensures old(plan.events) <= plan.events
    ensures ok == Tried(old(plan.View()), s, k, c, vague, noted, t).Some?
    ensures ok ==> Tried(old(plan.View()), s, k, c, vague, noted, t) == Some(plan.View())
  {
    if s.bridge.Some? && c.receipt.Some? {
      TryReceipt(plan, s, c.receipt.value, before, t);
    }
    ok := TryEstimate(plan, s, k, c.journal, vague, noted, before, t);
  }

  /** Takes a snapshot back; its cells were never written. */
  method TakeBack(plan: Plan, scalars: Scalars, cells: seq<Cell>, count: nat, ghost view: State,
                  ghost events: seq<Event>)
    requires StateOf(scalars, Values(cells)) == view && Distinct(cells) && UniqueIds(view.sessions)
    requires events <= plan.events && count == |events|
    modifies plan
    ensures plan.Valid() && plan.View() == view && plan.events == events
  {
    plan.scalars, plan.cells, plan.events := scalars, cells, plan.events[..count];
  }

  /** Tries a candidate; when that fails the plan is exactly what it was before. */
  method Attempt(plan: Plan, before: State, k: nat, inputs: seq<Candidate>, vague: set<string>, noted: bool, t: Ticks)
    returns (outcome: Outcome)
    requires plan.Valid() && Consistent(before, plan.events, plan.View()) && k < |before.sessions|
    requires LiveUntouched(before.sessions, plan.Sessions(), inputs) && WellFormedFile(inputs[k])
    modifies plan
    ensures plan.Valid() && Consistent(before, plan.events, plan.View())
    ensures (outcome, plan.View()) == Attempted(before, old(plan.View()), k, inputs, vague, noted, t)
    ensures outcome != Planned ==> plan.events == old(plan.events)
  {
    var scalars, cells, count := plan.scalars, plan.cells, |plan.events|;
    ghost var view, events := plan.View(), plan.events;
    var ok := Try(plan, before.sessions[k], k, inputs[k], vague, noted, before, t);
    if ok && !TouchesLive(before.sessions, plan.Sessions(), inputs) {
      return Planned;
    }
    TakeBack(plan, scalars, cells, count, view, events);
    return Failed;
  }

  /** Plans one candidate. */
  method Consider(plan: Plan, before: State, k: nat, inputs: seq<Candidate>, vague: set<string>, noted: bool, t: Ticks)
    returns (outcome: Outcome)
    requires plan.Valid() && Consistent(before, plan.events, plan.View()) && k < |before.sessions|
    requires LiveUntouched(before.sessions, plan.Sessions(), inputs) && WellFormedFile(inputs[k])
    modifies plan
    ensures plan.Valid() && Consistent(before, plan.events, plan.View())
    ensures Turn(before, old(plan.View()), k, inputs, vague, noted, t, outcome, plan.View())
    ensures LiveUntouched(before.sessions, plan.Sessions(), inputs)
    ensures outcome != Planned ==> plan.View() == old(plan.View()) && plan.events == old(plan.events)
  {
    var s, c := before.sessions[k], inputs[k];
    if c.live || (s.status == Settled && (!Estimated(s.provenance) || s.bridge.None? || c.receipt.None?)) {
      return Untouched;
    }
    if !c.validId || s.archived {
      return Failed;
    }
    if s.bridge.Some? && c.receipt.Some? && AppliedBefore(s, c.receipt.value) {
      return Untouched;
    }
    outcome := Attempt(plan, before, k, inputs, vague, noted, t);
  }

  // ------------------------------------------------------------------ totals

  /** What each row of the manifest says the plan adds to its session's charge. */
  function Deltas(before: seq<Session>, after: seq<Session>): (ds: seq<real>)
    requires |before| == |after|
    ensures |ds| == |before|
    ensures forall i :: 0 <= i < |ds| ==> ds[i] == Cost(after[i]) - Cost(before[i])
  {
    seq(|before|, i requires 0 <= i < |before| => Cost(after[i]) - Cost(before[i]))
  }

  function Released(before: seq<Session>, after: seq<Session>): (ds: seq<real>)
    requires |before| == |after|
    ensures |ds| == |before|
    ensures forall i :: 0 <= i < |ds| ==> ds[i] == Pending(before[i]) - Pending(after[i])
  {
    seq(|before|, i requires 0 <= i < |before| => Pending(before[i]) - Pending(after[i]))
  }

  /** The rows add up to the changes of the totals. */
  lemma {:induction false} RowsAddUp(before: seq<Session>, after: seq<Session>)
    requires |before| == |after|
    ensures Sum(Deltas(before, after)) == TotalCost(after) - TotalCost(before)
    ensures Sum(Released(before, after)) == TotalPending(before) - TotalPending(after)
    decreases |before|
  {
    if before != [] {
      var n := |before| - 1;
      RowsAddUp(before[..n], after[..n]);
      assert Deltas(before, after)[..n] == Deltas(before[..n], after[..n]);
      assert Released(before, after)[..n] == Released(before[..n], after[..n]);
    }
  }

  // ------------------------------------------------------------------ commit

  datatype Manifest = Manifest(
    outcomes: seq<Outcome>,
    deltas: seq<real>,
    released: seq<real>,
    planned: State)

  /** Nothing about the inputs stands in the way of planning. */
  predicate Inputs(before: State, inputs: seq<Candidate>) {
    && Reconciled(before)
    && |inputs| == |before.sessions|
    && forall i :: 0 <= i < |inputs| ==> WellFormedFile(inputs[i])
  }

  /** Plans all sessions, in admission order, against private state. */
  method PlanAll(before: State, inputs: seq<Candidate>, vague: set<string>, noted: bool, t: Ticks)
    returns (planned: State, events: seq<Event>, outcomes: seq<Outcome>, ghost drafts: seq<State>)
    requires Inputs(before, inputs)
    ensures Planning(before, inputs, vague, noted, t, drafts, outcomes) && |outcomes| == |inputs|
    ensures planned == drafts[|inputs|]
    ensures Leads(before, events, planned) && Reconciled(planned)
    ensures LiveUntouched(before.sessions, planned.sessions, inputs)
  {
    var plan := new Plan(before);
    outcomes, drafts := [], [before];
    for k := 0 to |before.sessions|
      invariant fresh(plan) && plan.Valid() && |outcomes| == k
      invariant Consistent(before, plan.events, plan.View())
      invariant LiveUntouched(before.sessions, plan.Sessions(), inputs)
      invariant Planning(before, inputs, vague, noted, t, drafts, outcomes) && drafts[k] == plan.View()
    {
      var outcome := Consider(plan, before, k, inputs, vague, noted, t);
      PlanningNext(before, inputs, vague, noted, t, drafts, outcomes, outcome, plan.View());
      outcomes, drafts := outcomes + [outcome], drafts + [plan.View()];
    }
    planned, events := plan.View(), plan.events;
  }

  /** Plans all sessions, and commits the plan as one transaction. `stopped` is the
      recheck, just before the commit, that no changed session came alive again. */
  method Recover(ledger: seq<Record>, inputs: seq<Candidate>, vague: set<string>, noted: bool, dryRun: bool,
                 stopped: bool, t: Ticks, late: Ticks)
    returns (result: Option<Manifest>, written: seq<Record>, ghost drafts: seq<State>)
    requires Replay(ledger).Some? ==> Inputs(Replay(ledger).value, inputs)
    ensures result.None? <==> Replay(ledger).None?
    ensures result.None? ==> written == ledger
    ensures result.Some? ==>
              && Planning(Replay(ledger).value, inputs, vague, noted, t, drafts, result.value.outcomes)
              && |drafts| == |inputs| + 1 && result.value.planned == drafts[|inputs|]
    ensures result.Some? ==> Accounted(Replay(ledger).value, result.value, inputs)
    ensures result.Some? && (dryRun || !stopped) ==> written == ledger
    ensures result.Some? && !dryRun && stopped ==>
              && (written == ledger || (|written| == |ledger| + 1 && written[..|ledger|] == ledger))
              && Replay(written).Some?
              && SameBooks(result.value.planned, Replay(written).value)
    ensures Sound(ledger) ==> Sound(written)
  {
    var replayed := Replay(ledger);
    if replayed.None? {
      return None, ledger, [];
    }
    var before := replayed.value;
    var manifest, events, trace := Manifested(before, inputs, vague, noted, t);
    result, written, drafts := Some(manifest), ledger, trace;
    if !dryRun && stopped {
      written := Commit(ledger, before, events, manifest.planned, late);
    }
  }

  /** The plan with the rows that account for it. */
  method Manifested(before: State, inputs: seq<Candidate>, vague: set<string>, noted: bool, t: Ticks)
    returns (manifest: Manifest, events: seq<Event>, ghost drafts: seq<State>)
    requires Inputs(before, inputs)
    ensures Accounted(before, manifest, inputs)
    ensures Planning(before, inputs, vague, noted, t, drafts, manifest.outcomes)
    ensures |drafts| == |inputs| + 1 && manifest.planned == drafts[|inputs|]
    ensures Leads(before, events, manifest.planned) && Reconciled(manifest.planned)
  {
    var planned, collected, outcomes, trace := PlanAll(before, inputs, vague, noted, t);
    events, drafts := collected, trace;
    RowsAddUp(before.sessions, planned.sessions);
    AllSettled(before, inputs, vague, noted, t, drafts, outcomes);
    manifest := Manifest(outcomes, Deltas(before.sessions, planned.sessions),
                         Released(before.sessions, planned.sessions), planned);
  }

  /** Writes the collected events as one transaction, unless there are none. */
  method Commit(ledger: seq<Record>, before: State, events: seq<Event>, ghost planned: State, late: Ticks)
    returns (written: seq<Record>)
    requires Replay(ledger) == Some(before) && Leads(before, events, planned) && Reconciled(planned)
    ensures written == ledger || (|written| == |ledger| + 1 && written[..|ledger|] == ledger)
    ensures Replay(written).Some? && SameBooks(planned, Replay(written).value)
    ensures Sound(ledger) ==> Sound(written)
  {
    if events == [] {
      assert ApplyAll(before, events, late.stamp) == Some(before);
      return ledger;
    }
    written := ledger + [RecordOf(before, [AccrueEvent(before, late.accrual)] + events, late)];
    Committed(ledger, before, events, planned, late);
    if Sound(ledger) {
      CommittedSound(ledger, before, events, planned, late);
    }
  }

  lemma AllSettled(before: State, inputs: seq<Candidate>, vague: set<string>, noted: bool, t: Ticks,
                   drafts: seq<State>, outcomes: seq<Outcome>)
    requires Planning(before, inputs, vague, noted, t, drafts, outcomes) && |outcomes| == |inputs|
    requires LiveUntouched(before.sessions, drafts[|inputs|].sessions, inputs)
    ensures forall i :: 0 <= i < |inputs| && outcomes[i] == Planned ==>
              drafts[|inputs|].sessions[i].status == Settled
  {
    forall i | 0 <= i < |inputs| && outcomes[i] == Planned
      ensures drafts[|inputs|].sessions[i].status == Settled
    {
      PlanSettles(before, inputs, vague, noted, t, drafts, outcomes, i, |inputs|);
    }
  }

  /** The manifest accounts for every change: live sessions have none, the rows add up
      to the changes of the totals, and what was planned is settled. */
  ghost predicate Accounted(before: State, m: Manifest, inputs: seq<Candidate>) {
    && LiveUntouched(before.sessions, m.planned.sessions, inputs)
    && m.deltas == Deltas(before.sessions, m.planned.sessions)
    && Sum(m.deltas) == m.planned.spent - before.spent
    && Sum(m.released) == TotalPending(before.sessions) - TotalPending(m.planned.sessions)
    && |m.outcomes| == |inputs|
    && forall i :: 0 <= i < |inputs| && m.outcomes[i] == Planned ==> m.planned.sessions[i].status == Settled
  }

  /** One transaction of the collected events reproduces the planned books. */
  lemma Committed(ledger: seq<Record>, before: State, events: seq<Event>, planned: State, late: Ticks)
    requires Replay(ledger) == Some(before) && Leads(before, events, planned)
    ensures var rec := RecordOf(before, [AccrueEvent(before, late.accrual)] + events, late);
            Replay(ledger + [rec]).Some? && SameBooks(planned, Replay(ledger + [rec]).value)
  {
    CommitReplays(ledger, before, events, late,
                  RecordOf(before, [AccrueEvent(before, late.accrual)] + events, late));
    ElsewhereSame(before, Accrued(before, late.accrual).(number := before.number + 1), events, late.stamp);
  }

  /** Settlements and corrections only move money between balance and spending. */
  lemma {:induction false} MoneyStays(st: State, events: seq<Event>, f: Fund, stamp: real)
    requires SettlementsOnly(events) && ApplyAll(st, events, stamp).Some?
    ensures var out := ApplyAll(st, events, stamp).value;
            && out.rate == st.rate && out.watermark == st.watermark
            && out.balance + out.spent == st.balance + st.spent
    ensures FundedAll(f, events) == f
    decreases |events|
  {
    if events != [] {
      MoneyStays(Apply(st, events[0], stamp).value, events[1..], f, stamp);
    }
  }

  lemma SettledBalanced(base: State, events: seq<Event>, f: Fund, stamp: real)
    requires Balanced(base, f) && SettlementsOnly(events) && ApplyAll(base, events, stamp).Some?
    requires ApplyAll(base, events, stamp).value.spent == TotalCost(ApplyAll(base, events, stamp).value.sessions)
    ensures Balanced(ApplyAll(base, events, stamp).value, FundedAll(f, events))
  {
    MoneyStays(base, events, f, stamp);
  }

  lemma AccruedBalanced(st: State, f: Fund, clock: real, n: nat)
    requires Balanced(st, f)
    ensures Balanced(Accrued(st, clock).(number := n), Funded(f, AccrueEvent(st, clock)))
  {
  }

  /** What the committed record puts in, and the state that it leaves. */
  lemma CommitApplies(ledger: seq<Record>, before: State, events: seq<Event>, late: Ticks) returns (rec: Record)
    requires Replay(ledger) == Some(before)
    ensures rec == RecordOf(before, [AccrueEvent(before, late.accrual)] + events, late)
    ensures FundOf(ledger + [rec]) == FundedAll(Funded(FundOf(ledger), AccrueEvent(before, late.accrual)), events)
    ensures Replay(ledger + [rec])
         == ApplyAll(Accrued(before, late.accrual).(number := before.number + 1), events, late.stamp)
  {
    rec := RecordOf(before, [AccrueEvent(before, late.accrual)] + events, late);
    CommitReplays(ledger, before, events, late, rec);
    FundOfAppend(ledger, rec, AccrueEvent(before, late.accrual), events);
  }

  lemma CommitReplays(ledger: seq<Record>, before: State, events: seq<Event>, late: Ticks, rec: Record)
    requires Replay(ledger) == Some(before)
    requires rec == RecordOf(before, [AccrueEvent(before, late.accrual)] + events, late)
    ensures Replay(ledger + [rec])
         == ApplyAll(Accrued(before, late.accrual).(number := before.number + 1), events, late.stamp)
  {
    ReplayAppend(ledger, rec);
    ChainSteps.AfterAccrual(before, events, late);
  }

  lemma FundOfAppend(ledger: seq<Record>, rec: Record, first: Event, rest: seq<Event>)
    requires rec.events == [first] + rest
    ensures FundOf(ledger + [rec]) == FundedAll(Funded(FundOf(ledger), first), rest)
  {
    assert (ledger + [rec])[..|ledger|] == ledger;
    assert ([first] + rest)[1..] == rest;
  }

  /** The committed ledger is sound, so every theorem about runs applies to it. */
  lemma CommittedSound(ledger: seq<Record>, before: State, events: seq<Event>, planned: State, late: Ticks)
    requires Sound(ledger) && Replay(ledger) == Some(before) && Leads(before, events, planned) && Reconciled(planned)
    ensures Sound(ledger + [RecordOf(before, [AccrueEvent(before, late.accrual)] + events, late)])
  {
    var base := Accrued(before, late.accrual).(number := before.number + 1);
    Committed(ledger, before, events, planned, late);
    var rec := CommitApplies(ledger, before, events, late);
    AccruedBalanced(before, FundOf(ledger), late.accrual, before.number + 1);
    SettledBalanced(base, events, Funded(FundOf(ledger), AccrueEvent(before, late.accrual)), late.stamp);
  }

  /** Clocks and funds do not matter to what the events do to the sessions. */
  lemma {:induction false} ElsewhereSame(a: State, b: State, events: seq<Event>, stamp: real)
    requires SameBooks(a, b) && TimelessAll(events) && ApplyAll(a, events, stamp).Some?
    ensures ApplyAll(b, events, stamp).Some?
    ensures SameBooks(ApplyAll(a, events, stamp).value, ApplyAll(b, events, stamp).value)
    decreases |events|
  {
    if events != [] {
      ApplySame(a, b, events[0], stamp, stamp);
      ElsewhereSame(Apply(a, events[0], stamp).value, Apply(b, events[0], stamp).value, events[1..], stamp);
    }
  }
}
