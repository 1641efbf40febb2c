/** The remaining ledger writers, the admission queue, and runs of writers. */
module Writers {
  import opened Wrappers
  import opened Ledger
  import opened Selection
  import opened Receipts

  const WAIT_SECONDS := 120.0

  // ---------------------------------------------------------------- funding

  function ConfigureTx(st: State, grant: Option<real>, target: Option<real>, rate: Option<real>, t: Ticks): Tx {
    if grant.Some? && target.Some? then Refused(InvalidAmount)
    else if grant.Some? && grant.value <= 0.0 then Refused(InvalidAmount)
    else if rate.Some? && rate.value < 0.0 then Refused(InvalidAmount)
    else
      Append([AccrueEvent(st, t.accrual)]
             + ((if grant.Some? then [Grant(grant.value)] else [])
                + (if target.Some? then [Adjust(target.value - Accrued(st, t.accrual).balance)] else [])
                + (if rate.Some? then [SetRate(rate.value)] else [])))
  }

  // -------------------------------------------------------------- settlement

  /** The reversal of a recorded prefix, even one of zero. */
  function Reset(s: Session): seq<Event> {
    if s.cost.Some? then [Correct(s.id, Cost(s), 0.0, None, None, Unstated)] else []
  }

  function SettleTx(st: State, id: string, cost: Option<real>, outcome: string, noted: bool, totals: Totals,
                    provenance: Provenance, finished: Option<real>, t: Ticks): Tx {
    if cost.Some? && cost.value < 0.0 then Refused(InvalidAmount)
    else if !Has(st.sessions, id) then Refused(UnknownInvocation)
    else
      var s := Get(st.sessions, id);
      if s.status == Settled then
        if cost.Some? && Cost(s) != cost.value then Refused(CostConflict) else NoChange
      else if cost.None? then
        Append([AccrueEvent(st, t.accrual), Unresolve(id, false, FinishOf(finished), None)])
      else
        Append([AccrueEvent(st, t.accrual)]
               + (Reset(s) + [Settle(id, cost.value, outcome, totals, Some(provenance), FinishOf(finished), noted)]))
  }

  /** `bridgeAlive`: the session's bridge heartbeat is fresh or its process is alive. */
  function ReconcileTx(st: State, id: string, cost: real, noted: bool, bridgeAlive: bool, t: Ticks): Tx {
    if !noted then Refused(NoteRequired)
    else if cost < 0.0 then Refused(InvalidAmount)
    else if !Has(st.sessions, id) then Refused(UnknownInvocation)
    else
      var s := Get(st.sessions, id);
      if s.status != Settled && s.bridge.Some? && bridgeAlive then Refused(LiveBridge)
      else if s.status != Settled then
        Append([AccrueEvent(st, t.accrual)]
               + (Reset(s) + [Settle(id, cost, "reconciled", map[], None, Unstated, true)]))
      else
        Append([AccrueEvent(st, t.accrual), Correct(id, Cost(s) - cost, cost, None, None, Unstated)])
  }

  function CooldownTx(st: State, model: string, seconds: real, t: Ticks): Tx {
    var before := if model in st.cooldowns then st.cooldowns[model] else 0.0;
    Append([AccrueEvent(st, t.accrual), Cooldown(model, Max(before, t.now + Max(0.0, seconds)))])
  }

  // ------------------------------------------------------------------- queue

  type Queue = map<string, Waiting>

  predicate Fresh(w: Waiting, now: real) {
    now - w.seen < WAIT_SECONDS
  }

  /** The queue file, or without one the waits that the ledger recorded. */
  function QueueOf(st: State, file: Option<Queue>): Queue {
    file.GetOr(st.waiting)
  }

  function Previous(queue: Queue, worker: string, now: real): Option<Waiting> {
    if worker in queue && Fresh(queue[worker], now) then Some(queue[worker]) else None
  }

  /** A fresh wait for funds of this model, including one behind another worker. */
  predicate InLine(w: Waiting, model: string, now: real) {
    Fresh(w, now) && w.reason in {Funding, Behind} && w.model == model
  }

  predicate Before(a: Waiting, b: Waiting) {
    a.since < b.since || (a.since == b.since && a.ticket < b.ticket)
  }

  /** The earliest wait in line, when there is one. */
  ghost predicate IsFirst(queue: Queue, model: string, now: real, worker: string) {
    && worker in queue
    && InLine(queue[worker], model, now)
    && forall other :: other in queue && InLine(queue[other], model, now) && other != worker ==>
         Before(queue[worker], queue[other])
  }

  predicate SomeoneInLine(queue: Queue, model: string, now: real) {
    exists w :: w in queue && InLine(queue[w], model, now)
  }

  /** The first in line is another worker. */
  predicate BehindAnother(queue: Queue, model: string, now: real, worker: string) {
    exists w :: && w in queue && w != worker && InLine(queue[w], model, now)
                && (worker in queue && InLine(queue[worker], model, now) ==> Before(queue[w], queue[worker]))
  }

  /** Every wait is filed under its worker and no two share a place. */
  ghost predicate Orderly(queue: Queue) {
    && (forall w :: w in queue ==> queue[w].worker == w)
    && (forall a, b :: a in queue && b in queue && a != b ==> queue[a].ticket != queue[b].ticket)
  }

  // --------------------------------------------------------------- admission

  datatype Request = Request(
    id: string,
    worker: string,
    model: string,
    phase: string,
    bridge: Option<string>,
    resume: Option<string>,
    ticket: nat)

  datatype Admission = Admission(tx: Tx, queue: Option<Queue>, reason: Option<Reason>)

  /** The session's bridge has disappeared; `dead` holds the sessions whose
      heartbeat is stale and whose owner is not alive. */
  predicate Orphan(s: Session, dead: set<string>) {
    s.status == Active && s.bridge.Some? && s.id in dead
  }

  function Orphans(ss: seq<Session>, dead: set<string>): seq<Event> {
    if ss == [] then []
    else
      var s := ss[|ss| - 1];
      Orphans(ss[..|ss| - 1], dead)
      + (if Orphan(s, dead) then [Unresolve(s.id, false, Unstated, None)] else [])
  }

  predicate Resumes(s: Session, resume: Option<string>) {
    resume.Some? && resume.value != "" && s.resume == resume
  }

  predicate Recorded(ss: seq<Session>, resume: Option<string>) {
    resume.Some? && resume.value != "" ==> exists i :: 0 <= i < |ss| && resume.value in ss[i].totals
  }

  /** Money not held back for sessions that are not settled. */
  function Available(st: State): real {
    st.balance - TotalPending(st.sessions)
  }

  /** A repair marker is not settled yet. */
  predicate NeedsRepair(ss: seq<Session>) {
    exists i :: 0 <= i < |ss| && ss[i].status != Settled && ss[i].archived
  }

  predicate BeingResumed(ss: seq<Session>, resume: Option<string>) {
    exists i :: 0 <= i < |ss| && ss[i].status != Settled && Resumes(ss[i], resume)
  }

  /** Running, with a bridge that has not disappeared. */
  predicate Live(s: Session, dead: set<string>) {
    s.status == Active && !Orphan(s, dead)
  }

  predicate LiveResume(ss: seq<Session>, dead: set<string>, resume: Option<string>) {
    exists i :: 0 <= i < |ss| && Live(ss[i], dead) && Resumes(ss[i], resume)
  }

  predicate LiveModel(ss: seq<Session>, dead: set<string>, model: string) {
    exists i :: 0 <= i < |ss| && Live(ss[i], dead) && ss[i].model == model
  }

  /** Why an admission must wait, in the order in which the reasons are tried. */
  function Obstacle(st: State, queue: Queue, r: Request, dead: set<string>, t: Ticks): Option<Reason> {
    var ss := st.sessions;
    var available := Available(Accrued(st, t.accrual));
    var estimate := Estimate(ss, r.model, Some(r.phase), true);
    if NeedsRepair(ss) then Some(RepairRequired)
    else if BeingResumed(ss, r.resume) then
      if LiveResume(ss, dead, r.resume) then Some(AlreadyResumed) else Some(BaselineUnresolved)
    else if r.model in st.cooldowns && st.cooldowns[r.model] > t.now then Some(Throughput)
    else if CostSample(ss, r.model, Some(r.phase), true) == [] && LiveModel(ss, dead, r.model) then Some(Calibrating)
    else if available <= 0.0 || available < estimate then Some(Funding)
    else if BehindAnother(queue, r.model, t.now, r.worker) then Some(Behind)
    else None
  }

  function WaitOf(queue: Queue, worker: string, model: string, ticket: nat, reason: Reason,
                  estimate: real, now: real): Waiting {
    var previous := Previous(queue, worker, now);
    Waiting(worker, model,
            if previous.Some? then previous.value.ticket else ticket,
            if previous.Some? then previous.value.since else now,
            now, reason, estimate)
  }

  function Admitted(r: Request, estimate: real, now: real): Session {
    Session(r.id, r.worker, r.model, r.phase, estimate, Active, now, r.bridge, r.resume, false,
            None, map[], None, None, None, map[], None, None, "", None)
  }

  /** The outcome of an attempt that found this reason to wait, or none. */
  function Decide(st: State, queue: Queue, r: Request, estimate: real, lost: seq<Event>, reason: Option<Reason>,
                  t: Ticks): Admission {
    if reason.None? then
      Admission(Append([AccrueEvent(st, t.accrual)] + (lost + [Admit(Admitted(r, estimate, t.now))])),
                Some(queue - {r.worker}), None)
    else
      var wait := WaitOf(queue, r.worker, r.model, r.ticket, reason.value, estimate, t.now);
      var previous := Previous(queue, r.worker, t.now);
      var again := previous.Some? && previous.value.reason == reason.value;
      Admission(if again && lost == [] then NoChange else Append([AccrueEvent(st, t.accrual)] + (lost + [Wait(wait)])),
                Some(queue[r.worker := wait]), reason)
  }

  function AdmitTx(st: State, file: Option<Queue>, r: Request, dead: set<string>, t: Ticks): Admission {
    if Has(st.sessions, r.id) then Admission(Refused(AlreadyLaunched), file, None)
    else if !Recorded(st.sessions, r.resume) then Admission(Refused(NoBaseline), file, None)
    else
      Decide(st, QueueOf(st, file), r, Estimate(st.sessions, r.model, Some(r.phase), true),
             Orphans(st.sessions, dead), Obstacle(st, QueueOf(st, file), r, dead, t), t)
  }

  lemma DecideEvents(st: State, queue: Queue, r: Request, estimate: real, lost: seq<Event>, reason: Option<Reason>,
                     t: Ticks) returns (last: Event)
    ensures var a := Decide(st, queue, r, estimate, lost, reason, t);
            && a.reason == reason
            && (a.tx.Append? ==> a.tx.events == [AccrueEvent(st, t.accrual)] + (lost + [last]))
            && !a.tx.Refused?
    ensures reason.None? ==> last == Admit(Admitted(r, estimate, t.now))
    ensures reason.Some? ==> last.Wait? && last.wait.worker == r.worker
  {
    last := if reason.None? then Admit(Admitted(r, estimate, t.now))
            else Wait(WaitOf(queue, r.worker, r.model, r.ticket, reason.value, estimate, t.now));
  }

  /** A recorded attempt marks the orphans, and ends with an admission of a new
      session or with a wait. */
  lemma AttemptEvents(st: State, file: Option<Queue>, r: Request, dead: set<string>, t: Ticks) returns (last: Event)
    requires AdmitTx(st, file, r, dead, t).tx.Append?
    ensures var a := AdmitTx(st, file, r, dead, t);
            && a.tx.events == [AccrueEvent(st, t.accrual)] + (Orphans(st.sessions, dead) + [last])
            && !Has(st.sessions, r.id)
            && a.reason == Obstacle(st, QueueOf(st, file), r, dead, t)
            && (a.reason.None? ==>
                  last == Admit(Admitted(r, Estimate(st.sessions, r.model, Some(r.phase), true), t.now)))
            && (a.reason.Some? ==> last.Wait? && last.wait.worker == r.worker)
  {
    last := DecideEvents(st, QueueOf(st, file), r, Estimate(st.sessions, r.model, Some(r.phase), true),
                         Orphans(st.sessions, dead), Obstacle(st, QueueOf(st, file), r, dead, t), t);
  }

  /** Without a session being resumed nobody resumes this one's baseline. */
  lemma ObstacleResume(st: State, queue: Queue, r: Request, dead: set<string>, t: Ticks)
    requires Obstacle(st, queue, r, dead, t).None?
    ensures forall i :: 0 <= i < |st.sessions| && st.sessions[i].status != Settled ==>
            !Resumes(st.sessions[i], r.resume)
  {
    assert !BeingResumed(st.sessions, r.resume);
  }

  /** A preflight wait: only the queue file changes. */
  function WaitForAdmission(st: State, file: Option<Queue>, worker: string, model: string, phase: string,
                            ticket: nat, reason: Reason, now: real): Queue {
    var queue := QueueOf(st, file);
    queue[worker := WaitOf(queue, worker, model, ticket, reason, Estimate(st.sessions, model, Some(phase), true), now)]
  }

  /** A heartbeat of a waiting worker; an expired place is not revived. */
  function RefreshWaiter(st: State, file: Option<Queue>, worker: string, now: real): Option<Queue> {
    var queue := QueueOf(st, file);
    if worker in queue && Fresh(queue[worker], now) then Some(queue[worker := queue[worker].(seen := now)])
    else file
  }

  // -------------------------------------------------------------------- runs

  datatype Op =
    | Configure(grant: Option<real>, target: Option<real>, rate: Option<real>)
    | Launch(request: Request, dead: set<string>)
    | SettleCost(id: string, cost: Option<real>, outcome: string, noted: bool, totals: Totals,
                 provenance: Provenance, finished: Option<real>)
    | Reconcile(id: string, amount: real, noted: bool, bridgeAlive: bool)
    | SettleReceipt(receipt: Receipt, host: Host)
    | RecoverUsage(id: string, saved: Option<Saved>, live: bool)
    | CoolDown(model: string, seconds: real)
    | Queued(worker: string, model: string, phase: string, ticket: nat, reason: Reason)
    | Refresh(worker: string)

  /** A receipt's totals come from a JSON object, whose keys are distinct. */
  predicate WellFormed(op: Op) {
    op.SettleReceipt? ==>
      && (op.receipt.totals.Some? ==> DistinctKeys(op.receipt.totals.value))
      && (op.receipt.lower.Some? ==> DistinctKeys(op.receipt.lower.value))
  }

  function TxOf(st: State, queue: Option<Queue>, op: Op, t: Ticks): Tx {
    match op
    case Configure(grant, target, rate) => ConfigureTx(st, grant, target, rate, t)
    case Launch(request, dead) => AdmitTx(st, queue, request, dead, t).tx
    case SettleCost(id, cost, outcome, noted, totals, provenance, finished) =>
      SettleTx(st, id, cost, outcome, noted, totals, provenance, finished, t)
    case Reconcile(id, amount, noted, alive) => ReconcileTx(st, id, amount, noted, alive, t)
    case SettleReceipt(receipt, host) => ReceiptTx(st, receipt, host, t)
    case RecoverUsage(id, saved, live) => RecoverTx(st, id, saved, live, t)
    case CoolDown(model, seconds) => CooldownTx(st, model, seconds, t)
    case Queued(_, _, _, _, _) => NoChange
    case Refresh(_) => NoChange
  }

  function QueueAfter(st: State, queue: Option<Queue>, op: Op, t: Ticks): Option<Queue> {
    match op
    case Launch(request, dead) => AdmitTx(st, queue, request, dead, t).queue
    case Queued(worker, model, phase, ticket, reason) =>
      Some(WaitForAdmission(st, queue, worker, model, phase, ticket, reason, t.now))
    case Refresh(worker) => RefreshWaiter(st, queue, worker, t.now)
    case _ => queue
  }

  /** The record that a transaction appends after this state. */
  function RecordOf(st: State, events: seq<Event>, t: Ticks): Record {
    Record(st.number + 1, t.stamp, events)
  }

  /** The state after a transaction is appended and replayed. */
  function After(st: State, tx: Tx, t: Ticks): Option<State> {
    if tx.Append? then ApplyRecord(st, RecordOf(st, tx.events, t)) else Some(st)
  }

  /** The durable files of the budget: the ledger and the disposable queue. */
  datatype Files = Files(ledger: seq<Record>, queue: Option<Queue>)

  /** What a call leaves, from the transaction that it decided on. */
  function Left(files: Files, st: State, tx: Tx, queue: Option<Queue>, t: Ticks): Files {
    Files(if tx.Append? then files.ledger + [RecordOf(st, tx.events, t)] else files.ledger, queue)
  }

  /** One writer call; over an unreadable ledger every writer fails. */
  function Step(files: Files, op: Op, t: Ticks): Files {
    match Replay(files.ledger)
    case None => files
    case Some(st) =>
      Left(files, st, TxOf(st, files.queue, op, t), QueueAfter(st, files.queue, op, t), t)
  }

  /** A writer call with its clock readings. */
  datatype Call = Call(op: Op, t: Ticks)

  predicate AllWellFormed(calls: seq<Call>) {
    calls == [] || (AllWellFormed(calls[..|calls| - 1]) && WellFormed(calls[|calls| - 1].op))
  }

  function Run(files: Files, calls: seq<Call>): Files {
    if calls == [] then files
    else
      var last := calls[|calls| - 1];
      Step(Run(files, calls[..|calls| - 1]), last.op, last.t)
  }
}
