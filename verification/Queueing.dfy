/** No overtaking: while a worker's wait for funds stays fresh it keeps its place,
    and only workers with an earlier place are admitted for its model. */
module Queueing {
  import opened Wrappers
  import opened Ledger
  import opened Selection
  import opened Receipts
  import opened Writers
  import opened Solvency

  // ------------------------------------------------------ the ledger's waits

  /** An event that does not touch the waits which the ledger recorded. */
  predicate Quiet(e: Event) {
    !e.Wait? && !e.Admit?
  }

  predicate QuietAll(events: seq<Event>) {
    forall i :: 0 <= i < |events| ==> Quiet(events[i])
  }

  lemma {:induction false} QuietKeepsWaits(st: State, events: seq<Event>, stamp: real)
    requires QuietAll(events) && ApplyAll(st, events, stamp).Some?
    ensures ApplyAll(st, events, stamp).value.waiting == st.waiting
    decreases |events|
  {
    if events != [] {
      QuietKeepsWaits(Apply(st, events[0], stamp).value, events[1..], stamp);
    }
  }

  /** An event that touches neither waits nor cooldowns. */
  predicate Calm(e: Event) {
    Quiet(e) && !e.Cooldown?
  }

  predicate CalmAll(events: seq<Event>) {
    forall i :: 0 <= i < |events| ==> Calm(events[i])
  }

  lemma {:induction false} ClampsCalm(ss: seq<Session>, at: seq<nat>, p: string,
                                       native: real, exact: real, weight: real, cursor: real)
    requires forall i :: 0 <= i < |at| ==> at[i] < |ss|
    ensures CalmAll(ClampEvents(ss, at, p, native, exact, weight, cursor))
    decreases |at|
  {
    if at != [] {
      var value := Share(ss[at[0]], |at| == 1, native, exact, weight, cursor);
      ClampsCalm(ss, at[1..], p, native, exact, weight, cursor + value);
    }
  }

  lemma {:induction false} ClampAllCalm(ss: seq<Session>, upto: nat, entries: Entries)
    requires upto <= |ss|
    ensures ClampAll(ss, upto, entries).Some? ==> CalmAll(ClampAll(ss, upto, entries).value)
    decreases |entries|
  {
    if entries != [] {
      var (p, native) := entries[|entries| - 1];
      ClampAllCalm(ss, upto, entries[..|entries| - 1]);
      var exact := Exact(ss[..upto], p);
      var at := LooseAt(ss, 0, upto, p, exact);
      ClampsCalm(ss, at, p, native, exact, CostAt(ss, at), exact);
    }
  }

  lemma {:induction false} RebaseCalm(ss: seq<Session>, from: nat, keys: set<string>, delta: real)
    requires from <= |ss|
    ensures Rebase(ss, from, keys, delta).Ok? ==> CalmAll(Rebase(ss, from, keys, delta).value)
    decreases |ss| - from
  {
    if from < |ss| {
      RebaseCalm(ss, from + 1, keys, delta);
    }
  }

  lemma NativeCalm(st: State, k: nat, r: Receipt, entries: Entries, t: Ticks)
    requires k < |st.sessions| && ClampAll(st.sessions, k, entries).Some?
    ensures var tx := NativeTx(st, k, r, entries, ClampAll(st.sessions, k, entries).value, t);
            tx.Append? ==> CalmAll(tx.events)
  {
    ClampAllCalm(st.sessions, k, entries);
    RebaseCalm(st.sessions, k + 1, AsTotals(entries).Keys, Charge(st.sessions[..k], entries) - Cost(st.sessions[k]));
  }

  lemma BoundCalm(st: State, r: Receipt, t: Ticks)
    requires Has(st.sessions, r.id)
    ensures var tx := LowerBoundTx(st, r, t); tx.Some? && tx.value.Append? ==> CalmAll(tx.value.events)
  {
    var s := Get(st.sessions, r.id);
    HoldCalm(st, r, Sum(Differences(st.sessions[..IndexOf(st.sessions, r.id)], LowerTotals(r))),
             Estimate(st.sessions, s.model, Some(s.phase), false), t);
  }

  lemma HoldCalm(st: State, r: Receipt, known: real, estimate: real, t: Ticks)
    requires Has(st.sessions, r.id)
    ensures var tx := BoundTx(st, r, known, estimate, t); tx.Append? ==> CalmAll(tx.events)
  {
  }

  lemma ReceiptCalm(st: State, r: Receipt, host: Host, t: Ticks)
    ensures var tx := ReceiptTx(st, r, host, t); tx.Append? ==> CalmAll(tx.events)
  {
    var tx := ReceiptForms(st, r, host, t);
    if tx.Append? {
      FormCalm(st, r, tx, t);
    }
  }

  lemma FormCalm(st: State, r: Receipt, tx: Tx, t: Ticks)
    requires ReceiptForm(st, r, tx, t) && tx.Append?
    ensures CalmAll(tx.events)
  {
    BoundCalm(st, r, t);
    var k, totals := IndexOf(st.sessions, r.id), FinalTotals(r);
    if totals.Some? && ClampAll(st.sessions, k, totals.value).Some? {
      NativeCalm(st, k, r, totals.value, t);
    }
  }

  lemma JournalCalm(st: State, k: nat, saved: Saved, estimate: real, t: Ticks)
    requires k < |st.sessions|
    ensures var tx := UsageTx(st, k, saved, estimate, t); tx.Append? ==> CalmAll(tx.events)
  {
  }

  lemma UsageCalm(st: State, id: string, saved: Option<Saved>, live: bool, t: Ticks)
    ensures var tx := RecoverTx(st, id, saved, live, t); tx.Append? ==> CalmAll(tx.events)
  {
    if Has(st.sessions, id) && saved.Some? {
      var s := Get(st.sessions, id);
      JournalCalm(st, IndexOf(st.sessions, id), saved.value, Estimate(st.sessions, s.model, Some(s.phase), false), t);
    }
  }

  lemma CostCalm(st: State, id: string, cost: Option<real>, outcome: string, noted: bool, totals: Totals,
                  provenance: Provenance, finished: Option<real>, alive: bool, t: Ticks)
    ensures var tx := SettleTx(st, id, cost, outcome, noted, totals, provenance, finished, t);
            tx.Append? ==> CalmAll(tx.events)
    ensures cost.Some? ==> var tx := ReconcileTx(st, id, cost.value, noted, alive, t);
                           tx.Append? ==> CalmAll(tx.events)
  {
  }

  lemma WriterQuiet(st: State, queue: Option<Queue>, op: Op, t: Ticks)
    requires !op.Launch?
    ensures var tx := TxOf(st, queue, op, t);
            tx.Append? ==> QuietAll(tx.events) && (!op.CoolDown? ==> CalmAll(tx.events))
  {
    match op
    case SettleReceipt(receipt, host) => ReceiptCalm(st, receipt, host, t);
    case RecoverUsage(id, saved, live) => UsageCalm(st, id, saved, live, t);
    case SettleCost(id, cost, outcome, noted, totals, provenance, finished) =>
      CostCalm(st, id, cost, outcome, noted, totals, provenance, finished, false, t);
    case Reconcile(id, amount, noted, alive) =>
      CostCalm(st, id, Some(amount), "", noted, map[], NativeReported, None, alive, t);
    case _ =>
  }

  // --------------------------------------------------------------- one call

  /** The worker that a call queues, refreshes or launches. */
  function Actor(op: Op): Option<string> {
    match op
    case Launch(r, _) => Some(r.worker)
    case Queued(worker, _, _, _, _) => Some(worker)
    case Refresh(worker) => Some(worker)
    case _ => None
  }

  /** The queue that the next writer will see. */
  function QueueIn(files: Files): Queue
    requires Replay(files.ledger).Some?
  {
    QueueOf(Replay(files.ledger).value, files.queue)
  }

  predicate Readable(files: Files) {
    Replay(files.ledger).Some?
  }

  /** The call admits a session of its worker. */
  predicate Admits(files: Files, op: Op, t: Ticks)
    requires Readable(files)
  {
    && op.Launch?
    && var a := AdmitTx(Replay(files.ledger).value, files.queue, op.request, op.dead, t);
       a.tx.Append? && a.reason.None?
  }

  lemma RecordKeepsWaits(ledger: seq<Record>, events: seq<Event>, t: Ticks)
    requires Replay(ledger).Some? && QuietAll(events)
    requires Replay(ledger + [RecordOf(Replay(ledger).value, events, t)]).Some?
    ensures Replay(ledger + [RecordOf(Replay(ledger).value, events, t)]).value.waiting == Replay(ledger).value.waiting
  {
    var st := Replay(ledger).value;
    ReplayAppend(ledger, RecordOf(st, events, t));
    QuietKeepsWaits(st.(number := st.number + 1), events, t.stamp);
  }

  lemma QuietStep(files: Files, op: Op, t: Ticks)
    requires Readable(files) && Readable(Step(files, op, t)) && !op.Launch?
    ensures Replay(Step(files, op, t).ledger).value.waiting == Replay(files.ledger).value.waiting
  {
    var st := Replay(files.ledger).value;
    var tx := TxOf(st, files.queue, op, t);
    if tx.Append? {
      WriterQuiet(st, files.queue, op, t);
      RecordKeepsWaits(files.ledger, tx.events, t);
    }
  }

  lemma DecideOthers(st: State, queue: Queue, r: Request, estimate: real, lost: seq<Event>, reason: Option<Reason>,
                     t: Ticks, w: string)
    requires w != r.worker
    ensures var after := Decide(st, queue, r, estimate, lost, reason, t).queue;
            && after.Some?
            && (w in after.value <==> w in queue)
            && (w in queue ==> after.value[w] == queue[w])
  {
  }

  /** An admission attempt changes its own worker's entry only. */
  lemma AttemptOthers(st: State, file: Option<Queue>, r: Request, dead: set<string>, t: Ticks, w: string)
    requires w != r.worker
    ensures var before := QueueOf(st, file);
            var after := AdmitTx(st, file, r, dead, t).queue;
            after.Some? ==>
              && (w in after.value <==> w in before)
              && (w in before ==> after.value[w] == before[w])
    ensures AdmitTx(st, file, r, dead, t).queue.None? ==> file.None? && AdmitTx(st, file, r, dead, t).tx.Refused?
  {
    DecideOthers(st, QueueOf(st, file), r, Estimate(st.sessions, r.model, Some(r.phase), true),
                 Orphans(st.sessions, dead), Obstacle(st, QueueOf(st, file), r, dead, t), t, w);
  }

  /** Only the acting worker's entry can change. */
  lemma OthersKept(files: Files, op: Op, t: Ticks, w: string)
    requires Readable(files) && Readable(Step(files, op, t)) && Actor(op) != Some(w)
    ensures w in QueueIn(Step(files, op, t)) <==> w in QueueIn(files)
    ensures w in QueueIn(files) ==> QueueIn(Step(files, op, t))[w] == QueueIn(files)[w]
  {
    if op.Launch? {
      LaunchOthers(files, op.request, op.dead, t, w);
    } else {
      QuietStep(files, op, t);
    }
  }

  lemma LaunchOthers(files: Files, r: Request, dead: set<string>, t: Ticks, w: string)
    requires Readable(files) && Readable(Step(files, Launch(r, dead), t)) && r.worker != w
    ensures w in QueueIn(Step(files, Launch(r, dead), t)) <==> w in QueueIn(files)
    ensures w in QueueIn(files) ==> QueueIn(Step(files, Launch(r, dead), t))[w] == QueueIn(files)[w]
  {
    var st := Replay(files.ledger).value;
    AttemptOthers(st, files.queue, r, dead, t, w);
    assert Step(files, Launch(r, dead), t).queue == AdmitTx(st, files.queue, r, dead, t).queue;
    if AdmitTx(st, files.queue, r, dead, t).queue.None? {
      RefusedKeepsFile(files, r, dead, t);
    }
  }

  /** The place of a wait: entries are ordered by it. */
  function Place(w: Waiting): (real, nat) {
    (w.since, w.ticket)
  }

  /** A worker's own attempt that does not admit it keeps its fresh place. */
  lemma AttemptKeepsPlace(st: State, file: Option<Queue>, r: Request, dead: set<string>, t: Ticks)
    requires r.worker in QueueOf(st, file) && Fresh(QueueOf(st, file)[r.worker], t.now)
    requires var a := AdmitTx(st, file, r, dead, t); !(a.tx.Append? && a.reason.None?)
    ensures var before, a := QueueOf(st, file), AdmitTx(st, file, r, dead, t);
            || (a.queue == file && a.tx.Refused?)
            || (a.queue.Some? && r.worker in a.queue.value && Place(a.queue.value[r.worker]) == Place(before[r.worker]))
  {
  }

  lemma LaunchKeepsPlace(files: Files, r: Request, dead: set<string>, t: Ticks)
    requires Readable(files) && Readable(Step(files, Launch(r, dead), t)) && !Admits(files, Launch(r, dead), t)
    requires r.worker in QueueIn(files) && Fresh(QueueIn(files)[r.worker], t.now)
    ensures r.worker in QueueIn(Step(files, Launch(r, dead), t))
    ensures Place(QueueIn(Step(files, Launch(r, dead), t))[r.worker]) == Place(QueueIn(files)[r.worker])
  {
    var st := Replay(files.ledger).value;
    AttemptKeepsPlace(st, files.queue, r, dead, t);
    assert Step(files, Launch(r, dead), t).queue == AdmitTx(st, files.queue, r, dead, t).queue;
    if AdmitTx(st, files.queue, r, dead, t).tx.Refused? {
      RefusedKeepsLedger(files, r, dead, t);
    }
  }

  /** A refused attempt writes nothing. */
  lemma RefusedKeepsLedger(files: Files, r: Request, dead: set<string>, t: Ticks)
    requires Readable(files)
    requires AdmitTx(Replay(files.ledger).value, files.queue, r, dead, t).tx.Refused?
    ensures Step(files, Launch(r, dead), t) == files
  {
  }

  /** A fresh wait keeps its place through every call, other workers' and its own,
      until its worker is admitted. */
  lemma PlaceKept(files: Files, op: Op, t: Ticks, w: string)
    requires Readable(files) && Readable(Step(files, op, t))
    requires w in QueueIn(files) && Fresh(QueueIn(files)[w], t.now)
    requires Actor(op) == Some(w) ==> !Admits(files, op, t)
    ensures w in QueueIn(Step(files, op, t))
    ensures Place(QueueIn(Step(files, op, t))[w]) == Place(QueueIn(files)[w])
  {
    if Actor(op) != Some(w) {
      OthersKept(files, op, t, w);
    } else if op.Launch? {
      LaunchKeepsPlace(files, op.request, op.dead, t);
    }
  }

  /** Whoever is admitted stands, in line, before every other worker in line. */
  lemma AdmittedIsFirst(files: Files, r: Request, dead: set<string>, t: Ticks, w: string)
    requires Readable(files) && Orderly(QueueIn(files)) && Admits(files, Launch(r, dead), t)
    requires w in QueueIn(files) && w != r.worker && InLine(QueueIn(files)[w], r.model, t.now)
    ensures r.worker in QueueIn(files) && InLine(QueueIn(files)[r.worker], r.model, t.now)
    ensures Before(QueueIn(files)[r.worker], QueueIn(files)[w])
  {
    var queue := QueueIn(files);
    NotBehind(Replay(files.ledger).value, queue, r, dead, t);
    assert !BehindAnother(queue, r.model, t.now, r.worker);
  }

  lemma NotBehind(st: State, queue: Queue, r: Request, dead: set<string>, t: Ticks)
    requires Obstacle(st, queue, r, dead, t).None?
    ensures !BehindAnother(queue, r.model, t.now, r.worker)
  {
  }

  // ------------------------------------------------------------ order is kept

  function NewTicket(op: Op): Option<nat> {
    match op
    case Launch(r, _) => Some(r.ticket)
    case Queued(_, _, _, ticket, _) => Some(ticket)
    case _ => None
  }

  /** A generated ticket is one that no wait has. */
  predicate TicketFresh(queue: Queue, op: Op) {
    NewTicket(op).Some? ==> forall w :: w in queue ==> queue[w].ticket != NewTicket(op).value
  }

  lemma OrderKept(files: Files, op: Op, t: Ticks)
    requires Readable(files) && Readable(Step(files, op, t))
    requires Orderly(QueueIn(files)) && TicketFresh(QueueIn(files), op)
    ensures Orderly(QueueIn(Step(files, op, t)))
  {
    var before, after := QueueIn(files), QueueIn(Step(files, op, t));
    if Actor(op).Some? {
      var a := Actor(op).value;
      ActorEntry(files, op, t);
      forall w | w in after ensures after[w].worker == w {
        if w != a {
          OthersKept(files, op, t, w);
        }
      }
      forall v, w | v in after && w in after && v != w ensures after[v].ticket != after[w].ticket {
        if v != a {
          OthersKept(files, op, t, v);
        }
        if w != a {
          OthersKept(files, op, t, w);
        }
      }
    } else {
      QuietStep(files, op, t);
    }
  }

  /** An attempt takes its worker out of the queue, or files a wait with the worker's
      old place or the new one. */
  lemma AttemptEntry(st: State, file: Option<Queue>, r: Request, dead: set<string>, t: Ticks)
    ensures var before := QueueOf(st, file);
            var after := AdmitTx(st, file, r, dead, t).queue;
            after == file
            || after == Some(before - {r.worker})
            || (after.Some? && r.worker in after.value
                && after.value == before[r.worker := after.value[r.worker]]
                && after.value[r.worker].worker == r.worker
                && (after.value[r.worker].ticket == r.ticket
                    || (r.worker in before && after.value[r.worker].ticket == before[r.worker].ticket)))
  {
  }

  /** The acting worker's entry carries its own name, and its old ticket or the new one. */
  lemma ActorEntry(files: Files, op: Op, t: Ticks)
    requires Readable(files) && Readable(Step(files, op, t)) && Orderly(QueueIn(files)) && Actor(op).Some?
    ensures var before, after, a := QueueIn(files), QueueIn(Step(files, op, t)), Actor(op).value;
            a in after ==>
              && after[a].worker == a
              && (Some(after[a].ticket) == NewTicket(op) || (a in before && after[a].ticket == before[a].ticket))
  {
    if op.Launch? {
      LaunchEntry(files, op.request, op.dead, t);
    } else {
      QuietStep(files, op, t);
    }
  }

  lemma LaunchEntry(files: Files, r: Request, dead: set<string>, t: Ticks)
    requires Readable(files) && Readable(Step(files, Launch(r, dead), t)) && Orderly(QueueIn(files))
    ensures var before, after := QueueIn(files), QueueIn(Step(files, Launch(r, dead), t));
            r.worker in after ==>
              && after[r.worker].worker == r.worker
              && (after[r.worker].ticket == r.ticket
                  || (r.worker in before && after[r.worker].ticket == before[r.worker].ticket))
  {
    var st := Replay(files.ledger).value;
    AttemptEntry(st, files.queue, r, dead, t);
    var after := AdmitTx(st, files.queue, r, dead, t).queue;
    assert Step(files, Launch(r, dead), t).queue == after;
    if after.None? {
      RefusedKeepsFile(files, r, dead, t);
    }
  }

  /** An attempt that leaves the queue file alone was refused. */
  lemma RefusedKeepsFile(files: Files, r: Request, dead: set<string>, t: Ticks)
    requires Readable(files)
    requires AdmitTx(Replay(files.ledger).value, files.queue, r, dead, t).queue.None?
    ensures Step(files, Launch(r, dead), t) == files
  {
  }

  /** No two waits that the next writer will see share a place. */
  ghost predicate OrderlyFiles(files: Files) {
    Readable(files) ==> Orderly(QueueIn(files))
  }

  /** Every call keeps the places distinct. */
  lemma OrderlyAfter(files: Files, op: Op, t: Ticks)
    requires OrderlyFiles(files)
    requires Readable(files) ==> TicketFresh(QueueIn(files), op)
    ensures OrderlyFiles(Step(files, op, t))
  {
    if Readable(files) && Readable(Step(files, op, t)) {
      OrderKept(files, op, t);
    }
  }
}
