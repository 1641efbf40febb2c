/** No overtaking over whole runs. */
module RunQueueing {
  import opened Wrappers
  import opened Ledger
  import opened Receipts
  import opened Writers
  import opened HonestWriters
  import opened RunConservation
  import opened Queueing

  /** Generated tickets are new in every state in which they are generated. */
  predicate FreshTickets(files: Files, calls: seq<Call>) {
    calls == [] ||
    (&& FreshTickets(files, calls[..|calls| - 1])
     && var mid := Run(files, calls[..|calls| - 1]);
        Readable(mid) ==> TicketFresh(QueueIn(mid), calls[|calls| - 1].op))
  }

  /** No two workers ever share a place, whatever is called. */
  lemma {:induction false} RunOrderly(files: Files, calls: seq<Call>)
    requires OrderlyFiles(files) && FreshTickets(files, calls)
    ensures OrderlyFiles(Run(files, calls))
  {
    if calls != [] {
      var init, last := calls[..|calls| - 1], calls[|calls| - 1];
      RunOrderly(files, init);
      OrderlyAfter(Run(files, init), last.op, last.t);
    }
  }

  lemma OrderlyNow(files: Files, calls: seq<Call>) returns (now: Files)
    requires Sound(files.ledger) && OrderlyFiles(files) && AllWellFormed(calls) && FreshTickets(files, calls)
    ensures now == Run(files, calls) && Readable(now) && Orderly(QueueIn(now))
  {
    now := Run(files, calls);
    assert Sound(now.ledger) by {
      RunSound(files, calls);
    }
    RunOrderly(files, calls);
  }

  /** From the empty files on, the queue that an admission attempt reads is in order. */
  lemma AlwaysOrderly(files: Files, calls: seq<Call>) returns (now: Files)
    requires files.ledger == [] && files.queue.None? && AllWellFormed(calls) && FreshTickets(files, calls)
    ensures now == Run(files, calls) && Readable(now) && Orderly(QueueIn(now))
  {
    EmptyStart(files);
    now := OrderlyNow(files, calls);
  }

  lemma EmptyStart(files: Files)
    requires files.ledger == [] && files.queue.None?
    ensures Sound(files.ledger) && OrderlyFiles(files)
  {
    StartOrderly(files);
    EmptySound(files.ledger);
  }

  lemma StartOrderly(files: Files)
    requires files.ledger == [] && files.queue.None?
    ensures OrderlyFiles(files)
  {
    assert Replay(files.ledger) == Some(EMPTY);
    var empty: Queue := EMPTY.waiting;
    assert QueueIn(files) == empty;
    assert forall w :: w !in empty;
  }

  /** Throughout the run worker w stays in line for the model and is not admitted. */
  predicate StaysInLine(files: Files, calls: seq<Call>, w: string, model: string) {
    calls == [] ||
    (&& StaysInLine(files, calls[..|calls| - 1], w, model)
     && var mid, last := Run(files, calls[..|calls| - 1]), calls[|calls| - 1];
        && Readable(mid) && w in QueueIn(mid) && InLine(QueueIn(mid)[w], model, last.t.now)
        && (Actor(last.op) == Some(w) ==> !Admits(mid, last.op, last.t)))
  }

  /** A worker that stays in line keeps the place with which it came. */
  lemma {:induction false} RunKeepsPlace(files: Files, calls: seq<Call>, w: string, model: string)
    requires Sound(files.ledger) && AllWellFormed(calls) && w in QueueIn(files)
    requires StaysInLine(files, calls, w, model)
    ensures Sound(Run(files, calls).ledger) && w in QueueIn(Run(files, calls))
    ensures Place(QueueIn(Run(files, calls))[w]) == Place(QueueIn(files)[w])
  {
    if calls != [] {
      var init, last := calls[..|calls| - 1], calls[|calls| - 1];
      RunKeepsPlace(files, init, w, model);
      StepSound(Run(files, init), last.op, last.t);
      PlaceKept(Run(files, init), last.op, last.t, w);
    }
  }

  /** No overtaking: whoever is admitted for the model while w stays in line stood
      before the place with which w came. */
  lemma NoOvertaking(files: Files, calls: seq<Call>, w: string, r: Request, dead: set<string>, t: Ticks)
    returns (now: Files)
    requires Sound(files.ledger) && AllWellFormed(calls) && OrderlyFiles(files) && FreshTickets(files, calls)
    requires w in QueueIn(files) && w != r.worker
    requires StaysInLine(files, calls + [Call(Launch(r, dead), t)], w, r.model)
    ensures now == Run(files, calls) && Readable(now)
    ensures Admits(now, Launch(r, dead), t) ==>
              r.worker in QueueIn(now) && Before(QueueIn(now)[r.worker], QueueIn(files)[w])
  {
    now := Run(files, calls);
    InLineNow(files, calls, w, r, dead, t);
    assert OrderlyFiles(now) by {
      RunOrderly(files, calls);
    }
    assert Sound(now.ledger) && w in QueueIn(now) && Place(QueueIn(now)[w]) == Place(QueueIn(files)[w]) by {
      RunKeepsPlace(files, calls, w, r.model);
    }
    if Admits(now, Launch(r, dead), t) {
      AdmittedIsFirst(now, r, dead, t, w);
    }
  }

  lemma InLineNow(files: Files, calls: seq<Call>, w: string, r: Request, dead: set<string>, t: Ticks)
    requires StaysInLine(files, calls + [Call(Launch(r, dead), t)], w, r.model)
    ensures StaysInLine(files, calls, w, r.model)
    ensures var now := Run(files, calls);
            Readable(now) && w in QueueIn(now) && InLine(QueueIn(now)[w], r.model, t.now)
  {
    assert (calls + [Call(Launch(r, dead), t)])[..|calls|] == calls;
  }
}
