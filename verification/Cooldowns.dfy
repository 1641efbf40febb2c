/** Cooldowns: while one is running no session of its model is admitted, and when all have
    ended none is the reason to wait. */
module Cooldowns {
  import opened Wrappers
  import opened Ledger
  import opened Selection
  import opened Receipts
  import opened Writers
  import opened Conservation
  import opened HonestWriters
  import opened RunConservation
  import opened Queueing

  /** The model is cooling at least until then. */
  predicate Cooling(st: State, model: string, until: real) {
    model in st.cooldowns && st.cooldowns[model] >= until
  }

  /** The event does not end a cooldown of the model before then. */
  predicate Lasts(e: Event, model: string, until: real) {
    e.Cooldown? && e.model == model ==> e.until >= until
  }

  predicate LastsAll(events: seq<Event>, model: string, until: real) {
    forall i :: 0 <= i < |events| ==> Lasts(events[i], model, until)
  }

  lemma {:induction false} AllKeepCooling(st: State, events: seq<Event>, stamp: real, model: string, until: real)
    requires Cooling(st, model, until) && LastsAll(events, model, until) && ApplyAll(st, events, stamp).Some?
    ensures Cooling(ApplyAll(st, events, stamp).value, model, until)
    decreases |events|
  {
    if events != [] {
      AllKeepCooling(Apply(st, events[0], stamp).value, events[1..], stamp, model, until);
    }
  }

  lemma {:induction false} OrphansLast(ss: seq<Session>, dead: set<string>, model: string, until: real)
    ensures LastsAll(Orphans(ss, dead), model, until)
    decreases |ss|
  {
    if ss != [] {
      OrphansLast(ss[..|ss| - 1], dead, model, until);
    }
  }

  lemma AttemptLasts(st: State, queue: Option<Queue>, r: Request, dead: set<string>, t: Ticks, model: string,
                     until: real)
    ensures var tx := AdmitTx(st, queue, r, dead, t).tx; tx.Append? ==> LastsAll(tx.events, model, until)
  {
    if AdmitTx(st, queue, r, dead, t).tx.Append? {
      var last := AttemptEvents(st, queue, r, dead, t);
      OrphansLast(st.sessions, dead, model, until);
    }
  }

  /** No writer shortens a cooldown. */
  lemma WriterLasts(st: State, queue: Option<Queue>, op: Op, t: Ticks, model: string, until: real)
    requires Cooling(st, model, until)
    ensures var tx := TxOf(st, queue, op, t); tx.Append? ==> LastsAll(tx.events, model, until)
  {
    match op
    case Launch(request, dead) => AttemptLasts(st, queue, request, dead, t, model, until);
    case CoolDown(_, _) =>
    case _ => WriterQuiet(st, queue, op, t);
  }

  /** The ledger can be read and the model is cooling. */
  ghost predicate CoolingIn(ledger: seq<Record>, model: string, until: real) {
    Sound(ledger) && Cooling(Replay(ledger).value, model, until)
  }

  lemma TxKeepsCooling(files: Files, st: State, tx: Tx, queue: Option<Queue>, t: Ticks, model: string, until: real)
    requires CoolingIn(files.ledger, model, until) && Replay(files.ledger) == Some(st)
    requires tx.Append? ==> HonestAll(st, tx.events, t.stamp) && LastsAll(tx.events, model, until)
    ensures CoolingIn(Left(files, st, tx, queue, t).ledger, model, until)
  {
    TxSound(files, st, tx, queue, t);
    if tx.Append? {
      ReplayAppend(files.ledger, RecordOf(st, tx.events, t));
      AllKeepCooling(st.(number := st.number + 1), tx.events, t.stamp, model, until);
    }
  }

  lemma StepKeepsCooling(files: Files, op: Op, t: Ticks, model: string, until: real) returns (next: seq<Record>)
    requires CoolingIn(files.ledger, model, until) && WellFormed(op)
    ensures next == Step(files, op, t).ledger && CoolingIn(next, model, until)
  {
    var st := Replay(files.ledger).value;
    var tx, queue := TxOf(st, files.queue, op, t), QueueAfter(st, files.queue, op, t);
    next := Left(files, st, tx, queue, t).ledger;
    assert CoolingIn(next, model, until) by {
      WriterHonest(st, files.queue, op, t);
      WriterLasts(st, files.queue, op, t, model, until);
      TxKeepsCooling(files, st, tx, queue, t, model, until);
    }
  }

  /** No run of writers shortens a cooldown. */
  lemma {:induction false} RunKeepsCooling(files: Files, calls: seq<Call>, model: string, until: real)
    requires CoolingIn(files.ledger, model, until) && AllWellFormed(calls)
    ensures CoolingIn(Run(files, calls).ledger, model, until)
  {
    if calls != [] {
      var init, last := calls[..|calls| - 1], calls[|calls| - 1];
      RunKeepsCooling(files, init, model, until);
      var next := StepKeepsCooling(Run(files, init), last.op, last.t, model, until);
    }
  }

  /** One more record whose cooldown lasts until then. */
  lemma CooledAfter(ledger: seq<Record>, st: State, accrual: Event, e: Event, t: Ticks, model: string, until: real)
    requires Replay(ledger) == Some(st) && accrual.Accrue? && e.Cooldown? && e.model == model && e.until >= until
    ensures var next := Replay(ledger + [RecordOf(st, [accrual, e], t)]);
            next.Some? && Cooling(next.value, model, until)
  {
    ReplayAppend(ledger, RecordOf(st, [accrual, e], t));
    Cooled(st, accrual, e, t.stamp);
  }

  lemma CooldownLeft(files: Files, st: State, model: string, seconds: real, tx: Tx, queue: Option<Queue>, t: Ticks)
    requires Sound(files.ledger) && Replay(files.ledger) == Some(st)
    requires tx == CooldownTx(st, model, seconds, t) && HonestAll(st, tx.events, t.stamp)
    ensures CoolingIn(Left(files, st, tx, queue, t).ledger, model, t.now + seconds)
  {
    assert tx.events == [tx.events[0], tx.events[1]];
    TxSound(files, st, tx, queue, t);
    CooledAfter(files.ledger, st, tx.events[0], tx.events[1], t, model, t.now + seconds);
  }

  lemma CooldownStep(files: Files, st: State, model: string, seconds: real, t: Ticks)
    requires Replay(files.ledger) == Some(st)
    ensures Step(files, CoolDown(model, seconds), t)
         == Left(files, st, CooldownTx(st, model, seconds, t), files.queue, t)
  {
  }

  /** A cooldown starts a cooling of its length, whatever was recorded before. */
  lemma CoolDownCools(files: Files, model: string, seconds: real, t: Ticks) returns (next: Files)
    requires Sound(files.ledger)
    ensures next == Step(files, CoolDown(model, seconds), t) && CoolingIn(next.ledger, model, t.now + seconds)
  {
    var st := Replay(files.ledger).value;
    var tx := CooldownTx(st, model, seconds, t);
    next := Left(files, st, tx, files.queue, t);
    assert CoolingIn(next.ledger, model, t.now + seconds) by {
      CooldownHonest(st, files.queue, model, seconds, t);
      CooldownLeft(files, st, model, seconds, tx, files.queue, t);
    }
    CooldownStep(files, st, model, seconds, t);
  }

  lemma CooldownHonest(st: State, queue: Option<Queue>, model: string, seconds: real, t: Ticks)
    requires UniqueIds(st.sessions)
    ensures HonestAll(st, CooldownTx(st, model, seconds, t).events, t.stamp)
  {
    WriterHonest(st, queue, CoolDown(model, seconds), t);
  }

  lemma Cooled(st: State, accrual: Event, e: Event, stamp: real)
    requires accrual.Accrue? && e.Cooldown?
    ensures var next := ApplyAll(st.(number := st.number + 1), [accrual, e], stamp);
            next.Some? && Cooling(next.value, e.model, e.until)
  {
    var mid := Apply(st.(number := st.number + 1), accrual, stamp).value;
    assert [accrual, e][1..] == [e];
    assert [e][1..] == [];
    assert ApplyAll(mid, [e], stamp) == ApplyAll(Apply(mid, e, stamp).value, [], stamp);
  }

  lemma CoolingBlocks(files: Files, r: Request, dead: set<string>, t: Ticks, until: real)
    requires CoolingIn(files.ledger, r.model, until) && t.now < until
    ensures Readable(files) && !Admits(files, Launch(r, dead), t)
  {
    CoolingReason(Replay(files.ledger).value, files.queue, r, dead, t, until);
  }

  lemma CoolingReason(st: State, file: Option<Queue>, r: Request, dead: set<string>, t: Ticks, until: real)
    requires Cooling(st, r.model, until) && t.now < until
    ensures var a := AdmitTx(st, file, r, dead, t); !(a.tx.Append? && a.reason.None?)
  {
    assert Obstacle(st, QueueOf(st, file), r, dead, t).Some?;
  }

  /** After a cooldown, whatever writers do, no session of its model is admitted at a clock
      before its end. */
  lemma NoAdmissionWhileCooling(files: Files, seconds: real, t0: Ticks, calls: seq<Call>, r: Request,
                                dead: set<string>, t: Ticks)
    requires Sound(files.ledger) && AllWellFormed(calls) && t.now < t0.now + seconds
    ensures var now := Run(Step(files, CoolDown(r.model, seconds), t0), calls);
            Readable(now) && !Admits(now, Launch(r, dead), t)
  {
    var cooled := CoolDownCools(files, r.model, seconds, t0);
    RunKeepsCooling(cooled, calls, r.model, t0.now + seconds);
    CoolingBlocks(Run(cooled, calls), r, dead, t, t0.now + seconds);
  }

  // ------------------------------------------------------------ after cooldowns

  predicate EventsEnded(events: seq<Event>, model: string, now: real) {
    forall i :: 0 <= i < |events| && events[i].Cooldown? && events[i].model == model ==> events[i].until <= now
  }

  /** The clock has reached every cooldown that the ledger records for the model. */
  predicate CooldownsEnded(ledger: seq<Record>, model: string, now: real) {
    forall i :: 0 <= i < |ledger| ==> EventsEnded(ledger[i].events, model, now)
  }

  predicate Warm(st: State, model: string, now: real) {
    model in st.cooldowns ==> st.cooldowns[model] <= now
  }

  lemma {:induction false} EventsWarm(st: State, events: seq<Event>, stamp: real, model: string, now: real)
    requires Warm(st, model, now) && EventsEnded(events, model, now) && ApplyAll(st, events, stamp).Some?
    ensures Warm(ApplyAll(st, events, stamp).value, model, now)
    decreases |events|
  {
    if events != [] {
      EventsWarm(Apply(st, events[0], stamp).value, events[1..], stamp, model, now);
    }
  }

  lemma {:induction false} LedgerWarm(ledger: seq<Record>, model: string, now: real)
    requires Replay(ledger).Some? && CooldownsEnded(ledger, model, now)
    ensures Warm(Replay(ledger).value, model, now)
  {
    if ledger != [] {
      var init, rec := ledger[..|ledger| - 1], ledger[|ledger| - 1];
      LedgerWarm(init, model, now);
      EventsWarm(Replay(init).value.(number := rec.number), rec.events, rec.stamp, model, now);
    }
  }

  /** Once the clock has reached every recorded cooldown of the model, none of them is the
      reason to wait. */
  lemma NotCoolingAnymore(files: Files, r: Request, dead: set<string>, t: Ticks)
    requires Readable(files) && CooldownsEnded(files.ledger, r.model, t.now)
    ensures AdmitTx(Replay(files.ledger).value, files.queue, r, dead, t).reason != Some(Throughput)
  {
    LedgerWarm(files.ledger, r.model, t.now);
    WarmReason(Replay(files.ledger).value, files.queue, r, dead, t);
  }

  lemma WarmReason(st: State, file: Option<Queue>, r: Request, dead: set<string>, t: Ticks)
    requires Warm(st, r.model, t.now)
    ensures AdmitTx(st, file, r, dead, t).reason != Some(Throughput)
  {
    assert Obstacle(st, QueueOf(st, file), r, dead, t) != Some(Throughput);
  }
}

/** Calibration: while nothing is known about what a model costs, its sessions run one at
    a time. */
module Calibration {
  import opened Wrappers
  import opened Ledger
  import opened Selection
  import opened Receipts
  import opened Writers
  import opened Queueing

  /** The session tells something about what its model costs: it settled at a positive cost,
      or it holds a positive reservation. */
  predicate Tells(s: Session, model: string) {
    s.model == model && (if s.status == Settled then Cost(s) > 0.0 else s.reserve.GetOr(0.0) > 0.0)
  }

  predicate NothingKnown(ss: seq<Session>, model: string) {
    forall i :: 0 <= i < |ss| ==> !Tells(ss[i], model)
  }

  lemma {:induction false} KeepFinds(f: Filter, ss: seq<Session>, i: nat)
    requires i < |ss| && Matches(f, ss[i])
    ensures ss[i] in Keep(f, ss)
    decreases |ss|
  {
    if i < |ss| - 1 {
      KeepFinds(f, ss[..|ss| - 1], i);
    }
  }

  lemma {:induction false} ReservesFound(ss: seq<Session>, i: nat)
    requires i < |ss| && ss[i].reserve.GetOr(0.0) > 0.0
    ensures Reserves(ss) != []
    decreases |ss|
  {
    if i < |ss| - 1 {
      ReservesFound(ss[..|ss| - 1], i);
    }
  }

  lemma {:induction false} ReservesNone(ss: seq<Session>)
    requires forall s :: s in ss ==> s.reserve.GetOr(0.0) <= 0.0
    ensures Reserves(ss) == []
    decreases |ss|
  {
    if ss != [] {
      ReservesNone(ss[..|ss| - 1]);
    }
  }

  lemma KeptSelects(ss: seq<Session>, f: Filter)
    requires f.limit.None? || f.limit.value > 0
    ensures Select(ss, f) == [] <==> Keep(f, ss) == []
  {
  }

  /** There is no sample exactly when no session tells what the model costs. */
  lemma SampleEmpty(ss: seq<Session>, model: string, phase: Option<string>)
    ensures CostSample(ss, model, phase, true) == [] <==> NothingKnown(ss, model)
  {
    var settled := ALL.(model := Some(model), settled := true, positive := true, limit := Some(20));
    var open := ALL.(model := Some(model), active := true);
    KeptSelects(ss, settled);
    KeptSelects(ss, settled.(phase := phase));
    if !NothingKnown(ss, model) {
      var i :| 0 <= i < |ss| && Tells(ss[i], model);
      if ss[i].status == Settled {
        KeepFinds(settled, ss, i);
      } else {
        KeepFinds(open, ss, i);
        var rows := Select(ss, open);
        assert ss[i] in rows;
        var j :| 0 <= j < |rows| && rows[j] == ss[i];
        ReservesFound(rows, j);
      }
    } else {
      SettledNone(ss, model, settled);
      SettledNone(ss, model, settled.(phase := phase));
      forall s | s in Select(ss, open) ensures s.reserve.GetOr(0.0) <= 0.0 {
        var i :| 0 <= i < |ss| && ss[i] == s;
        assert !Tells(ss[i], model);
      }
      ReservesNone(Select(ss, open));
    }
  }

  /** Each sampled cost is that of a session of the model: what a settled one cost, of the
      phase if one of the phase settled; or, as long as none settled, a reservation. */
  predicate Samples(ss: seq<Session>, i: nat, model: string, phase: string, c: real) {
    && i < |ss| && ss[i].model == model && c > 0.0
    && (if ss[i].status == Settled
        then Cost(ss[i]) == c && (SettledOf(ss, model, Some(phase)) ==> ss[i].phase == phase)
        else ss[i].reserve == Some(c) && !SettledOf(ss, model, None))
  }

  predicate SettledOf(ss: seq<Session>, model: string, phase: Option<string>) {
    exists i :: && 0 <= i < |ss| && ss[i].model == model && ss[i].status == Settled && Cost(ss[i]) > 0.0
                && (phase.Some? ==> ss[i].phase == phase.value)
  }

  lemma SettledRows(ss: seq<Session>, f: Filter)
    requires f == ALL.(model := f.model, settled := true, positive := true, phase := f.phase, limit := Some(20))
    requires f.model.Some?
    ensures Costs(Select(ss, f)) == [] <==> !SettledOf(ss, f.model.value, f.phase)
  {
    KeptSelects(ss, f);
    if SettledOf(ss, f.model.value, f.phase) {
      var i :| && 0 <= i < |ss| && ss[i].model == f.model.value && ss[i].status == Settled && Cost(ss[i]) > 0.0
               && (f.phase.Some? ==> ss[i].phase == f.phase.value);
      KeepFinds(f, ss, i);
    } else {
      KeepNone(f, ss);
    }
  }

  lemma CostRow(ss: seq<Session>, f: Filter, c: real) returns (i: nat)
    requires c in Costs(Select(ss, f))
    ensures i < |ss| && Matches(f, ss[i]) && Cost(ss[i]) == c
  {
    var rows := Select(ss, f);
    var j :| 0 <= j < |rows| && Costs(rows)[j] == c;
    assert rows[j] in rows;
    i :| 0 <= i < |ss| && ss[i] == rows[j];
  }

  lemma {:induction false} ReserveRow(rows: seq<Session>, c: real) returns (j: nat)
    requires c in Reserves(rows)
    ensures j < |rows| && rows[j].reserve == Some(c)
    decreases |rows|
  {
    var n := |rows| - 1;
    if c in Reserves(rows[..n]) {
      j := ReserveRow(rows[..n], c);
    } else {
      j := n;
    }
  }

  lemma RawFrom(ss: seq<Session>, model: string, phase: string, c: real) returns (i: nat)
    requires phase != "" && c in RawSample(ss, model, Some(phase), true)
    ensures Samples(ss, i, model, phase, c)
  {
    var settled := ALL.(model := Some(model), settled := true, positive := true, limit := Some(20));
    var phased := settled.(phase := Some(phase));
    SettledRows(ss, settled);
    SettledRows(ss, phased);
    if SettledOf(ss, model, Some(phase)) {
      i := CostRow(ss, phased, c);
    } else if SettledOf(ss, model, None) {
      i := CostRow(ss, settled, c);
    } else {
      var rows := Select(ss, ALL.(model := Some(model), active := true));
      var j := ReserveRow(rows, c);
      assert rows[j] in rows;
      i :| 0 <= i < |ss| && ss[i] == rows[j];
    }
  }

  /** Where the costs come from that an admission estimate is based on. */
  lemma SampleFrom(ss: seq<Session>, model: string, phase: string, c: real) returns (i: nat)
    requires phase != "" && c in CostSample(ss, model, Some(phase), true)
    ensures Samples(ss, i, model, phase, c)
  {
    var raw := RawSample(ss, model, Some(phase), true);
    SortMembers(LastRows(raw, Some(20)), c);
    LastMembers(raw, Some(20), c);
    i := RawFrom(ss, model, phase, c);
  }

  lemma {:induction false} KeepNone(f: Filter, ss: seq<Session>)
    requires forall i :: 0 <= i < |ss| ==> !Matches(f, ss[i])
    ensures Keep(f, ss) == []
    decreases |ss|
  {
    if ss != [] {
      KeepNone(f, ss[..|ss| - 1]);
    }
  }

  lemma SettledNone(ss: seq<Session>, model: string, f: Filter)
    requires NothingKnown(ss, model) && f.model == Some(model) && f.settled && f.positive
    ensures Keep(f, ss) == []
  {
    forall i | 0 <= i < |ss| ensures !Matches(f, ss[i]) {
      assert !Tells(ss[i], model);
    }
    KeepNone(f, ss);
  }

  /** While nothing is known about what a model costs, none of its sessions is admitted
      beside a live one; and that is the reason only then. */
  lemma CalibratesFirst(files: Files, r: Request, dead: set<string>, t: Ticks)
    requires Readable(files)
    ensures var ss := Replay(files.ledger).value.sessions;
            var unknown := NothingKnown(ss, r.model) && LiveModel(ss, dead, r.model);
            && (unknown ==> !Admits(files, Launch(r, dead), t))
            && (!unknown ==> AdmitTx(Replay(files.ledger).value, files.queue, r, dead, t).reason != Some(Calibrating))
  {
    var st := Replay(files.ledger).value;
    SampleEmpty(st.sessions, r.model, Some(r.phase));
    CalibrationReason(st, files.queue, r, dead, t);
  }

  lemma CalibrationReason(st: State, file: Option<Queue>, r: Request, dead: set<string>, t: Ticks)
    ensures var ss := st.sessions;
            var unknown := CostSample(ss, r.model, Some(r.phase), true) == [] && LiveModel(ss, dead, r.model);
            var a := AdmitTx(st, file, r, dead, t);
            && (unknown ==> !(a.tx.Append? && a.reason.None?))
            && (!unknown ==> a.reason != Some(Calibrating))
  {
    CalibrationObstacle(st, QueueOf(st, file), r, dead, t);
    ReasonOf(st, file, r, dead, t, Obstacle(st, QueueOf(st, file), r, dead, t));
  }

  lemma CalibrationObstacle(st: State, queue: Queue, r: Request, dead: set<string>, t: Ticks)
    ensures var ss := st.sessions;
            var unknown := CostSample(ss, r.model, Some(r.phase), true) == [] && LiveModel(ss, dead, r.model);
            && (unknown ==> Obstacle(st, queue, r, dead, t).Some?)
            && (!unknown ==> Obstacle(st, queue, r, dead, t) != Some(Calibrating))
  {
  }

  lemma ReasonOf(st: State, file: Option<Queue>, r: Request, dead: set<string>, t: Ticks, reason: Option<Reason>)
    requires reason == Obstacle(st, QueueOf(st, file), r, dead, t)
    ensures var a := AdmitTx(st, file, r, dead, t);
            && (a.tx.Append? && a.reason.None? ==> reason.None?)
            && (a.reason.Some? ==> a.reason == reason)
  {
  }
}
