/** Every writer appends honest events only, so every step keeps the books balanced. */
module HonestWriters {
  import opened Wrappers
  import opened Ledger
  import opened Receipts
  import opened Writers
  import opened Conservation
  import opened Corrections
  import opened ReceiptEffects

  // --------------------------------------------------------- event sequences

  lemma AccrueHonest(st: State, clock: real, rest: seq<Event>, stamp: real)
    requires HonestAll(Accrued(st, clock), rest, stamp)
    ensures HonestAll(st, [AccrueEvent(st, clock)] + rest, stamp)
  {
    var events := [AccrueEvent(st, clock)] + rest;
    assert events[1..] == rest;
    assert Apply(st, events[0], stamp) == Some(Accrued(st, clock));
  }

  /** Reversing a charged prefix, when there is one, and then settling. */
  lemma SettleHonest(st: State, id: string, undone: bool, settle: Event, stamp: real)
    requires UniqueIds(st.sessions) && Has(st.sessions, id) && Get(st.sessions, id).status != Settled
    requires settle.Settle? && settle.id == id
    requires !undone ==> Cost(Get(st.sessions, id)) == 0.0
    ensures var undo := if undone then [Correct(id, Cost(Get(st.sessions, id)), 0.0, None, None, Unstated)] else [];
            HonestAll(st, undo + [settle], stamp)
  {
    if undone {
      var k := IndexOf(st.sessions, id);
      var undo := Correct(id, Cost(st.sessions[k]), 0.0, None, None, Unstated);
      CorrectOne(st, undo, k, stamp);
      var mid := Apply(st, undo, stamp).value;
      IndexOfUnique(mid.sessions, k);
      assert HonestAll(mid, [settle], stamp);
      assert ([undo] + [settle])[1..] == [settle];
    } else {
      assert [] + [settle] == [settle];
    }
  }

  /** Marking the sessions whose bridge disappeared changes only their status. */
  predicate Marked(ss: seq<Session>, after: seq<Session>, upto: nat, dead: set<string>)
    requires upto <= |ss|
  {
    && |after| == |ss|
    && (forall k :: 0 <= k < upto ==>
          after[k] == if Orphan(ss[k], dead) then ss[k].(status := Unresolved) else ss[k])
    && (forall k :: upto <= k < |ss| ==> after[k] == ss[k])
  }

  lemma MarkOne(st: State, mid: State, k: nat, dead: set<string>, stamp: real)
    requires UniqueIds(st.sessions) && k < |st.sessions|
    requires Marked(st.sessions, mid.sessions, k, dead) && Orphan(st.sessions[k], dead)
    requires mid == st.(sessions := mid.sessions)
    ensures var e := Unresolve(st.sessions[k].id, false, Unstated, None);
            && HonestAll(mid, [e], stamp)
            && ApplyAll(mid, [e], stamp).Some?
            && var next := ApplyAll(mid, [e], stamp).value;
               Marked(st.sessions, next.sessions, k + 1, dead) && next == st.(sessions := next.sessions)
  {
    assert forall j :: 0 <= j < |st.sessions| ==> mid.sessions[j].id == st.sessions[j].id;
    IndexOfUnique(mid.sessions, k);
    var e := Unresolve(st.sessions[k].id, false, Unstated, None);
    var u := Unresolving(mid.sessions[k], e);
    PutInPlace(mid.sessions, u);
    assert u == st.sessions[k].(status := Unresolved);
    assert Apply(mid, e, stamp) == Some(mid.(sessions := mid.sessions[k := u]));
  }

  lemma {:induction false} OrphansApply(st: State, upto: nat, dead: set<string>, stamp: real)
    requires UniqueIds(st.sessions) && upto <= |st.sessions|
    ensures var events := Orphans(st.sessions[..upto], dead);
            && HonestAll(st, events, stamp)
            && ApplyAll(st, events, stamp).Some?
            && var next := ApplyAll(st, events, stamp).value;
               Marked(st.sessions, next.sessions, upto, dead) && next == st.(sessions := next.sessions)
  {
    var ss := st.sessions;
    if upto > 0 {
      var k := upto - 1;
      OrphansApply(st, k, dead, stamp);
      assert ss[..upto][..k] == ss[..k];
      var init := Orphans(ss[..k], dead);
      if Orphan(ss[k], dead) {
        var e := Unresolve(ss[k].id, false, Unstated, None);
        MarkOne(st, ApplyAll(st, init, stamp).value, k, dead, stamp);
        HonestConcat(st, init, [e], stamp);
        ApplyAllConcat(st, init, [e], stamp);
      } else {
        assert init + [] == init;
      }
    }
  }

  // ------------------------------------------------------------ the writers

  lemma ReceiptHonest(st: State, r: Receipt, host: Host, t: Ticks)
    requires UniqueIds(st.sessions)
    requires r.totals.Some? ==> DistinctKeys(r.totals.value)
    ensures var tx := ReceiptTx(st, r, host, t); tx.Append? ==> HonestAll(st, tx.events, t.stamp)
  {
    if Screened(st, r, host, t).None? {
      var k := IndexOf(st.sessions, r.id);
      var totals := FinalTotals(r);
      if totals.Some? {
        if ClampAll(st.sessions, k, totals.value).Some? {
          if st.sessions[k].status == Settled {
            LateHonest(st, k, r, totals.value, t);
          } else {
            FirstHonest(st, k, r, totals.value, t);
          }
        } else {
          HoldHonest(st, r.id, FinishOf(r.finished), false, None, t);
        }
      } else {
        BoundHonest(st, r, t);
        HoldHonest(st, r.id, FinishOf(r.finished), false, None, t);
      }
    }
  }

  lemma HoldHonest(st: State, id: string, finish: Finish, provisional: bool, hold: Option<Hold>, t: Ticks)
    requires Has(st.sessions, id)
    ensures Get(st.sessions, id).status != Settled ==>
              HonestAll(st, [AccrueEvent(st, t.accrual), Unresolve(id, provisional, finish, hold)], t.stamp)
  {
    if Get(st.sessions, id).status != Settled {
      var e := Unresolve(id, provisional, finish, hold);
      assert HonestAll(Accrued(st, t.accrual), [e], t.stamp);
      AccrueHonest(st, t.accrual, [e], t.stamp);
      assert [AccrueEvent(st, t.accrual)] + [e] == [AccrueEvent(st, t.accrual), e];
    }
  }

  lemma BoundHonest(st: State, r: Receipt, t: Ticks)
    requires Has(st.sessions, r.id) && Get(st.sessions, r.id).status != Settled
    ensures var tx := LowerBoundTx(st, r, t);
            tx.Some? && tx.value.Append? ==> HonestAll(st, tx.value.events, t.stamp)
  {
    var tx := LowerBoundTx(st, r, t);
    if tx.Some? && tx.value.Append? {
      HoldHonest(st, r.id, tx.value.events[1].finish, LowerBoundOnly(r), tx.value.events[1].hold, t);
    }
  }

  lemma LateHonest(st: State, k: nat, r: Receipt, entries: Entries, t: Ticks)
    requires UniqueIds(st.sessions) && k < |st.sessions| && DistinctKeys(entries)
    requires st.sessions[k].status == Settled
    requires ClampAll(st.sessions, k, entries).Some?
    ensures var tx := NativeTx(st, k, r, entries, ClampAll(st.sessions, k, entries).value, t);
            tx.Append? ==> HonestAll(st, tx.events, t.stamp)
  {
    var s := st.sessions[k];
    var cost := Charge(st.sessions[..k], entries);
    var later := Rebase(st.sessions, k + 1, AsTotals(entries).Keys, cost - Cost(s));
    if later.Ok? {
      var own := OwnCorrection(s, r, entries, cost);
      var clamps := ClampAll(st.sessions, k, entries).value;
      LateEventsHonest(Accrued(st, t.accrual), k, entries, clamps, own, later.value, cost - Cost(s), t.stamp);
      AccrueHonest(st, t.accrual, clamps + ([own] + later.value), t.stamp);
    }
  }

  lemma LateEventsHonest(base: State, k: nat, entries: Entries, clamps: seq<Event>, own: Event, later: seq<Event>,
                         delta: real, stamp: real)
    requires UniqueIds(base.sessions) && k < |base.sessions| && DistinctKeys(entries)
    requires ClampAll(base.sessions, k, entries) == Some(clamps)
    requires Rebase(base.sessions, k + 1, AsTotals(entries).Keys, delta) == Ok(later)
    requires own.Correct? && own.id == base.sessions[k].id && own.delta == Cost(base.sessions[k]) - own.cost
    ensures HonestAll(base, clamps + ([own] + later), stamp)
  {
    var events := clamps + [own] + later;
    assert clamps + ([own] + later) == events;
    LateTargets(base.sessions, k, entries, own, delta);
    CorrectAll(base, events, LateAt(base.sessions, k, entries), stamp);
  }

  lemma FirstHonest(st: State, k: nat, r: Receipt, entries: Entries, t: Ticks)
    requires UniqueIds(st.sessions) && k < |st.sessions| && DistinctKeys(entries)
    requires st.sessions[k].status != Settled
    requires ClampAll(st.sessions, k, entries).Some?
    ensures var tx := NativeTx(st, k, r, entries, ClampAll(st.sessions, k, entries).value, t);
            tx.Append? && HonestAll(st, tx.events, t.stamp)
  {
    var s := st.sessions[k];
    var clamps := ClampAll(st.sessions, k, entries).value;
    var st1 := Accrued(st, t.accrual);
    ClampAllTargets(st.sessions, k, entries);
    CorrectAll(st1, clamps, ClampAt(st.sessions, k, entries), t.stamp);
    var mid := ApplyAll(st1, clamps, t.stamp).value;
    assert k !in ClampAt(st.sessions, k, entries);
    IndexOfUnique(mid.sessions, k);
    var ending := SettleEvents(s, r, entries, Charge(st.sessions[..k], entries));
    SettleHonest(mid, s.id, Cost(s) != 0.0, ending[|ending| - 1], t.stamp);
    HonestConcat(st1, clamps, ending, t.stamp);
    AccrueHonest(st, t.accrual, clamps + ending, t.stamp);
  }

  lemma PrefixHonest(st: State, k: nat, stamp: (string, real), cost: real, tail: real, at: real)
    requires UniqueIds(st.sessions) && k < |st.sessions| && st.sessions[k].status != Settled
    ensures HonestAll(st, PrefixEvents(st.sessions[k], stamp, cost, tail), at)
  {
    var events := PrefixEvents(st.sessions[k], stamp, cost, tail);
    CorrectOne(st, events[0], k, at);
    var mid := Apply(st, events[0], at).value;
    IndexOfUnique(mid.sessions, k);
    assert HonestAll(mid, [events[1]], at);
    assert events[1..] == [events[1]];
  }

  lemma RecoverHonest(st: State, id: string, saved: Option<Saved>, live: bool, t: Ticks)
    requires UniqueIds(st.sessions)
    ensures var tx := RecoverTx(st, id, saved, live, t); tx.Append? ==> HonestAll(st, tx.events, t.stamp)
  {
    var tx := RecoverTx(st, id, saved, live, t);
    if tx.Append? {
      var st1 := Accrued(st, t.accrual);
      var k := IndexOf(st.sessions, id);
      var s := st.sessions[k];
      var cost := Max(saved.value.cost, s.lowerCost.GetOr(0.0));
      if saved.value.complete {
        var events := EstimateEvents(s, st.sessions[..k], saved.value, cost);
        SettleHonest(st1, id, Cost(s) != 0.0, events[|events| - 1], t.stamp);
        AccrueHonest(st, t.accrual, events, t.stamp);
      } else {
        var tail := tx.events[2].hold.value.reserve;
        PrefixHonest(st1, k, (saved.value.mark, cost), cost, tail, t.stamp);
        AccrueHonest(st, t.accrual, PrefixEvents(s, (saved.value.mark, cost), cost, tail), t.stamp);
      }
    }
  }

  lemma SettleCostHonest(st: State, id: string, cost: Option<real>, outcome: string, noted: bool, totals: Totals,
                         provenance: Provenance, finished: Option<real>, t: Ticks)
    requires UniqueIds(st.sessions)
    ensures var tx := SettleTx(st, id, cost, outcome, noted, totals, provenance, finished, t);
            tx.Append? ==> HonestAll(st, tx.events, t.stamp)
  {
    var tx := SettleTx(st, id, cost, outcome, noted, totals, provenance, finished, t);
    if tx.Append? {
      if cost.Some? {
        ResetHonest(st, id, tx.events[|tx.events| - 1], t);
      } else {
        HoldHonest(st, id, FinishOf(finished), false, None, t);
      }
    }
  }

  lemma ResetHonest(st: State, id: string, settle: Event, t: Ticks)
    requires UniqueIds(st.sessions) && Has(st.sessions, id) && Get(st.sessions, id).status != Settled
    requires settle.Settle? && settle.id == id
    ensures HonestAll(st, [AccrueEvent(st, t.accrual)] + (Reset(Get(st.sessions, id)) + [settle]), t.stamp)
  {
    var s := Get(st.sessions, id);
    SettleHonest(Accrued(st, t.accrual), id, s.cost.Some?, settle, t.stamp);
    AccrueHonest(st, t.accrual, Reset(s) + [settle], t.stamp);
  }

  lemma ReconcileHonest(st: State, id: string, cost: real, noted: bool, alive: bool, t: Ticks)
    requires UniqueIds(st.sessions)
    ensures var tx := ReconcileTx(st, id, cost, noted, alive, t); tx.Append? ==> HonestAll(st, tx.events, t.stamp)
  {
    var tx := ReconcileTx(st, id, cost, noted, alive, t);
    if tx.Append? {
      var s := Get(st.sessions, id);
      if s.status != Settled {
        ResetHonest(st, id, tx.events[|tx.events| - 1], t);
      } else {
        var e := tx.events[1];
        CorrectOne(Accrued(st, t.accrual), e, IndexOf(st.sessions, id), t.stamp);
        AccrueHonest(st, t.accrual, [e], t.stamp);
        assert tx.events == [AccrueEvent(st, t.accrual)] + [e];
      }
    }
  }

  /** The transaction of an admission attempt: marked orphans, then one last event. */
  lemma AttemptHonest(st: State, dead: set<string>, last: Event, t: Ticks)
    requires UniqueIds(st.sessions)
    requires last.Wait? || (last.Admit? && Honest(st, last))
    ensures HonestAll(st, [AccrueEvent(st, t.accrual)] + (Orphans(st.sessions, dead) + [last]), t.stamp)
  {
    var st1 := Accrued(st, t.accrual);
    var n := |st.sessions|;
    assert st.sessions[..n] == st.sessions;
    OrphansApply(st1, n, dead, t.stamp);
    var lost := Orphans(st.sessions, dead);
    var mid := ApplyAll(st1, lost, t.stamp).value;
    if last.Admit? {
      MarkedIds(st.sessions, mid.sessions, n, dead, last.session.id);
    }
    LastHonest(mid, last, t.stamp);
    HonestConcat(st1, lost, [last], t.stamp);
    AccrueHonest(st, t.accrual, lost + [last], t.stamp);
  }

  lemma AdmitHonest(st: State, queue: Option<Queue>, r: Request, dead: set<string>, t: Ticks)
    requires UniqueIds(st.sessions)
    ensures var tx := AdmitTx(st, queue, r, dead, t).tx; tx.Append? ==> HonestAll(st, tx.events, t.stamp)
  {
    var tx := AdmitTx(st, queue, r, dead, t).tx;
    if tx.Append? {
      var last := AttemptEvents(st, queue, r, dead, t);
      AttemptHonest(st, dead, last, t);
    }
  }

  lemma MarkedIds(ss: seq<Session>, after: seq<Session>, upto: nat, dead: set<string>, id: string)
    requires upto <= |ss| && Marked(ss, after, upto, dead) && !Has(ss, id)
    ensures !Has(after, id)
  {
    assert forall k :: 0 <= k < |ss| ==> after[k].id == ss[k].id;
  }

  lemma LastHonest(st: State, e: Event, stamp: real)
    requires e.Wait? || (e.Admit? && Honest(st, e))
    ensures HonestAll(st, [e], stamp)
  {
  }

  lemma ConfigureHonest(st: State, grant: Option<real>, target: Option<real>, rate: Option<real>, t: Ticks)
    ensures var tx := ConfigureTx(st, grant, target, rate, t); tx.Append? ==> HonestAll(st, tx.events, t.stamp)
  {
    var tx := ConfigureTx(st, grant, target, rate, t);
    if tx.Append? {
      PlainHonest(Accrued(st, t.accrual), tx.events[1..], t.stamp);
      AccrueHonest(st, t.accrual, tx.events[1..], t.stamp);
    }
  }

  lemma {:induction false} PlainHonest(st: State, events: seq<Event>, stamp: real)
    requires forall i :: 0 <= i < |events| ==>
               events[i].Grant? || events[i].Adjust? || events[i].SetRate? || events[i].Cooldown?
    ensures HonestAll(st, events, stamp)
    decreases |events|
  {
    if events != [] {
      PlainHonest(Apply(st, events[0], stamp).value, events[1..], stamp);
    }
  }

  lemma WriterHonest(st: State, queue: Option<Queue>, op: Op, t: Ticks)
    requires UniqueIds(st.sessions) && WellFormed(op)
    ensures var tx := TxOf(st, queue, op, t); tx.Append? ==> HonestAll(st, tx.events, t.stamp)
  {
    match op
    case Configure(grant, target, rate) => ConfigureHonest(st, grant, target, rate, t);
    case Launch(request, dead) => AdmitHonest(st, queue, request, dead, t);
    case SettleCost(id, cost, outcome, noted, totals, provenance, finished) =>
      SettleCostHonest(st, id, cost, outcome, noted, totals, provenance, finished, t);
    case Reconcile(id, amount, noted, alive) => ReconcileHonest(st, id, amount, noted, alive, t);
    case SettleReceipt(receipt, host) => ReceiptHonest(st, receipt, host, t);
    case RecoverUsage(id, saved, live) => RecoverHonest(st, id, saved, live, t);
    case CoolDown(model, seconds) =>
      var tx := CooldownTx(st, model, seconds, t);
      assert tx.events == [AccrueEvent(st, t.accrual)] + tx.events[1..];
      PlainHonest(Accrued(st, t.accrual), tx.events[1..], t.stamp);
      AccrueHonest(st, t.accrual, tx.events[1..], t.stamp);
    case Queued(_, _, _, _, _) =>
    case Refresh(_) =>
  }

  // -------------------------------------------------------------- one step

  lemma {:induction false} HonestNumber(st: State, events: seq<Event>, stamp: real, n: nat)
    requires HonestAll(st, events, stamp)
    ensures HonestAll(st.(number := n), events, stamp)
    decreases |events|
  {
    if events != [] {
      var next := Apply(st, events[0], stamp).value;
      assert Apply(st.(number := n), events[0], stamp) == Some(next.(number := n));
      HonestNumber(next, events[1..], stamp, n);
    }
  }

  /** The ledger replays, and its books balance against what its events put in:
      spending is the sum of the session costs, and what remains plus what was
      spent is what was granted, adjusted and earned. */
  ghost predicate Sound(ledger: seq<Record>) {
    && Replay(ledger).Some?
    && UniqueIds(Replay(ledger).value.sessions)
    && Balanced(Replay(ledger).value, FundOf(ledger))
  }

  /** A transaction of honest events keeps the ledger sound. */
  lemma TxSound(files: Files, st: State, tx: Tx, queue: Option<Queue>, t: Ticks)
    requires Sound(files.ledger) && Replay(files.ledger) == Some(st)
    requires tx.Append? ==> HonestAll(st, tx.events, t.stamp)
    ensures Sound(Left(files, st, tx, queue, t).ledger)
  {
    if tx.Append? {
      var rec := RecordOf(st, tx.events, t);
      HonestNumber(st, tx.events, t.stamp, rec.number);
      HonestAllApplies(st.(number := rec.number), tx.events, FundOf(files.ledger), t.stamp);
      ReplayAppend(files.ledger, rec);
      assert (files.ledger + [rec])[..|files.ledger|] == files.ledger;
    }
  }
}
