/** Telescoping over whole runs: costs through any authoritative receipt sum exactly
    to the total that the receipt reported. */
module ChainTheorems {
  import opened Wrappers
  import opened Ledger
  import opened Receipts
  import opened Writers
  import opened Chains
  import opened Telescoping
  import opened ChainRuns
  import opened ChainSteps

  // ------------------------------------------------------------ one receipt

  /** The receipt names one provider, which is the session's own or a new one, and
      a late receipt does not fall below a chain that continues after its session. */
  predicate ReceiptAccountable(ss: seq<Session>, r: Receipt) {
    FinalTotals(r).Some? && Has(ss, r.id) && Replaceable(Get(ss, r.id)) ==>
      var k, totals := IndexOf(ss, r.id), FinalTotals(r).value;
      && |totals| == 1
      && Names(ss, k, totals[0].0)
      && (ss[k].status == Settled ==>
            totals[0].1 >= Baseline(ss[..k], totals[0].0) || NoneLater(ss, k, totals[0].0))
  }

  /** Not yet settled by an authoritative receipt. */
  predicate Replaceable(s: Session) {
    s.status != Settled || Estimated(s.provenance)
  }

  /** A saved journal has nonnegative cost and names the session's own provider or a new one. */
  predicate UsageAccountable(ss: seq<Session>, id: string, saved: Option<Saved>) {
    saved.Some? && Has(ss, id) && Get(ss, id).status != Settled ==>
      && saved.value.cost >= 0.0
      && var p := Primary(Get(ss, id), saved.value);
         p.Some? ==> Names(ss, IndexOf(ss, id), p.value)
  }

  /** Writer calls other than manual settlements. */
  predicate Accountable(st: State, op: Op) {
    match op
    case SettleCost(_, cost, _, _, _, _, _) => cost.None?
    case Reconcile(_, _, _, _) => false
    case SettleReceipt(r, _) => ReceiptAccountable(st.sessions, r)
    case RecoverUsage(id, saved, _) => UsageAccountable(st.sessions, id, saved)
    case _ => true
  }

  lemma NativeStep(st: State, k: nat, r: Receipt, p: string, native: real, clamps: seq<Event>, t: Ticks)
    requires Chained(st.sessions) && k < |st.sessions| && Replaceable(st.sessions[k])
    requires Names(st.sessions, k, p)
    requires st.sessions[k].status == Settled ==>
               native >= Baseline(st.sessions[..k], p) || NoneLater(st.sessions, k, p)
    requires ClampAll(st.sessions, k, [(p, native)]) == Some(clamps)
    ensures ChainedAfter(st, NativeTx(st, k, r, [(p, native)], clamps, t), t)
  {
    if st.sessions[k].status == Settled {
      LateStep(st, k, r, p, native, clamps, t);
      var tx := NativeTx(st, k, r, [(p, native)], clamps, t);
      if !tx.Append? {
        Unchanged(st, tx, t);
      }
    } else {
      FirstStep(st, k, r, p, native, clamps, t);
    }
  }

  lemma BoundStep(st: State, r: Receipt, t: Ticks)
    requires Chained(st.sessions) && Has(st.sessions, r.id) && Get(st.sessions, r.id).status != Settled
    requires LowerBoundTx(st, r, t).Some?
    ensures ChainedAfter(st, LowerBoundTx(st, r, t).value, t)
  {
    var tx := LowerBoundTx(st, r, t).value;
    if tx.Append? {
      HoldStep(st, r.id, LowerBoundOnly(r), FinishOf(r.finished), tx.events[1].hold, t);
    } else {
      Unchanged(st, tx, t);
    }
  }

  lemma ReceiptStep(st: State, r: Receipt, host: Host, t: Ticks)
    requires Chained(st.sessions) && ReceiptAccountable(st.sessions, r)
    ensures ChainedAfter(st, ReceiptTx(st, r, host, t), t)
  {
    var tx := ReceiptTx(st, r, host, t);
    if !tx.Append? {
      Unchanged(st, tx, t);
    } else {
      var k := IndexOf(st.sessions, r.id);
      var totals := FinalTotals(r);
      if totals.None? && LowerBoundTx(st, r, t).Some? {
        BoundStep(st, r, t);
      } else if totals.Some? && ClampAll(st.sessions, k, totals.value).Some? {
        assert totals.value == [(totals.value[0].0, totals.value[0].1)];
        NativeStep(st, k, r, totals.value[0].0, totals.value[0].1, ClampAll(st.sessions, k, totals.value).value, t);
      } else {
        HoldStep(st, r.id, false, FinishOf(r.finished), None, t);
      }
    }
  }

  lemma UsageStep(st: State, id: string, saved: Option<Saved>, live: bool, t: Ticks)
    requires Chained(st.sessions) && UsageAccountable(st.sessions, id, saved)
    ensures ChainedAfter(st, RecoverTx(st, id, saved, live, t), t)
  {
    var tx := RecoverTx(st, id, saved, live, t);
    if !tx.Append? {
      Unchanged(st, tx, t);
    } else {
      var k := IndexOf(st.sessions, id);
      var cost := Max(saved.value.cost, st.sessions[k].lowerCost.GetOr(0.0));
      if saved.value.complete {
        EstimateStep(st, k, saved.value, cost, t);
      } else {
        PrefixStep(st, k, (saved.value.mark, cost), cost, tx.events[2].hold.value.reserve, t);
      }
    }
  }

  lemma ConfigureStep(st: State, grant: Option<real>, target: Option<real>, rate: Option<real>, t: Ticks)
    requires Chained(st.sessions)
    ensures ChainedAfter(st, ConfigureTx(st, grant, target, rate, t), t)
  {
    var tx := ConfigureTx(st, grant, target, rate, t);
    if tx.Append? {
      PlainStep(st, tx.events[1..], t);
    } else {
      Unchanged(st, tx, t);
    }
  }

  /** Every accountable writer call keeps the chain invariant, and no authoritative
      session ever changes its totals. */
  lemma WriterStep(st: State, queue: Option<Queue>, op: Op, t: Ticks)
    requires Chained(st.sessions) && Accountable(st, op)
    ensures ChainedAfter(st, TxOf(st, queue, op, t), t)
  {
    match op
    case Configure(grant, target, rate) => ConfigureStep(st, grant, target, rate, t);
    case Launch(request, dead) => LaunchStep(st, queue, request, dead, t);
    case SettleCost(id, cost, outcome, noted, totals, provenance, finished) =>
      var tx := SettleTx(st, id, cost, outcome, noted, totals, provenance, finished, t);
      if tx.Append? {
        HoldStep(st, id, false, FinishOf(finished), None, t);
      } else {
        Unchanged(st, tx, t);
      }
    case SettleReceipt(receipt, host) => ReceiptStep(st, receipt, host, t);
    case RecoverUsage(id, saved, live) => UsageStep(st, id, saved, live, t);
    case CoolDown(model, seconds) =>
      var tx := CooldownTx(st, model, seconds, t);
      assert tx.events == [AccrueEvent(st, t.accrual)] + tx.events[1..];
      PlainStep(st, tx.events[1..], t);
    case Queued(_, _, _, _, _) => Unchanged(st, NoChange, t);
    case Refresh(_) => Unchanged(st, NoChange, t);
  }

  // --------------------------------------------------------------- whole runs

  /** The ledger replays to a chained state. */
  predicate ChainedLedger(ledger: seq<Record>) {
    Replay(ledger).Some? && Chained(Replay(ledger).value.sessions)
  }

  lemma StepChained(files: Files, op: Op, t: Ticks)
    requires ChainedLedger(files.ledger) && Accountable(Replay(files.ledger).value, op)
    ensures ChainedLedger(Step(files, op, t).ledger)
    ensures AuthorityKept(Replay(files.ledger).value.sessions, Replay(Step(files, op, t).ledger).value.sessions)
  {
    var st := Replay(files.ledger).value;
    var tx, queue := TxOf(st, files.queue, op, t), QueueAfter(st, files.queue, op, t);
    WriterStep(st, files.queue, op, t);
    TxChained(files, st, tx, queue, t);
  }

  lemma TxChained(files: Files, st: State, tx: Tx, queue: Option<Queue>, t: Ticks)
    requires Replay(files.ledger) == Some(st) && ChainedAfter(st, tx, t)
    ensures var next := Left(files, st, tx, queue, t).ledger;
            ChainedLedger(next) && AuthorityKept(st.sessions, Replay(next).value.sessions)
  {
    if tx.Append? {
      ReplayAppend(files.ledger, RecordOf(st, tx.events, t));
    }
  }
}
