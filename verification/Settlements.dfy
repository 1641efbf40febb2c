/** What settlements by hand or with a given cost leave of their session. */
module Settlements {
  import opened Wrappers
  import opened Ledger
  import opened Receipts
  import opened Writers
  import opened Conservation
  import opened HonestWriters
  import opened Charges
  import opened RunConservation
  import ChainRuns
  import ChainSteps
  import Corrections

  /** What a settlement with this cost, or with none, makes of an open session. */
  predicate CostOutcome(s: Session, was: Session, cost: Option<real>, totals: Totals, provenance: Provenance) {
    if cost.Some?
    then s.status == Settled && s.cost == cost && s.totals == totals && s.provenance == Some(provenance)
    else s.status == Unresolved && s.cost == was.cost && s.reserve == was.reserve && s.estimate == was.estimate
  }

  /** Reversing a prefix, if one is recorded, and settling session k. */
  lemma ResetApplied(base: State, k: nat, last: Event, stamp: real) returns (s: Session)
    requires UniqueIds(base.sessions) && k < |base.sessions|
    requires last.Settle? && last.id == base.sessions[k].id
    ensures var next := ApplyAll(base, Reset(base.sessions[k]) + [last], stamp);
            next.Some? && next.value.sessions == base.sessions[k := s]
    ensures s.status == Settled && s.cost == Some(last.cost) && s.totals == last.totals
    ensures s.provenance == Some(last.provenance.GetOr(NativeReported))
  {
    ChainRuns.SettleEffect(base, k, base.sessions[k].cost.Some?, last, stamp);
    var out := ApplyAll(base, Reset(base.sessions[k]) + [last], stamp).value.sessions;
    s := out[k];
    SameElsewhere(base.sessions, out, k);
  }

  lemma ResetAfter(st: State, k: nat, last: Event, t: Ticks) returns (s: Session)
    requires UniqueIds(st.sessions) && k < |st.sessions|
    requires last.Settle? && last.id == st.sessions[k].id
    ensures var next := After(st, Append([AccrueEvent(st, t.accrual)] + (Reset(st.sessions[k]) + [last])), t);
            next.Some? && next.value.sessions == st.sessions[k := s]
    ensures s.status == Settled && s.cost == Some(last.cost) && s.totals == last.totals
    ensures s.provenance == Some(last.provenance.GetOr(NativeReported))
  {
    s := ResetApplied(ChainSteps.Started(st, t.accrual), k, last, t.stamp);
    ChainSteps.AfterAccrual(st, Reset(st.sessions[k]) + [last], t);
  }

  lemma CostAfter(st: State, k: nat, cost: Option<real>, outcome: string, noted: bool, totals: Totals,
                  provenance: Provenance, finished: Option<real>, t: Ticks) returns (s: Session)
    requires UniqueIds(st.sessions) && k < |st.sessions| && st.sessions[k].status != Settled
    requires cost.Some? ==> cost.value >= 0.0
    ensures var tx := SettleTx(st, st.sessions[k].id, cost, outcome, noted, totals, provenance, finished, t);
            After(st, tx, t).Some? && After(st, tx, t).value.sessions == st.sessions[k := s]
    ensures CostOutcome(s, st.sessions[k], cost, totals, provenance)
  {
    IndexOfUnique(st.sessions, k);
    var id := st.sessions[k].id;
    if cost.Some? {
      s := ResetAfter(st, k, Settle(id, cost.value, outcome, totals, Some(provenance), FinishOf(finished), noted), t);
    } else {
      var e := Unresolve(id, false, FinishOf(finished), None);
      var next := ChainSteps.HoldOutcome(st, e, t);
      s := Unresolving(st.sessions[k], e);
    }
  }

  /** A settlement of an open session sets its cost, or without a cost holds its reservation,
      and changes no other session. */
  lemma CostSettled(files: Files, st: State, k: nat, cost: Option<real>, outcome: string, noted: bool, totals: Totals,
                    provenance: Provenance, finished: Option<real>, t: Ticks) returns (s: Session)
    requires Sound(files.ledger) && Replay(files.ledger) == Some(st)
    requires k < |st.sessions| && st.sessions[k].status != Settled && (cost.Some? ==> cost.value >= 0.0)
    ensures var op := SettleCost(st.sessions[k].id, cost, outcome, noted, totals, provenance, finished);
            Holds(Step(files, op, t).ledger, st.sessions[k := s])
    ensures CostOutcome(s, st.sessions[k], cost, totals, provenance)
  {
    var op := SettleCost(st.sessions[k].id, cost, outcome, noted, totals, provenance, finished);
    s := CostAfter(st, k, cost, outcome, noted, totals, provenance, finished, t);
    LeftSessions(files, st, TxOf(st, files.queue, op, t), files.queue, t, st.sessions[k := s]);
    StepLeaves(files, st, op, t);
  }

  /** A settled session is not settled again; a negative cost or an unknown session is
      refused. */
  lemma CostRefused(files: Files, st: State, id: string, cost: Option<real>, outcome: string, noted: bool,
                    totals: Totals, provenance: Provenance, finished: Option<real>, t: Ticks)
    requires Replay(files.ledger) == Some(st)
    requires !Has(st.sessions, id) || Get(st.sessions, id).status == Settled || (cost.Some? && cost.value < 0.0)
    ensures Step(files, SettleCost(id, cost, outcome, noted, totals, provenance, finished), t) == files
    ensures Has(st.sessions, id) && cost.Some? && Cost(Get(st.sessions, id)) != cost.value ==>
              SettleTx(st, id, cost, outcome, noted, totals, provenance, finished, t).Refused?
  {
    StepLeaves(files, st, SettleCost(id, cost, outcome, noted, totals, provenance, finished), t);
  }

  /** A manual reconciliation is accepted. */
  predicate Reconcilable(st: State, id: string, amount: real, noted: bool, alive: bool) {
    && noted && amount >= 0.0 && Has(st.sessions, id)
    && !(Get(st.sessions, id).status != Settled && Get(st.sessions, id).bridge.Some? && alive)
  }

  /** The session costs what was stated; a settled one keeps its totals and its authority. */
  predicate ReconcileOutcome(s: Session, was: Session, amount: real) {
    && s.status == Settled && s.cost == Some(amount)
    && (if was.status == Settled then s.totals == was.totals && s.provenance == was.provenance
        else s.totals == map[] && s.provenance == Some(NativeReported))
  }

  lemma CorrectedAfter(st: State, k: nat, e: Event, t: Ticks)
    requires UniqueIds(st.sessions) && k < |st.sessions|
    requires e.Correct? && e.id == st.sessions[k].id && e.delta == Cost(st.sessions[k]) - e.cost
    ensures var next := After(st, Append([AccrueEvent(st, t.accrual), e]), t);
            next.Some? && next.value.sessions == st.sessions[k := Correcting(st.sessions[k], e)]
  {
    var base := ChainSteps.Started(st, t.accrual);
    Corrections.CorrectOne(base, e, k, t.stamp);
    ChainRuns.OneEvent(base, e, t.stamp);
    assert [AccrueEvent(st, t.accrual)] + [e] == [AccrueEvent(st, t.accrual), e];
    ChainSteps.AfterAccrual(st, [e], t);
  }

  lemma ReconcileAfter(st: State, k: nat, amount: real, alive: bool, t: Ticks) returns (s: Session)
    requires UniqueIds(st.sessions) && k < |st.sessions|
    requires Reconcilable(st, st.sessions[k].id, amount, true, alive)
    ensures var tx := ReconcileTx(st, st.sessions[k].id, amount, true, alive, t);
            After(st, tx, t).Some? && After(st, tx, t).value.sessions == st.sessions[k := s]
    ensures ReconcileOutcome(s, st.sessions[k], amount)
  {
    IndexOfUnique(st.sessions, k);
    var was := st.sessions[k];
    if was.status == Settled {
      var e := Correct(was.id, Cost(was) - amount, amount, None, None, Unstated);
      CorrectedAfter(st, k, e, t);
      s := Correcting(was, e);
    } else {
      s := ResetAfter(st, k, Settle(was.id, amount, "reconciled", map[], None, Unstated, true), t);
    }
  }

  /** A reconciliation sets the cost of one session to the stated amount and changes no
      other; when it is not acceptable nothing changes. */
  lemma Reconciled(files: Files, st: State, k: nat, amount: real, noted: bool, alive: bool, t: Ticks)
    returns (s: Session)
    requires Sound(files.ledger) && Replay(files.ledger) == Some(st) && k < |st.sessions|
    ensures Reconcilable(st, st.sessions[k].id, amount, noted, alive) ==>
              && Holds(Step(files, Reconcile(st.sessions[k].id, amount, noted, alive), t).ledger, st.sessions[k := s])
              && ReconcileOutcome(s, st.sessions[k], amount)
    ensures !Reconcilable(st, st.sessions[k].id, amount, noted, alive) ==>
              Step(files, Reconcile(st.sessions[k].id, amount, noted, alive), t) == files
  {
    var op := Reconcile(st.sessions[k].id, amount, noted, alive);
    s := st.sessions[k];
    StepLeaves(files, st, op, t);
    if Reconcilable(st, st.sessions[k].id, amount, noted, alive) {
      s := ReconcileAfter(st, k, amount, alive, t);
      LeftSessions(files, st, TxOf(st, files.queue, op, t), files.queue, t, st.sessions[k := s]);
    }
  }
}
