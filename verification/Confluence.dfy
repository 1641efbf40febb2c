/** The order in which evidence about sessions arrives does not matter. */
module Confluence {
  import opened Wrappers
  import opened Ledger
  import opened Receipts
  import opened Writers
  import opened Chains
  import opened Telescoping
  import opened ChainRuns
  import opened ChainSteps
  import opened ChainTheorems
  import opened Evidence

  /** The ledgers admitted the same number of sessions and were told the same about
      all of them except session k. */
  predicate SameElsewhere(a: seq<Session>, b: seq<Session>, k: nat) {
    && |a| == |b|
    && forall i :: 0 <= i < |a| && i != k ==> EvidenceOf(a[i]) == EvidenceOf(b[i])
  }

  /** Equal amounts, session by session and in total. */
  predicate SameAmounts(a: seq<Session>, b: seq<Session>) {
    && |a| == |b|
    && (forall i :: 0 <= i < |a| ==> Cost(a[i]) == Cost(b[i]) && a[i].totals == b[i].totals)
    && TotalCost(a) == TotalCost(b)
  }

  /** An authoritative receipt that arrives now (after estimates of its own session,
      after later sessions settled, or both) leaves the amounts of a ledger in which
      it had arrived before all of that. */
  lemma LateEqualsEarly(a: State, b: seq<Session>, k: nat, r: Receipt, p: string, native: real, t: Ticks)
    requires Chained(a.sessions) && Chained(b) && k < |b| && SameElsewhere(a.sessions, b, k)
    requires Replaceable(a.sessions[k]) && Names(a.sessions, k, p)
    requires native >= Baseline(a.sessions[..k], p)
    requires NativeTx(a, k, r, [(p, native)], [], t).Append?
    requires AuthorityOf(b[k]) && b[k].totals == map[p := native]
    ensures var next := After(a, NativeTx(a, k, r, [(p, native)], [], t), t);
            next.Some? && SameAmounts(next.value.sessions, b)
  {
    var out := ReceiptTells(a, k, r, p, native, t);
    assert map[p := native] != map[] by { assert p in map[p := native]; }
    assert EvidenceOf(b[k]) == Reported(map[p := native], 0.0);
    assert SameEvidence(out, b, |out|);
    EvidenceDecides(out, b);
  }

  /** What charging saved usage may leave of session k. */
  predicate ChargedOnly(ss: seq<Session>, out: seq<Session>, k: nat, providers: set<string>, complete: bool) {
    && k < |ss| == |out|
    && Chained(out)
    && (forall i :: 0 <= i < |out| && i != k ==> out[i] == ss[i])
    && Replaceable(out[k]) && out[k].id == ss[k].id && out[k].resume == ss[k].resume
    && (complete ==> out[k].totals.Keys == providers)
    && (!complete ==> out[k].totals == map[] && out[k].status != Settled)
  }

  /** The provider under which an estimate is recorded, if any. */
  function Named(s: Session, saved: Saved): set<string> {
    var p := Primary(s, saved);
    if p.Some? then {p.value} else {}
  }

  lemma CompleteTells(st: State, k: nat, saved: Saved, cost: real, t: Ticks) returns (out: seq<Session>)
    requires Chained(st.sessions) && k < |st.sessions| && st.sessions[k].status != Settled && cost >= 0.0
    requires var p := Primary(st.sessions[k], saved); p.Some? ==> Names(st.sessions, k, p.value)
    ensures var tx := Append([AccrueEvent(st, t.accrual)]
                             + EstimateEvents(st.sessions[k], st.sessions[..k], saved, cost));
            After(st, tx, t).Some? && out == After(st, tx, t).value.sessions
    ensures ChargedOnly(st.sessions, out, k, Named(st.sessions[k], saved), true)
  {
    var ss := st.sessions;
    var events := EstimateEvents(ss[k], ss[..k], saved, cost);
    EstimateStep(st, k, saved, cost, t);
    SettleEffect(Started(st, t.accrual), k, Cost(ss[k]) != 0.0, events[|events| - 1], t.stamp);
    AfterAccrual(st, events, t);
    out := ApplyAll(Started(st, t.accrual), events, t.stamp).value.sessions;
  }

  lemma PrefixTells(st: State, k: nat, stamp: (string, real), cost: real, tail: real, t: Ticks)
    returns (out: seq<Session>)
    requires Chained(st.sessions) && k < |st.sessions| && st.sessions[k].status != Settled
    ensures var tx := Append([AccrueEvent(st, t.accrual)] + PrefixEvents(st.sessions[k], stamp, cost, tail));
            After(st, tx, t).Some? && out == After(st, tx, t).value.sessions
    ensures ChargedOnly(st.sessions, out, k, {}, false)
  {
    assert LinkedAt(st.sessions, k);
    PrefixStep(st, k, stamp, cost, tail, t);
    out := PrefixOutcome(st, k, stamp, cost, tail, t);
  }

  /** Charging a session's saved usage changes what is known of that session only. */
  lemma UsageTells(st: State, k: nat, saved: Saved, estimate: real, t: Ticks) returns (out: seq<Session>)
    requires Chained(st.sessions) && k < |st.sessions| && st.sessions[k].status != Settled && saved.cost >= 0.0
    requires var p := Primary(st.sessions[k], saved); saved.complete && p.Some? ==> Names(st.sessions, k, p.value)
    requires UsageTx(st, k, saved, estimate, t).Append?
    ensures var next := After(st, UsageTx(st, k, saved, estimate, t), t);
            next.Some? && out == next.value.sessions
    ensures ChargedOnly(st.sessions, out, k, Named(st.sessions[k], saved), saved.complete)
  {
    var tx := UsageTx(st, k, saved, estimate, t);
    var cost := Max(saved.cost, st.sessions[k].lowerCost.GetOr(0.0));
    if saved.complete {
      out := CompleteTells(st, k, saved, cost, t);
    } else {
      out := PrefixTells(st, k, (saved.mark, cost), cost, tx.events[2].hold.value.reserve, t);
    }
  }

  /** Saved usage first and the authoritative receipt later, whatever further cost was
      expected, ends with the same amounts as the receipt alone. */
  lemma EstimateThenReceipt(st: State, k: nat, saved: Saved, estimate: real, r: Receipt, p: string, native: real,
                            t0: Ticks, t1: Ticks)
    requires Chained(st.sessions) && k < |st.sessions| && st.sessions[k].status != Settled && saved.cost >= 0.0
    requires UsageTx(st, k, saved, estimate, t0).Append?
    requires Names(st.sessions, k, p) && native >= Baseline(st.sessions[..k], p)
    requires var primary := Primary(st.sessions[k], saved);
             saved.complete ==> primary == Some(p) || (primary.None? && Unused(st.sessions, p))
    ensures var mid := After(st, UsageTx(st, k, saved, estimate, t0), t0);
            && mid.Some?
            && k < |mid.value.sessions|
            && SameEnd(st, mid.value, k, r, p, native, t1)
  {
    var out := UsageTells(st, k, saved, estimate, t0);
    var mid := After(st, UsageTx(st, k, saved, estimate, t0), t0).value;
    NamesKept(st.sessions, out, k, p);
    assert out[..k] == st.sessions[..k];
    EitherOrder(st, mid, k, r, p, native, t1);
  }

  /** The receipt is accepted in both states, and leaves the same amounts. */
  ghost predicate SameEnd(direct: State, late: State, k: nat, r: Receipt, p: string, native: real, t: Ticks)
    requires k < |direct.sessions| && k < |late.sessions|
  {
    var a, b := NativeTx(direct, k, r, [(p, native)], [], t), NativeTx(late, k, r, [(p, native)], [], t);
    && a.Append? && b.Append?
    && After(direct, a, t).Some? && After(late, b, t).Some?
    && SameAmounts(After(late, b, t).value.sessions, After(direct, a, t).value.sessions)
  }

  lemma EitherOrder(direct: State, late: State, k: nat, r: Receipt, p: string, native: real, t: Ticks)
    requires Chained(direct.sessions) && Chained(late.sessions) && k < |direct.sessions| == |late.sessions|
    requires Replaceable(direct.sessions[k]) && Replaceable(late.sessions[k])
    requires forall i :: 0 <= i < |direct.sessions| && i != k ==> late.sessions[i] == direct.sessions[i]
    requires Names(direct.sessions, k, p) && Names(late.sessions, k, p) && NoneLater(late.sessions, k, p)
    requires native >= Baseline(direct.sessions[..k], p)
    ensures SameEnd(direct, late, k, r, p, native, t)
  {
    assert late.sessions[..k] == direct.sessions[..k];
    AlwaysAccepted(direct, k, r, p, native, t);
    AlwaysAccepted(late, k, r, p, native, t);
    var a := ReceiptTells(direct, k, r, p, native, t);
    var b := ReceiptTells(late, k, r, p, native, t);
    assert SameEvidence(b, a, |b|);
    EvidenceDecides(b, a);
  }

  /** What session k may name after its own estimate. */
  lemma NamesKept(ss: seq<Session>, out: seq<Session>, k: nat, p: string)
    requires k < |ss| == |out| && Chained(ss) && Names(ss, k, p) && ss[k].status != Settled
    requires forall i :: 0 <= i < |ss| && i != k ==> out[i] == ss[i]
    requires out[k].totals.Keys == {p}
             || (out[k].totals == map[] && out[k].status != Settled && out[k].resume == ss[k].resume)
             || (out[k].totals == map[] && Unused(ss, p) && out[k].resume == ss[k].resume)
    ensures Names(out, k, p)
    ensures NoneLater(out, k, p)
  {
    NamesOnly(ss, k, p);
    assert LinkedAt(ss, k);
    if out[k].totals.Keys == {p} {
      assert p in out[k].totals;
    } else if Unused(ss, p) {
      assert Unused(out, p);
    }
  }

  lemma {:induction false} NothingToRebase(ss: seq<Session>, j: nat, p: string, delta: real)
    requires j <= |ss| && forall m :: j <= m < |ss| ==> p !in ss[m].totals
    ensures Rebase(ss, j, {p}, delta) == Ok([])
    decreases |ss| - j
  {
    if j < |ss| {
      assert !Touches(ss[j], {p}) by {
        assert ss[j].totals.Keys * {p} == {};
      }
      NothingToRebase(ss, j + 1, p, delta);
    }
  }

  /** Without later sessions on the chain a receipt is never refused. */
  lemma AlwaysAccepted(st: State, k: nat, r: Receipt, p: string, native: real, t: Ticks)
    requires k < |st.sessions| && NoneLater(st.sessions, k, p)
    ensures NativeTx(st, k, r, [(p, native)], [], t).Append?
  {
    if st.sessions[k].status == Settled {
      LateShape(st, k, r, p, native, [], t);
      NothingToRebase(st.sessions, k + 1, p, Charge(st.sessions[..k], [(p, native)]) - Cost(st.sessions[k]));
    }
  }
}

/** Histories that told the ledger the same end with the same amounts. */
module RunConfluence {
  import opened Wrappers
  import opened Ledger
  import opened Writers
  import opened HonestWriters
  import opened RunConservation
  import opened Telescoping
  import opened ChainTheorems
  import opened RunTelescoping
  import opened Evidence
  import opened Confluence

  /** Two runs of writers, in whatever order their evidence arrived: when they admitted
      as many sessions and know the same about each of them, they agree on every cost,
      every total, and on what was spent. */
  lemma HistoriesAgree(files: Files, one: seq<Call>, two: seq<Call>)
    requires Sound(files.ledger) && ChainedLedger(files.ledger)
    requires AllWellFormed(one) && AllWellFormed(two)
    requires AccountableRun(files, one) && AccountableRun(files, two)
    requires var a, b := Replay(Run(files, one).ledger), Replay(Run(files, two).ledger);
             a.Some? && b.Some? ==>
               && |a.value.sessions| == |b.value.sessions|
               && SameEvidence(a.value.sessions, b.value.sessions, |a.value.sessions|)
    ensures var a, b := Replay(Run(files, one).ledger), Replay(Run(files, two).ledger);
            && a.Some? && b.Some?
            && SameAmounts(a.value.sessions, b.value.sessions)
            && a.value.spent == b.value.spent
  {
    RunChained(files, one);
    RunChained(files, two);
    RunSound(files, one);
    RunSound(files, two);
    EvidenceDecides(Replay(Run(files, one).ledger).value.sessions, Replay(Run(files, two).ledger).value.sessions);
  }
}
