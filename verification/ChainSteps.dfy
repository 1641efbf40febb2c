/** The chain invariant under every writer call except a manual settlement. */
module ChainSteps {
  import opened Wrappers
  import opened Ledger
  import opened Selection
  import opened Receipts
  import opened Writers
  import opened Conservation
  import opened Corrections
  import opened HonestWriters
  import opened Chains
  import opened ShareArithmetic
  import opened Clamping
  import opened ClampedChains
  import opened Telescoping
  import opened ChainRuns

  /** What a transaction leaves of the sessions and of their authority. */
  ghost predicate ChainedAfter(st: State, tx: Tx, t: Ticks) {
    && After(st, tx, t).Some?
    && Chained(After(st, tx, t).value.sessions)
    && AuthorityKept(st.sessions, After(st, tx, t).value.sessions)
  }

  /** The state in which the events after the accrual apply. */
  function Started(st: State, clock: real): State {
    Accrued(st, clock).(number := st.number + 1)
  }

  lemma AfterAccrual(st: State, rest: seq<Event>, t: Ticks)
    ensures After(st, Append([AccrueEvent(st, t.accrual)] + rest), t) == ApplyAll(Started(st, t.accrual), rest, t.stamp)
  {
    var events := [AccrueEvent(st, t.accrual)] + rest;
    assert events[1..] == rest;
  }

  lemma Unchanged(st: State, tx: Tx, t: Ticks)
    requires Chained(st.sessions) && !tx.Append?
    ensures ChainedAfter(st, tx, t)
  {
  }

  // ----------------------------------------------------------------- receipts

  lemma FirstStep(st: State, k: nat, r: Receipt, p: string, native: real, clamps: seq<Event>, t: Ticks)
    requires Chained(st.sessions) && k < |st.sessions| && st.sessions[k].status != Settled
    requires Names(st.sessions, k, p)
    requires ClampAll(st.sessions, k, [(p, native)]) == Some(clamps)
    ensures ChainedAfter(st, NativeTx(st, k, r, [(p, native)], clamps, t), t)
  {
    var out := FirstOutcome(st, k, r, p, native, clamps, t);
    FirstReceiptChained(st.sessions, out, k, p, native);
  }

  lemma FirstOutcome(st: State, k: nat, r: Receipt, p: string, native: real, clamps: seq<Event>, t: Ticks)
    returns (out: seq<Session>)
    requires UniqueIds(st.sessions) && k < |st.sessions| && st.sessions[k].status != Settled
    requires ClampAll(st.sessions, k, [(p, native)]) == Some(clamps)
    ensures var next := After(st, NativeTx(st, k, r, [(p, native)], clamps, t), t);
            next.Some? && out == next.value.sessions && |out| == |st.sessions|
    ensures PriorsFor(st.sessions, out, k, p, native)
    ensures SettledAs(st.sessions[k], out[k], Max(0.0, native - Baseline(st.sessions[..k], p)), map[p := native])
    ensures out[k].provenance == Some(NativeReported) && AuthorityKept(st.sessions, out)
    ensures forall m :: k < m < |st.sessions| ==> out[m] == st.sessions[m]
  {
    out := FirstEffect(Started(st, t.accrual), k, r, p, native, t.stamp);
    FirstAfter(st, k, r, [(p, native)], clamps, t);
  }

  lemma FirstAfter(st: State, k: nat, r: Receipt, entries: Entries, clamps: seq<Event>, t: Ticks)
    requires k < |st.sessions| && st.sessions[k].status != Settled
    ensures After(st, NativeTx(st, k, r, entries, clamps, t), t)
         == ApplyAll(Started(st, t.accrual),
                     clamps + SettleEvents(st.sessions[k], r, entries, Charge(st.sessions[..k], entries)), t.stamp)
  {
    AfterAccrual(st, clamps + SettleEvents(st.sessions[k], r, entries, Charge(st.sessions[..k], entries)), t);
  }

  lemma LateOutcome(st: State, k: nat, r: Receipt, p: string, native: real, clamps: seq<Event>, later: seq<Event>,
                    t: Ticks)
    returns (out: seq<Session>)
    requires UniqueIds(st.sessions) && Linked(st.sessions) && k < |st.sessions|
    requires st.sessions[k].status == Settled && Estimated(st.sessions[k].provenance)
    requires ClampAll(st.sessions, k, [(p, native)]) == Some(clamps)
    requires Rebase(st.sessions, k + 1, {p}, Charge(st.sessions[..k], [(p, native)]) - Cost(st.sessions[k]))
             == Ok(later)
    ensures var own := OwnCorrection(st.sessions[k], r, [(p, native)], Charge(st.sessions[..k], [(p, native)]));
            var tx := Append([AccrueEvent(st, t.accrual)] + (clamps + ([own] + later)));
            After(st, tx, t).Some? && out == After(st, tx, t).value.sessions
    ensures |out| == |st.sessions| && LateReceipt(st.sessions, out, k, p, native)
    ensures out[k].provenance == Some(NativeReported)
    ensures AuthorityKept(st.sessions, out)
  {
    OneProvider(st.sessions, k, p, native);
    var cost := Charge(st.sessions[..k], [(p, native)]);
    out := LateEffect(Started(st, t.accrual), k, r, p, native, cost, clamps, later, t.stamp);
    AfterAccrual(st, clamps + ([OwnCorrection(st.sessions[k], r, [(p, native)], cost)] + later), t);
  }

  lemma LateShape(st: State, k: nat, r: Receipt, p: string, native: real, clamps: seq<Event>, t: Ticks)
    requires k < |st.sessions| && st.sessions[k].status == Settled
    ensures var entries := [(p, native)];
            var cost := Charge(st.sessions[..k], entries);
            NativeTx(st, k, r, entries, clamps, t) ==
              match Rebase(st.sessions, k + 1, {p}, cost - Cost(st.sessions[k]))
              case Err(e) => Refused(e)
              case Ok(later) =>
                Append([AccrueEvent(st, t.accrual)]
                       + (clamps + ([OwnCorrection(st.sessions[k], r, entries, cost)] + later)))
  {
    OneProvider(st.sessions, k, p, native);
    assert map[p := native].Keys == {p};
  }

  /** A late receipt, when it is not refused: earlier authoritative sessions keep
      their totals, and the chain is kept exactly when the receipt does not clamp
      a chain that continues after its session. */
  lemma LateStep(st: State, k: nat, r: Receipt, p: string, native: real, clamps: seq<Event>, t: Ticks)
    requires Chained(st.sessions) && k < |st.sessions| && st.sessions[k].status == Settled
    requires Estimated(st.sessions[k].provenance) && Names(st.sessions, k, p)
    requires ClampAll(st.sessions, k, [(p, native)]) == Some(clamps)
    ensures var tx := NativeTx(st, k, r, [(p, native)], clamps, t);
            tx.Append? ==>
              && After(st, tx, t).Some?
              && AuthorityKept(st.sessions, After(st, tx, t).value.sessions)
              && (Chained(After(st, tx, t).value.sessions) <==>
                    (native >= Baseline(st.sessions[..k], p) || NoneLater(st.sessions, k, p)))
  {
    LateShape(st, k, r, p, native, clamps, t);
    var tx := NativeTx(st, k, r, [(p, native)], clamps, t);
    if tx.Append? {
      var cost := Charge(st.sessions[..k], [(p, native)]);
      var later := Rebase(st.sessions, k + 1, {p}, cost - Cost(st.sessions[k])).value;
      var out := LateOutcome(st, k, r, p, native, clamps, later, t);
      LateReceiptChained(st.sessions, out, k, p, native);
    }
  }

  // -------------------------------------------------------------- unresolved

  /** Session k is replaced by one with the same chain data. */
  lemma ReplaceAlike(ss: seq<Session>, k: nat, s: Session)
    requires Chained(ss) && k < |ss| && ss[k].status != Settled
    requires s.id == ss[k].id && s.resume == ss[k].resume && s.totals == ss[k].totals && s.status != Settled
    ensures Chained(ss[k := s]) && AuthorityKept(ss, ss[k := s])
  {
    assert LinkedAt(ss, k);
    assert ss[k].totals == map[];
    AlikeChained(ss, ss[k := s]);
  }

  lemma HoldStep(st: State, id: string, provisional: bool, finish: Finish, hold: Option<Hold>, t: Ticks)
    requires Chained(st.sessions) && Has(st.sessions, id) && Get(st.sessions, id).status != Settled
    ensures ChainedAfter(st, Append([AccrueEvent(st, t.accrual), Unresolve(id, provisional, finish, hold)]), t)
  {
    var e := Unresolve(id, provisional, finish, hold);
    var next := HoldOutcome(st, e, t);
    ReplaceAlike(st.sessions, IndexOf(st.sessions, id), Unresolving(Get(st.sessions, id), e));
  }

  /** A hold replaces its session in place. */
  lemma HoldOutcome(st: State, e: Event, t: Ticks) returns (next: State)
    requires UniqueIds(st.sessions) && e.Unresolve? && Has(st.sessions, e.id)
    ensures After(st, Append([AccrueEvent(st, t.accrual), e]), t) == Some(next)
    ensures next.sessions == st.sessions[IndexOf(st.sessions, e.id) := Unresolving(Get(st.sessions, e.id), e)]
  {
    assert [AccrueEvent(st, t.accrual)] + [e] == [AccrueEvent(st, t.accrual), e];
    AfterAccrual(st, [e], t);
    next := HoldApplied(Started(st, t.accrual), e, t.stamp);
  }

  lemma HoldApplied(base: State, e: Event, stamp: real) returns (next: State)
    requires UniqueIds(base.sessions) && e.Unresolve? && Has(base.sessions, e.id)
    ensures ApplyAll(base, [e], stamp) == Some(next)
    ensures next.sessions == base.sessions[IndexOf(base.sessions, e.id) := Unresolving(Get(base.sessions, e.id), e)]
  {
    OneEvent(base, e, stamp);
    PutInPlace(base.sessions, Unresolving(Get(base.sessions, e.id), e));
    next := Apply(base, e, stamp).value;
  }

  /** Charging a prefix replaces session k only, and leaves it unsettled. */
  lemma PrefixOutcome(st: State, k: nat, stamp: (string, real), cost: real, tail: real, t: Ticks)
    returns (out: seq<Session>)
    requires UniqueIds(st.sessions) && k < |st.sessions|
    ensures var tx := Append([AccrueEvent(st, t.accrual)] + PrefixEvents(st.sessions[k], stamp, cost, tail));
            After(st, tx, t).Some? && out == After(st, tx, t).value.sessions
    ensures |out| == |st.sessions|
    ensures out == st.sessions[k := out[k]]
    ensures out[k].id == st.sessions[k].id && out[k].resume == st.sessions[k].resume
    ensures out[k].totals == st.sessions[k].totals && out[k].status != Settled
    ensures var events := PrefixEvents(st.sessions[k], stamp, cost, tail);
            out[k] == Unresolving(Correcting(st.sessions[k], events[0]), events[1])
  {
    var base := Started(st, t.accrual);
    var events := PrefixEvents(st.sessions[k], stamp, cost, tail);
    CorrectOne(base, events[0], k, t.stamp);
    var mid := Apply(base, events[0], t.stamp).value;
    IndexOfUnique(mid.sessions, k);
    var s := Unresolving(mid.sessions[k], events[1]);
    PutInPlace(mid.sessions, s);
    assert events[1..] == [events[1]];
    OneEvent(mid, events[1], t.stamp);
    AfterAccrual(st, events, t);
    out := mid.sessions[k := s];
    assert out == st.sessions[k := s];
  }

  lemma PrefixStep(st: State, k: nat, stamp: (string, real), cost: real, tail: real, t: Ticks)
    requires Chained(st.sessions) && k < |st.sessions| && st.sessions[k].status != Settled
    ensures ChainedAfter(st, Append([AccrueEvent(st, t.accrual)] + PrefixEvents(st.sessions[k], stamp, cost, tail)), t)
  {
    var out := PrefixOutcome(st, k, stamp, cost, tail, t);
    ReplaceAlike(st.sessions, k, out[k]);
  }

  // --------------------------------------------------------------- estimates

  lemma EstimateStep(st: State, k: nat, saved: Saved, cost: real, t: Ticks)
    requires Chained(st.sessions) && k < |st.sessions| && st.sessions[k].status != Settled && cost >= 0.0
    requires var p := Primary(st.sessions[k], saved); p.Some? ==> Names(st.sessions, k, p.value)
    ensures ChainedAfter(st, Append([AccrueEvent(st, t.accrual)]
                                    + EstimateEvents(st.sessions[k], st.sessions[..k], saved, cost)), t)
  {
    var ss := st.sessions;
    var events := EstimateEvents(ss[k], ss[..k], saved, cost);
    var base := Started(st, t.accrual);
    SettleEffect(base, k, Cost(ss[k]) != 0.0, events[|events| - 1], t.stamp);
    AfterAccrual(st, events, t);
    var out := ApplyAll(base, events, t.stamp).value.sessions;
    var primary := Primary(ss[k], saved);
    if primary.Some? {
      EstimateLinks(ss, out, k, primary.value, cost);
    } else {
      PlainSettleChained(ss, out, k, cost);
    }
  }

  /** An estimate settles like a receipt for its baseline plus its cost. */
  lemma EstimateLinks(ss: seq<Session>, out: seq<Session>, k: nat, p: string, cost: real)
    requires Chained(ss) && k < |ss| == |out| && ss[k].status != Settled && Names(ss, k, p) && cost >= 0.0
    requires SettledAs(ss[k], out[k], cost, EstimatedTotals(ss[..k], Some(p), cost))
    requires forall m :: 0 <= m < |ss| && m != k ==> out[m] == ss[m]
    ensures Chained(out)
  {
    FirstReceiptChained(ss, out, k, p, Baseline(ss[..k], p) + cost);
  }

  // ---------------------------------------------------------------- admission

  lemma AdmittedChained(ss: seq<Session>, s: Session)
    requires Chained(ss) && !Has(ss, s.id) && s.totals == map[]
    requires forall i :: 0 <= i < |ss| && ss[i].status != Settled ==> !Resumes(ss[i], s.resume)
    ensures Chained(ss + [s]) && AuthorityKept(ss, ss + [s])
  {
    var out := ss + [s];
    forall i | 0 <= i < |out| ensures LinkedAt(out, i) {
      if i < |ss| {
        assert LinkedAt(ss, i);
        PrevPrefix(ss, s, i);
      }
    }
    forall i, j | 0 <= i < j < |out| && Resuming(out[i])
      ensures out[i].resume.value !in out[j].totals && out[j].resume != out[i].resume
    {
      if j == |ss| {
        assert !Resumes(ss[i], s.resume);
      }
    }
  }

  lemma {:induction false} PrevPrefix(ss: seq<Session>, s: Session, i: nat)
    requires i <= |ss|
    ensures forall p :: Prev(ss + [s], i, p) == Prev(ss, i, p)
  {
    if i > 0 {
      PrevPrefix(ss, s, i - 1);
    }
  }

  lemma MarkedChained(ss: seq<Session>, out: seq<Session>, dead: set<string>)
    requires Chained(ss) && Marked(ss, out, |ss|, dead)
    ensures Chained(out) && AuthorityKept(ss, out)
  {
    AlikeChained(ss, out);
  }

  lemma AttemptStep(st: State, dead: set<string>, last: Event, t: Ticks)
    requires Chained(st.sessions)
    requires last.Wait? || (last.Admit? && !Has(st.sessions, last.session.id) && last.session.totals == map[]
                            && forall i :: 0 <= i < |st.sessions| && st.sessions[i].status != Settled ==>
                                 !Resumes(st.sessions[i], last.session.resume))
    ensures ChainedAfter(st, Append([AccrueEvent(st, t.accrual)] + (Orphans(st.sessions, dead) + [last])), t)
  {
    var ss := st.sessions;
    var base := Started(st, t.accrual);
    var lost := Orphans(ss, dead);
    assert ss[..|ss|] == ss;
    OrphansApply(base, |ss|, dead, t.stamp);
    var mid := ApplyAll(base, lost, t.stamp).value;
    MarkedChained(ss, mid.sessions, dead);
    ApplyAllConcat(base, lost, [last], t.stamp);
    OneEvent(mid, last, t.stamp);
    AfterAccrual(st, lost + [last], t);
    if last.Admit? {
      MarkedIds(ss, mid.sessions, |ss|, dead, last.session.id);
      PutAtEnd(mid.sessions, last.session);
      forall i | 0 <= i < |ss| && mid.sessions[i].status != Settled
        ensures !Resumes(mid.sessions[i], last.session.resume)
      {
        assert !Resumes(ss[i], last.session.resume);
      }
      AdmittedChained(mid.sessions, last.session);
    }
  }

  lemma LaunchStep(st: State, queue: Option<Queue>, r: Request, dead: set<string>, t: Ticks)
    requires Chained(st.sessions)
    ensures ChainedAfter(st, AdmitTx(st, queue, r, dead, t).tx, t)
  {
    var tx := AdmitTx(st, queue, r, dead, t).tx;
    if tx.Append? {
      var last := AttemptEvents(st, queue, r, dead, t);
      if last.Admit? {
        ObstacleResume(st, QueueOf(st, queue), r, dead, t);
      }
      AttemptStep(st, dead, last, t);
    } else {
      Unchanged(st, tx, t);
    }
  }

  // ------------------------------------------------------------- other events

  lemma {:induction false} PlainKeepsSessions(st: State, events: seq<Event>, stamp: real)
    requires forall i :: 0 <= i < |events| ==>
               events[i].Grant? || events[i].Adjust? || events[i].SetRate? || events[i].Cooldown?
    ensures ApplyAll(st, events, stamp).Some? && ApplyAll(st, events, stamp).value.sessions == st.sessions
    decreases |events|
  {
    if events != [] {
      PlainKeepsSessions(Apply(st, events[0], stamp).value, events[1..], stamp);
    }
  }

  lemma PlainStep(st: State, events: seq<Event>, t: Ticks)
    requires Chained(st.sessions)
    requires forall i :: 0 <= i < |events| ==>
               events[i].Grant? || events[i].Adjust? || events[i].SetRate? || events[i].Cooldown?
    ensures ChainedAfter(st, Append([AccrueEvent(st, t.accrual)] + events), t)
  {
    PlainKeepsSessions(Started(st, t.accrual), events, t.stamp);
    AfterAccrual(st, events, t);
  }
}
