/** The chain invariant over whole runs of the ledger writers. */
module ChainRuns {
  import opened Wrappers
  import opened Ledger
  import opened Receipts
  import opened Writers
  import opened Conservation
  import opened Corrections
  import opened ReceiptEffects
  import opened HonestWriters
  import opened Chains
  import opened ShareArithmetic
  import opened Clamping
  import opened ClampedChains
  import opened Rebasing
  import opened Telescoping

  // ------------------------------------------------- one-provider receipts

  lemma OneProvider(ss: seq<Session>, k: nat, p: string, native: real)
    requires k <= |ss|
    ensures AsTotals([(p, native)]) == map[p := native]
    ensures Charge(ss[..k], [(p, native)]) == Max(0.0, native - Baseline(ss[..k], p))
    ensures native >= Baseline(ss[..k], p) ==>
              ClampAll(ss, k, [(p, native)]) == Some([]) && ClampAt(ss, k, [(p, native)]) == []
    ensures native < Baseline(ss[..k], p) && Clampable(ss, k, p, native) ==>
              && ClampAll(ss, k, [(p, native)]) == Some(Clamp(ss, k, p, native))
              && ClampAt(ss, k, [(p, native)]) == LooseAt(ss, 0, k, p, Exact(ss[..k], p))
    ensures native < Baseline(ss[..k], p) && !Clampable(ss, k, p, native) ==>
              ClampAll(ss, k, [(p, native)]) == None
  {
    var entries := [(p, native)];
    assert entries[..0] == [];
    assert ClampAll(ss, k, []) == Some([]);
    assert ClampAt(ss, k, []) == [];
    assert [] + Clamp(ss, k, p, native) == Clamp(ss, k, p, native);
    var at := LooseAt(ss, 0, k, p, Exact(ss[..k], p));
    assert [] + at == at;
    assert AsTotals([]) == map[];
    assert Charge(ss[..k], []) == 0.0;
  }

  /** Sessions corrected by the clamping events alone are untouched or clamped. */
  lemma ClampsArePriors(ss: seq<Session>, out: seq<Session>, k: nat, p: string, native: real)
    requires k <= |ss| == |out| && ClampAll(ss, k, [(p, native)]).Some?
    requires var events, at := ClampAll(ss, k, [(p, native)]).value, ClampAt(ss, k, [(p, native)]);
             && |events| == |at|
             && (forall i :: 0 <= i < |at| ==>
                   at[i] < |ss| && events[i].Correct? && out[at[i]] == Correcting(ss[at[i]], events[i]))
             && (forall m :: 0 <= m < k && m !in at ==> out[m] == ss[m])
    ensures PriorsFor(ss, out, k, p, native)
  {
    OneProvider(ss, k, p, native);
    if native < Baseline(ss[..k], p) {
      var exact := Exact(ss[..k], p);
      var at := LooseAt(ss, 0, k, p, exact);
      EventsPrice(ss, out, at, p, native, exact, CostAt(ss, at), exact);
    }
  }

  /** Sessions that were settled by an authoritative receipt keep their totals. */
  predicate AuthorityKept(ss: seq<Session>, out: seq<Session>) {
    && |ss| <= |out|
    && forall i :: 0 <= i < |ss| && ss[i].status == Settled && !Estimated(ss[i].provenance) ==>
         && out[i].totals == ss[i].totals
         && out[i].provenance == ss[i].provenance
         && out[i].status == Settled
  }

  // -------------------------------------------------------- state effects

  /** The settlement of an unsettled session, after reversing its prefix. */
  lemma SettleEffect(st: State, k: nat, undone: bool, settle: Event, stamp: real)
    requires UniqueIds(st.sessions) && k < |st.sessions|
    requires settle.Settle? && settle.id == st.sessions[k].id
    ensures var s := st.sessions[k];
            var undo := if undone then [Correct(s.id, Cost(s), 0.0, None, None, Unstated)] else [];
            var out := ApplyAll(st, undo + [settle], stamp);
            && out.Some?
            && |out.value.sessions| == |st.sessions|
            && SettledAs(s, out.value.sessions[k], settle.cost, settle.totals)
            && out.value.sessions[k].provenance == Some(settle.provenance.GetOr(NativeReported))
            && forall m :: 0 <= m < |st.sessions| && m != k ==> out.value.sessions[m] == st.sessions[m]
  {
    var s := st.sessions[k];
    IndexOfUnique(st.sessions, k);
    if undone {
      var undo := Correct(s.id, Cost(s), 0.0, None, None, Unstated);
      CorrectOne(st, undo, k, stamp);
      var mid := Apply(st, undo, stamp).value;
      IndexOfUnique(mid.sessions, k);
      OneEvent(mid, settle, stamp);
      assert ([undo] + [settle])[1..] == [settle];
    } else {
      OneEvent(st, settle, stamp);
      assert [] + [settle] == [settle];
    }
  }

  lemma OneEvent(st: State, e: Event, stamp: real)
    ensures ApplyAll(st, [e], stamp) == Apply(st, e, stamp)
  {
    if Apply(st, e, stamp).Some? {
      assert ApplyAll(Apply(st, e, stamp).value, [], stamp) == Apply(st, e, stamp);
    }
  }

  /** The sessions after the clamping corrections. */
  lemma ClampEffect(st: State, k: nat, p: string, native: real, stamp: real) returns (mid: State)
    requires UniqueIds(st.sessions) && k < |st.sessions|
    requires ClampAll(st.sessions, k, [(p, native)]).Some?
    ensures ApplyAll(st, ClampAll(st.sessions, k, [(p, native)]).value, stamp) == Some(mid)
    ensures UniqueIds(mid.sessions) && |mid.sessions| == |st.sessions|
    ensures PriorsFor(st.sessions, mid.sessions, k, p, native)
    ensures forall m :: k <= m < |st.sessions| ==> mid.sessions[m] == st.sessions[m]
    ensures AuthorityKept(st.sessions, mid.sessions)
  {
    var ss, entries := st.sessions, [(p, native)];
    var at := ClampAt(ss, k, entries);
    assert DistinctKeys(entries);
    ClampAllTargets(ss, k, entries);
    CorrectAll(st, ClampAll(ss, k, entries).value, at, stamp);
    mid := ApplyAll(st, ClampAll(ss, k, entries).value, stamp).value;
    ClampsArePriors(ss, mid.sessions, k, p, native);
    ClampsKeepAuthority(ss, mid.sessions, k, p, native);
    forall m | k <= m < |ss| ensures mid.sessions[m] == ss[m] {
      assert m !in at;
    }
  }

  /** PriorsFor speaks only about the sessions before k. */
  lemma PriorsLocal(ss: seq<Session>, mid: seq<Session>, out: seq<Session>, k: nat, p: string, native: real)
    requires k <= |ss| == |mid| == |out| && PriorsFor(ss, mid, k, p, native)
    requires forall i :: 0 <= i < k ==> out[i] == mid[i]
    ensures PriorsFor(ss, out, k, p, native)
  {
    if native < Baseline(ss[..k], p) {
      var exact := Exact(ss[..k], p);
      var at := LooseAt(ss, 0, k, p, exact);
      PricedLocal(ss, mid, out, at, p, Shares(ss, at, native, exact, CostAt(ss, at), exact), exact);
    }
  }

  lemma {:induction false} PricedLocal(ss: seq<Session>, mid: seq<Session>, out: seq<Session>, at: seq<nat>, p: string,
                                       vs: seq<real>, cursor: real)
    requires |ss| == |mid| == |out| && |vs| == |at|
    requires forall i :: 0 <= i < |at| ==> at[i] < |ss| && out[at[i]] == mid[at[i]]
    requires PricedBy(ss, mid, at, p, vs, cursor)
    ensures PricedBy(ss, out, at, p, vs, cursor)
    decreases |at|
  {
    if at != [] {
      PricedLocal(ss, mid, out, at[1..], p, vs[1..], cursor + vs[0]);
    }
  }

  lemma FirstEffect(st: State, k: nat, r: Receipt, p: string, native: real, stamp: real) returns (out: seq<Session>)
    requires UniqueIds(st.sessions) && k < |st.sessions| && st.sessions[k].status != Settled
    requires ClampAll(st.sessions, k, [(p, native)]).Some?
    ensures var ss, entries := st.sessions, [(p, native)];
            var events := ClampAll(ss, k, entries).value + SettleEvents(ss[k], r, entries, Charge(ss[..k], entries));
            && ApplyAll(st, events, stamp).Some?
            && out == ApplyAll(st, events, stamp).value.sessions
    ensures |out| == |st.sessions|
    ensures PriorsFor(st.sessions, out, k, p, native)
    ensures SettledAs(st.sessions[k], out[k], Max(0.0, native - Baseline(st.sessions[..k], p)), map[p := native])
    ensures out[k].provenance == Some(NativeReported)
    ensures forall m :: k < m < |st.sessions| ==> out[m] == st.sessions[m]
    ensures AuthorityKept(st.sessions, out)
  {
    var ss, entries := st.sessions, [(p, native)];
    OneProvider(ss, k, p, native);
    var mid := ClampEffect(st, k, p, native, stamp);
    var ending := SettleEvents(ss[k], r, entries, Charge(ss[..k], entries));
    SettleEffect(mid, k, Cost(ss[k]) != 0.0, ending[|ending| - 1], stamp);
    ApplyAllConcat(st, ClampAll(ss, k, entries).value, ending, stamp);
    out := ApplyAll(mid, ending, stamp).value.sessions;
    PriorsLocal(ss, mid.sessions, out, k, p, native);
  }

  lemma ClampedAreEstimates(ss: seq<Session>, k: nat, p: string, native: real, i: nat)
    requires k <= |ss| && i < |ss| && ClampAll(ss, k, [(p, native)]).Some? && i in ClampAt(ss, k, [(p, native)])
    ensures Estimated(ss[i].provenance)
  {
    OneProvider(ss, k, p, native);
  }

  lemma ClampsKeepAuthority(ss: seq<Session>, out: seq<Session>, k: nat, p: string, native: real)
    requires k <= |ss| && ClampAll(ss, k, [(p, native)]).Some?
    requires var events, at := ClampAll(ss, k, [(p, native)]).value, ClampAt(ss, k, [(p, native)]);
             Targets(ss, events, at) && Corrected(ss, out, events, at)
    ensures AuthorityKept(ss, out)
  {
    forall i | 0 <= i < |ss| && ss[i].status == Settled && !Estimated(ss[i].provenance) ensures out[i] == ss[i] {
      if i in ClampAt(ss, k, [(p, native)]) {
        ClampedAreEstimates(ss, k, p, native, i);
      }
    }
  }

  /** The corrections of the later chain, computed from ss and applied to a state
      that agrees with ss from position j on. */
  lemma RebaseEffect(st: State, ss: seq<Session>, j: nat, p: string, delta: real, later: seq<Event>, stamp: real)
    returns (out: seq<Session>)
    requires UniqueIds(st.sessions) && j <= |ss| == |st.sessions| && Linked(ss)
    requires forall m :: j <= m < |ss| ==> st.sessions[m] == ss[m]
    requires Rebase(ss, j, {p}, delta) == Ok(later)
    ensures ApplyAll(st, later, stamp).Some? && out == ApplyAll(st, later, stamp).value.sessions
    ensures |out| == |ss| && RebasedBy(ss, out, j, p, delta)
    ensures forall m :: 0 <= m < j ==> out[m] == st.sessions[m]
  {
    var at := RebaseAt(ss, j, {p});
    RebaseTargets(ss, j, {p}, delta);
    TargetsAgree(ss, st.sessions, j, later, at);
    CorrectAll(st, later, at, stamp);
    out := ApplyAll(st, later, stamp).value.sessions;
    CorrectedAgree(ss, st.sessions, out, j, later, at);
    EventsRebase(ss, out, j, p, delta);
  }

  lemma TargetsAgree(ss: seq<Session>, now: seq<Session>, j: nat, events: seq<Event>, at: seq<nat>)
    requires j <= |ss| == |now| && Targets(ss, events, at)
    requires forall i :: 0 <= i < |at| ==> j <= at[i]
    requires forall m :: j <= m < |ss| ==> now[m] == ss[m]
    ensures Targets(now, events, at)
  {
  }

  lemma CorrectedAgree(ss: seq<Session>, now: seq<Session>, out: seq<Session>, j: nat, events: seq<Event>, at: seq<nat>)
    requires j <= |ss| == |now| && Targets(now, events, at) && Corrected(now, out, events, at)
    requires forall i :: 0 <= i < |at| ==> j <= at[i]
    requires forall m :: j <= m < |ss| ==> now[m] == ss[m]
    ensures |out| == |ss| && CorrectedFrom(ss, out, j, events, at)
    ensures forall m :: 0 <= m < j ==> out[m] == now[m]
  {
    forall m | 0 <= m < j ensures out[m] == now[m] {
      assert m !in at;
    }
  }

  /** A late receipt step by step: clamps, the own correction, the later chain. */
  lemma LateSteps(st: State, k: nat, p: string, native: real, own: Event, delta: real,
                  clamps: seq<Event>, later: seq<Event>, stamp: real) returns (mid: seq<Session>, out: seq<Session>)
    requires UniqueIds(st.sessions) && Linked(st.sessions) && k < |st.sessions|
    requires own.Correct? && own.id == st.sessions[k].id && own.delta == Cost(st.sessions[k]) - own.cost
    requires ClampAll(st.sessions, k, [(p, native)]) == Some(clamps)
    requires Rebase(st.sessions, k + 1, {p}, delta) == Ok(later)
    ensures ApplyAll(st, clamps + ([own] + later), stamp).Some?
    ensures out == ApplyAll(st, clamps + ([own] + later), stamp).value.sessions
    ensures LateStages(st.sessions, mid, out, k, p, native, own, delta)
  {
    var clamped := ClampEffect(st, k, p, native, stamp);
    mid := clamped.sessions;
    CorrectOne(clamped, own, k, stamp);
    var corrected := Apply(clamped, own, stamp).value;
    out := RebaseEffect(corrected, st.sessions, k + 1, p, delta, later, stamp);
    assert ([own] + later)[1..] == later;
    ApplyAllConcat(st, clamps, [own] + later, stamp);
  }

  lemma LateEffect(st: State, k: nat, r: Receipt, p: string, native: real, cost: real,
                   clamps: seq<Event>, later: seq<Event>, stamp: real) returns (out: seq<Session>)
    requires UniqueIds(st.sessions) && Linked(st.sessions) && k < |st.sessions|
    requires st.sessions[k].status == Settled && Estimated(st.sessions[k].provenance)
    requires cost == Max(0.0, native - Baseline(st.sessions[..k], p))
    requires ClampAll(st.sessions, k, [(p, native)]) == Some(clamps)
    requires Rebase(st.sessions, k + 1, {p}, cost - Cost(st.sessions[k])) == Ok(later)
    ensures var events := clamps + ([OwnCorrection(st.sessions[k], r, [(p, native)], cost)] + later);
            ApplyAll(st, events, stamp).Some? && out == ApplyAll(st, events, stamp).value.sessions
    ensures |out| == |st.sessions|
    ensures LateReceipt(st.sessions, out, k, p, native)
    ensures out[k].provenance == Some(NativeReported)
    ensures AuthorityKept(st.sessions, out)
  {
    var ss := st.sessions;
    var own, delta := OwnCorrection(ss[k], r, [(p, native)], cost), cost - Cost(ss[k]);
    var mid;
    mid, out := LateSteps(st, k, p, native, own, delta, clamps, later, stamp);
    LateMeaning(ss, mid, out, k, r, p, native, cost, own, delta);
  }

  lemma OneTotal(p: string, native: real)
    ensures AsTotals([(p, native)]) == map[p := native]
  {
    assert [(p, native)][..0] == [];
  }

  lemma LateMeaning(ss: seq<Session>, mid: seq<Session>, out: seq<Session>, k: nat, r: Receipt, p: string,
                    native: real, cost: real, own: Event, delta: real)
    requires k < |ss| && ss[k].status == Settled && Estimated(ss[k].provenance)
    requires cost == Max(0.0, native - Baseline(ss[..k], p))
    requires own == OwnCorrection(ss[k], r, [(p, native)], cost) && delta == cost - Cost(ss[k])
    requires LateStages(ss, mid, out, k, p, native, own, delta)
    ensures |out| == |ss| && LateReceipt(ss, out, k, p, native)
    ensures out[k].provenance == Some(NativeReported)
    ensures AuthorityKept(ss, out)
  {
    PriorsLocal(ss, mid, out, k, p, native);
    OneTotal(p, native);
    LateConcludes(ss, out, k, r, p, native, cost);
    LateAuthority(ss, out, k, p, native);
  }

  lemma LateConcludes(ss: seq<Session>, out: seq<Session>, k: nat, r: Receipt, p: string, native: real, cost: real)
    requires k < |ss| == |out| && ss[k].status == Settled
    requires cost == Max(0.0, native - Baseline(ss[..k], p)) && AsTotals([(p, native)]) == map[p := native]
    requires out[k] == Correcting(ss[k], OwnCorrection(ss[k], r, [(p, native)], cost))
    requires PriorsFor(ss, out, k, p, native) && RebasedBy(ss, out, k + 1, p, cost - Cost(ss[k]))
    ensures LateReceipt(ss, out, k, p, native)
    ensures out[k].provenance == Some(NativeReported)
  {
  }

  lemma {:induction false} RebaseAuthority(ss: seq<Session>, out: seq<Session>, j: nat, p: string, delta: real, m: nat)
    requires j <= m < |ss| == |out| && RebasedBy(ss, out, j, p, delta) && !Estimated(ss[m].provenance)
    ensures out[m].totals == ss[m].totals && out[m].status == ss[m].status && out[m].provenance == ss[m].provenance
    decreases |ss| - j
  {
    if m > j && (p !in ss[j].totals || Estimated(ss[j].provenance)) {
      RebaseAuthority(ss, out, j + 1, p, delta, m);
    }
  }

  lemma PriorsAuthority(ss: seq<Session>, out: seq<Session>, k: nat, p: string, native: real, i: nat)
    requires i < k <= |ss| == |out| && PriorsFor(ss, out, k, p, native) && !Estimated(ss[i].provenance)
    ensures out[i] == ss[i]
  {
    if native < Baseline(ss[..k], p) {
      assert i !in LooseAt(ss, 0, k, p, Exact(ss[..k], p));
    }
  }

  /** Corrections never change who settled an authoritative session, or its totals. */
  lemma LateAuthority(ss: seq<Session>, out: seq<Session>, k: nat, p: string, native: real)
    requires k < |ss| == |out| && Estimated(ss[k].provenance)
    requires LateReceipt(ss, out, k, p, native)
    ensures AuthorityKept(ss, out)
  {
    var delta := Max(0.0, native - Baseline(ss[..k], p)) - Cost(ss[k]);
    forall i | 0 <= i < |ss| && ss[i].status == Settled && !Estimated(ss[i].provenance)
      ensures out[i].totals == ss[i].totals && out[i].status == Settled && out[i].provenance == ss[i].provenance
    {
      if i < k {
        PriorsAuthority(ss, out, k, p, native, i);
      } else if i > k {
        RebaseAuthority(ss, out, k + 1, p, delta, i);
      }
    }
  }
}
