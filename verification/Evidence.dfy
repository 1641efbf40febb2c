/** What the ledger was told about each session, apart from the amounts that it
    derives from the rest of the chain. */
module Evidence {
  import opened Wrappers
  import opened Ledger
  import opened Receipts
  import opened Writers
  import opened Chains
  import opened ShareArithmetic
  import opened Clamping
  import opened ClampedChains
  import opened Rebasing
  import opened Telescoping
  import opened ChainRuns
  import opened ChainSteps
  import opened ChainTheorems

  datatype Evidence =
    | Unfinished(prefix: real)
    | Guessed(providers: set<string>, amount: real)
    | Reported(totals: Totals, lump: real)

  function EvidenceOf(s: Session): Evidence {
    if s.status != Settled then Unfinished(Cost(s))
    else if Estimated(s.provenance) then Guessed(s.totals.Keys, Cost(s))
    else Reported(s.totals, if s.totals == map[] then Cost(s) else 0.0)
  }

  /** Two ledgers were told the same about the same sessions. */
  predicate SameEvidence(a: seq<Session>, b: seq<Session>, upto: nat)
    requires upto <= |a| && upto <= |b|
  {
    forall i :: 0 <= i < upto ==> EvidenceOf(a[i]) == EvidenceOf(b[i])
  }

  lemma {:induction false} SameTotals(a: seq<Session>, b: seq<Session>, i: nat)
    requires i <= |a| == |b| && Linked(a) && Linked(b) && SameEvidence(a, b, i)
    ensures forall p :: Prev(a, i, p) == Prev(b, i, p)
    ensures forall j :: 0 <= j < i ==> Cost(a[j]) == Cost(b[j]) && a[j].totals == b[j].totals
  {
    if i > 0 {
      SameTotals(a, b, i - 1);
      var s, u := a[i - 1], b[i - 1];
      assert EvidenceOf(s) == EvidenceOf(u);
      assert LinkedAt(a, i - 1) && LinkedAt(b, i - 1);
      SameSession(a, b, i - 1);
    }
  }

  /** On a chain the previous total and the evidence determine the session. */
  lemma SameOnChain(s: Session, u: Session, p: string, prev: real)
    requires EvidenceOf(s) == EvidenceOf(u)
    requires s.status == Settled && u.status == Settled && s.cost.Some? && u.cost.Some?
    requires s.totals.Keys == {p} && u.totals.Keys == {p}
    requires s.totals[p] == prev + s.cost.value && u.totals[p] == prev + u.cost.value
    ensures Cost(s) == Cost(u) && s.totals == u.totals
  {
    assert p in s.totals && p in u.totals;
    assert s.totals == map[p := s.totals[p]] && u.totals == map[p := u.totals[p]];
  }

  lemma SameProviders(s: Session, u: Session)
    requires EvidenceOf(s) == EvidenceOf(u)
    requires s.status != Settled ==> s.totals == map[]
    requires u.status != Settled ==> u.totals == map[]
    ensures s.totals.Keys == u.totals.Keys
    ensures s.totals == map[] ==> Cost(s) == Cost(u)
    ensures s.totals != map[] ==> s.status == Settled && u.status == Settled
  {
    assert s.totals == map[] <==> s.totals.Keys == {};
    assert u.totals == map[] <==> u.totals.Keys == {};
  }

  lemma LinkedUnsettled(ss: seq<Session>, i: nat)
    requires i < |ss| && LinkedAt(ss, i)
    ensures ss[i].status != Settled ==> ss[i].totals == map[]
  {
  }

  lemma SameSession(a: seq<Session>, b: seq<Session>, i: nat)
    requires i < |a| == |b| && LinkedAt(a, i) && LinkedAt(b, i)
    requires EvidenceOf(a[i]) == EvidenceOf(b[i])
    requires forall p :: Prev(a, i, p) == Prev(b, i, p)
    ensures Cost(a[i]) == Cost(b[i]) && a[i].totals == b[i].totals
  {
    LinkedUnsettled(a, i);
    LinkedUnsettled(b, i);
    SameProviders(a[i], b[i]);
    if p :| p in a[i].totals.Keys {
      assert p in a[i].totals && p in b[i].totals;
      SameOnChain(a[i], b[i], p, Prev(a, i, p));
    } else {
      assert a[i].totals.Keys == {};
      assert a[i].totals == map[] && b[i].totals == map[];
    }
  }

  lemma {:induction false} SameCosts(a: seq<Session>, b: seq<Session>)
    requires |a| == |b| && forall j :: 0 <= j < |a| ==> Cost(a[j]) == Cost(b[j])
    ensures TotalCost(a) == TotalCost(b)
    decreases |a|
  {
    if a != [] {
      SameCosts(a[..|a| - 1], b[..|b| - 1]);
    }
  }

  /** Costs, totals and spending are a function of the admission order and of the
      evidence about each session: every history that ends with the same evidence
      ends with the same amounts. */
  lemma EvidenceDecides(a: seq<Session>, b: seq<Session>)
    requires |a| == |b| && Linked(a) && Linked(b) && SameEvidence(a, b, |a|)
    ensures forall j :: 0 <= j < |a| ==> Cost(a[j]) == Cost(b[j]) && a[j].totals == b[j].totals
    ensures TotalCost(a) == TotalCost(b)
  {
    SameTotals(a, b, |a|);
    SameCosts(a, b);
  }

  // ----------------------------------------------- a receipt tells one thing

  lemma {:induction false} RebasedEvidence(ss: seq<Session>, out: seq<Session>, j: nat, p: string, delta: real, m: nat)
    requires j <= m < |ss| == |out| && Linked(ss) && RebasedBy(ss, out, j, p, delta)
    ensures EvidenceOf(out[m]) == EvidenceOf(ss[m])
    decreases |ss| - j
  {
    assert LinkedAt(ss, j);
    if m > j && (p !in ss[j].totals || Estimated(ss[j].provenance)) {
      RebasedEvidence(ss, out, j + 1, p, delta, m);
    }
  }

  /** A receipt at or above its baseline changes the evidence of its own session only,
      although it may correct many later sessions. */
  lemma ReceiptTells(st: State, k: nat, r: Receipt, p: string, native: real, t: Ticks) returns (out: seq<Session>)
    requires Chained(st.sessions) && k < |st.sessions| && Replaceable(st.sessions[k])
    requires Names(st.sessions, k, p) && native >= Baseline(st.sessions[..k], p)
    requires NativeTx(st, k, r, [(p, native)], [], t).Append?
    ensures var next := After(st, NativeTx(st, k, r, [(p, native)], [], t), t);
            next.Some? && out == next.value.sessions && |out| == |st.sessions| && Chained(out)
    ensures EvidenceOf(out[k]) == Reported(map[p := native], 0.0)
    ensures forall i :: 0 <= i < |out| && i != k ==> EvidenceOf(out[i]) == EvidenceOf(st.sessions[i])
  {
    var ss := st.sessions;
    OneProvider(ss, k, p, native);
    NativeStep(st, k, r, p, native, [], t);
    if ss[k].status == Settled {
      out := LateTells(st, k, r, p, native, t);
    } else {
      out := FirstTells(st, k, r, p, native, t);
    }
  }

  lemma LateTells(st: State, k: nat, r: Receipt, p: string, native: real, t: Ticks) returns (out: seq<Session>)
    requires Chained(st.sessions) && k < |st.sessions| && st.sessions[k].status == Settled
    requires Estimated(st.sessions[k].provenance) && native >= Baseline(st.sessions[..k], p)
    requires ClampAll(st.sessions, k, [(p, native)]) == Some([])
    requires NativeTx(st, k, r, [(p, native)], [], t).Append?
    ensures var next := After(st, NativeTx(st, k, r, [(p, native)], [], t), t);
            next.Some? && out == next.value.sessions && |out| == |st.sessions|
    ensures EvidenceOf(out[k]) == Reported(map[p := native], 0.0)
    ensures forall i :: 0 <= i < |out| && i != k ==> EvidenceOf(out[i]) == EvidenceOf(st.sessions[i])
  {
    var ss := st.sessions;
    LateShape(st, k, r, p, native, [], t);
    var delta := Charge(ss[..k], [(p, native)]) - Cost(ss[k]);
    OneProvider(ss, k, p, native);
    out := LateOutcome(st, k, r, p, native, [], Rebase(ss, k + 1, {p}, delta).value, t);
    forall i | k < i < |out| ensures EvidenceOf(out[i]) == EvidenceOf(ss[i]) {
      RebasedEvidence(ss, out, k + 1, p, delta, i);
    }
    NativeEvidence(out[k], p, native);
  }

  lemma FirstTells(st: State, k: nat, r: Receipt, p: string, native: real, t: Ticks) returns (out: seq<Session>)
    requires Chained(st.sessions) && k < |st.sessions| && st.sessions[k].status != Settled
    requires native >= Baseline(st.sessions[..k], p) && ClampAll(st.sessions, k, [(p, native)]) == Some([])
    ensures var next := After(st, NativeTx(st, k, r, [(p, native)], [], t), t);
            next.Some? && out == next.value.sessions && |out| == |st.sessions|
    ensures EvidenceOf(out[k]) == Reported(map[p := native], 0.0)
    ensures forall i :: 0 <= i < |out| && i != k ==> EvidenceOf(out[i]) == EvidenceOf(st.sessions[i])
  {
    out := FirstOutcome(st, k, r, p, native, [], t);
    NativeEvidence(out[k], p, native);
  }

  lemma NativeEvidence(s: Session, p: string, native: real)
    requires s.status == Settled && s.provenance == Some(NativeReported) && s.totals == map[p := native]
    ensures EvidenceOf(s) == Reported(map[p := native], 0.0) && AuthorityOf(s)
  {
    assert p in s.totals;
  }

  /** Settled by an authoritative receipt. */
  predicate AuthorityOf(s: Session) {
    s.status == Settled && !Estimated(s.provenance)
  }
}
