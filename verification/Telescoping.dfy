/** The chain invariant under each way in which a session settles or is corrected. */
module Telescoping {
  import opened Wrappers
  import opened Ledger
  import opened Receipts
  import opened Chains
  import opened ShareArithmetic
  import opened Clamping
  import opened ClampedChains
  import opened Rebasing

  /** While a resume is unsettled, nothing admitted later is on its chain. */
  predicate Serial(ss: seq<Session>) {
    forall i, j :: 0 <= i < j < |ss| && Resuming(ss[i]) ==>
      ss[i].resume.value !in ss[j].totals && ss[j].resume != ss[i].resume
  }

  predicate Resuming(s: Session) {
    s.status != Settled && s.resume.Some? && s.resume.value != ""
  }

  /** The invariant of resume chains. */
  predicate Chained(ss: seq<Session>) {
    && UniqueIds(ss)
    && Linked(ss)
    && Serial(ss)
    && forall i :: 0 <= i < |ss| ==> "" !in ss[i].totals
  }

  /** A provider identity that no session has recorded or resumes. */
  predicate Unused(ss: seq<Session>, p: string) {
    forall i :: 0 <= i < |ss| ==> p !in ss[i].totals && ss[i].resume != Some(p)
  }

  /** The provider is the one that session k recorded, or the one it resumes, or new. */
  predicate Names(ss: seq<Session>, k: nat, p: string)
    requires k < |ss|
  {
    && p != ""
    && if ss[k].totals != map[] then p in ss[k].totals
       else Unused(ss, p) || (ss[k].status != Settled && ss[k].resume == Some(p))
  }

  predicate NoneLater(ss: seq<Session>, k: nat, p: string) {
    forall m :: k < m < |ss| ==> p !in ss[m].totals
  }

  lemma AlikeChained(ss: seq<Session>, out: seq<Session>)
    requires |out| == |ss| && Chained(ss)
    requires forall i :: 0 <= i < |ss| ==> Alike(ss[i], out[i])
    requires forall i :: 0 <= i < |ss| && ss[i].totals != map[] ==>
               out[i].totals == ss[i].totals && out[i].cost == ss[i].cost
    ensures Chained(out)
  {
    forall i | 0 <= i < |ss| ensures LinkedAt(out, i) {
      assert LinkedAt(ss, i);
      if ss[i].totals != map[] {
        forall p | p in out[i].totals ensures Prev(out, i, p) == Prev(ss, i, p) {
          PrevSame(ss, out, 0, i, p);
        }
      } else {
        assert out[i].totals.Keys == {};
      }
    }
  }

  /** Session k becomes settled with this cost and at most one provider total. */
  predicate SettledAs(s: Session, t: Session, cost: real, totals: Totals) {
    && t.id == s.id
    && t.resume == s.resume
    && t.status == Settled
    && t.cost == Some(cost)
    && t.totals == totals
  }

  /** The sessions before position k, untouched or clamped to a native total. */
  predicate PriorsFor(ss: seq<Session>, out: seq<Session>, k: nat, p: string, native: real)
    requires k <= |ss| == |out|
  {
    if native >= Baseline(ss[..k], p) then forall i :: 0 <= i < k ==> out[i] == ss[i]
    else Clampable(ss, k, p, native) && Clamped(ss, out, k, p, native)
  }

  lemma PriorsChained(ss: seq<Session>, out: seq<Session>, k: nat, p: string, native: real)
    requires k <= |ss| == |out| && Linked(ss) && PriorsFor(ss, out, k, p, native)
    ensures forall i :: 0 <= i < k ==> LinkedAt(out, i) && Alike(ss[i], out[i])
    ensures Prev(out, k, p) == native - Max(0.0, native - Baseline(ss[..k], p))
    ensures SamePrev(ss, out, k, p)
  {
    PriorsEnd(ss, out, k, p, native);
    forall i | 0 <= i < k ensures LinkedAt(out, i) && Alike(ss[i], out[i]) {
      PriorLinked(ss, out, k, p, native, i);
    }
  }

  lemma PriorLinked(ss: seq<Session>, out: seq<Session>, k: nat, p: string, native: real, i: nat)
    requires i < k <= |ss| == |out| && Linked(ss) && PriorsFor(ss, out, k, p, native)
    ensures LinkedAt(out, i) && Alike(ss[i], out[i])
  {
    if native >= Baseline(ss[..k], p) {
      UntouchedLinked(ss, out, k, i);
    } else {
      ClampLinked(ss, out, k, p, native, i);
      ClampedAlike(ss, out, k, p, native, i);
    }
  }

  lemma PriorsEnd(ss: seq<Session>, out: seq<Session>, k: nat, p: string, native: real)
    requires k <= |ss| == |out| && Linked(ss) && PriorsFor(ss, out, k, p, native)
    ensures Prev(out, k, p) == native - Max(0.0, native - Baseline(ss[..k], p))
    ensures SamePrev(ss, out, k, p)
  {
    PriorsAtEnd(ss, out, k, p, native);
    forall q | q != p ensures Prev(out, k, q) == Prev(ss, k, q) {
      PriorsElsewhere(ss, out, k, p, native, q);
    }
  }

  lemma PriorsAtEnd(ss: seq<Session>, out: seq<Session>, k: nat, p: string, native: real)
    requires k <= |ss| == |out| && Linked(ss) && PriorsFor(ss, out, k, p, native)
    ensures Prev(out, k, p) == native - Max(0.0, native - Baseline(ss[..k], p))
  {
    BaselineIsPrev(ss, k, p);
    if native >= Baseline(ss[..k], p) {
      PrevSame(ss, out, 0, k, p);
    } else {
      var f := ClampedTail(ss, out, k, p, native);
    }
  }

  lemma PriorsElsewhere(ss: seq<Session>, out: seq<Session>, k: nat, p: string, native: real, q: string)
    requires k <= |ss| == |out| && PriorsFor(ss, out, k, p, native) && q != p
    ensures Prev(out, k, q) == Prev(ss, k, q)
  {
    if native >= Baseline(ss[..k], p) {
      PrevSame(ss, out, 0, k, q);
    } else {
      ClampedElsewhere(ss, out, k, p, native, k, q);
    }
  }

  lemma UntouchedPrev(ss: seq<Session>, out: seq<Session>, k: nat)
    requires k <= |ss| == |out| && forall j :: 0 <= j < k ==> out[j] == ss[j]
    ensures forall q :: Prev(out, k, q) == Prev(ss, k, q)
  {
    forall q ensures Prev(out, k, q) == Prev(ss, k, q) {
      PrevSame(ss, out, 0, k, q);
    }
  }

  lemma UntouchedLinked(ss: seq<Session>, out: seq<Session>, k: nat, i: nat)
    requires i < k <= |ss| == |out| && Linked(ss) && forall j :: 0 <= j < k ==> out[j] == ss[j]
    ensures LinkedAt(out, i)
  {
    assert LinkedAt(ss, i);
    UntouchedPrev(ss, out, i);
  }

  /** Later sessions, unchanged and not on the chain, stay linked. */
  lemma LaterLinked(ss: seq<Session>, out: seq<Session>, j: nat, p: string, m: nat)
    requires j <= m < |ss| == |out| && Linked(ss)
    requires SamePrev(ss, out, j, p)
    requires forall i :: j <= i < |ss| ==> out[i] == ss[i] && p !in ss[i].totals
    ensures LinkedAt(out, m)
  {
    assert LinkedAt(ss, m);
    forall q | q != p ensures Prev(out, m, q) == Prev(ss, m, q) {
      PrevSame(ss, out, j, m, q);
    }
  }

  /** All chains but p have the same previous totals at position j. */
  ghost predicate SamePrev(ss: seq<Session>, out: seq<Session>, j: nat, p: string)
    requires j <= |ss| && j <= |out|
  {
    forall q :: q != p ==> Prev(out, j, q) == Prev(ss, j, q)
  }

  /** Session k itself links to the sessions before it. */
  lemma OwnLinked(ss: seq<Session>, out: seq<Session>, k: nat, p: string, native: real, cost: real, j: nat)
    requires k < |ss| == |out| && j == k + 1
    requires LinkedAt(ss, k) && ss[k].totals.Keys <= {p}
    requires SettledAs(ss[k], out[k], cost, map[p := native]) && cost >= 0.0
    requires Prev(out, k, p) == native - cost && SamePrev(ss, out, k, p)
    ensures LinkedAt(out, k)
    ensures Prev(out, j, p) == native && SamePrev(ss, out, j, p)
  {
    OwnIsLinked(ss, out, k, p, native, cost);
    OwnSamePrev(ss, out, k, p, j);
    OwnPrev(out, k, p, native, j);
  }

  lemma OwnPrev(out: seq<Session>, k: nat, p: string, native: real, j: nat)
    requires k < |out| && j == k + 1 && out[k].totals == map[p := native]
    ensures Prev(out, j, p) == native
  {
  }

  lemma OwnSamePrev(ss: seq<Session>, out: seq<Session>, k: nat, p: string, j: nat)
    requires k < |ss| == |out| && j == k + 1 && SamePrev(ss, out, k, p)
    requires ss[k].totals.Keys <= {p} && out[k].totals.Keys <= {p}
    ensures SamePrev(ss, out, j, p)
  {
    forall q | q != p ensures Prev(out, j, q) == Prev(ss, j, q) {
      PrevPast(ss, out, k, q, j);
    }
  }

  /** Passing a session that is not on the chain. */
  lemma PrevPast(ss: seq<Session>, out: seq<Session>, k: nat, q: string, j: nat)
    requires k < |ss| == |out| && j == k + 1 && q !in out[k].totals && q !in ss[k].totals
    requires Prev(out, k, q) == Prev(ss, k, q)
    ensures Prev(out, j, q) == Prev(ss, j, q)
  {
  }

  lemma OwnIsLinked(ss: seq<Session>, out: seq<Session>, k: nat, p: string, native: real, cost: real)
    requires k < |ss| == |out| && SettledAs(ss[k], out[k], cost, map[p := native]) && cost >= 0.0
    requires Prev(out, k, p) == native - cost
    ensures LinkedAt(out, k)
  {
    assert out[k].totals.Keys == {p};
  }

  lemma NamesOnly(ss: seq<Session>, k: nat, p: string)
    requires k < |ss| && Chained(ss) && Names(ss, k, p)
    ensures ss[k].totals.Keys <= {p}
    ensures ss[k].status != Settled ==> ss[k].totals == map[] && NoneLater(ss, k, p)
    ensures ss[k].totals == map[] ==> NoneLater(ss, k, p)
  {
    assert LinkedAt(ss, k);
    if ss[k].totals == map[] && !Unused(ss, p) {
      assert Resuming(ss[k]);
    }
  }

  /** Only session k changes its identity on chains, to the provider it names. */
  lemma StructureKept(ss: seq<Session>, out: seq<Session>, k: nat, p: string)
    requires k < |ss| == |out| && Chained(ss) && Names(ss, k, p)
    requires forall i :: 0 <= i < |ss| && i != k ==> Alike(ss[i], out[i])
    requires out[k].id == ss[k].id && out[k].resume == ss[k].resume && out[k].status == Settled
    requires out[k].totals.Keys == {p}
    ensures UniqueIds(out) && Serial(out) && forall i :: 0 <= i < |out| ==> "" !in out[i].totals
  {
    forall i, j | 0 <= i < j < |out| && Resuming(out[i])
      ensures out[i].resume.value !in out[j].totals && out[j].resume != out[i].resume
    {
      assert i != k && Resuming(ss[i]);
    }
    forall i, j | 0 <= i < j < |out| ensures out[i].id != out[j].id {
      assert out[i].id == ss[i].id && out[j].id == ss[j].id;
    }
  }

  /** The first authoritative receipt of a session, with clamping where its total is
      below the chain, keeps the chain invariant. */
  lemma FirstReceiptChained(ss: seq<Session>, out: seq<Session>, k: nat, p: string, native: real)
    requires k < |ss| == |out| && Chained(ss) && Names(ss, k, p) && ss[k].status != Settled
    requires PriorsFor(ss, out, k, p, native)
    requires SettledAs(ss[k], out[k], Max(0.0, native - Baseline(ss[..k], p)), map[p := native])
    requires forall m :: k < m < |ss| ==> out[m] == ss[m]
    ensures Chained(out)
  {
    PriorsChained(ss, out, k, p, native);
    NamesOnly(ss, k, p);
    StructureKept(ss, out, k, p);
    assert LinkedAt(ss, k);
    OwnLinked(ss, out, k, p, native, Max(0.0, native - Baseline(ss[..k], p)), k + 1);
    forall m | k < m < |ss| ensures LinkedAt(out, m) {
      LaterLinked(ss, out, k + 1, p, m);
    }
  }

  /** A settled estimate that establishes no baseline. */
  lemma PlainSettleChained(ss: seq<Session>, out: seq<Session>, k: nat, cost: real)
    requires k < |ss| == |out| && Chained(ss) && ss[k].status != Settled
    requires SettledAs(ss[k], out[k], cost, map[])
    requires forall m :: 0 <= m < |ss| && m != k ==> out[m] == ss[m]
    ensures Chained(out)
  {
    assert LinkedAt(ss, k);
    assert ss[k].totals == map[];
    forall i | 0 <= i < |ss| ensures LinkedAt(out, i) {
      assert LinkedAt(ss, i);
      forall p | p in out[i].totals ensures Prev(out, i, p) == Prev(ss, i, p) {
        PrevSame(ss, out, 0, i, p);
      }
    }
    forall i, j | 0 <= i < j < |out| && Resuming(out[i])
      ensures out[i].resume.value !in out[j].totals && out[j].resume != out[i].resume
    {
      assert Resuming(ss[i]);
    }
    forall i, j | 0 <= i < j < |out| ensures out[i].id != out[j].id {
      assert out[i].id == ss[i].id && out[j].id == ss[j].id;
    }
  }

  lemma {:induction false} RebasedAlike(ss: seq<Session>, out: seq<Session>, j: nat, p: string, delta: real, m: nat)
    requires j <= m < |ss| == |out| && RebasedBy(ss, out, j, p, delta)
    ensures Alike(ss[m], out[m])
    decreases |ss| - j
  {
    if m > j && (p !in ss[j].totals || Estimated(ss[j].provenance)) {
      RebasedAlike(ss, out, j + 1, p, delta, m);
    }
  }

  /** The later part of the chain after a late receipt for session k. */
  lemma LaterChained(ss: seq<Session>, out: seq<Session>, k: nat, p: string, native: real, cost: real, j: nat)
    requires k < |ss| == |out| && Chained(ss) && j == k + 1
    requires ss[k].totals == map[] ==> NoneLater(ss, k, p)
    requires ss[k].totals != map[] ==> p in ss[k].totals
    requires cost == Max(0.0, native - Prev(ss, k, p))
    requires RebasedBy(ss, out, j, p, cost - Cost(ss[k]))
    requires Prev(out, j, p) == native && SamePrev(ss, out, j, p)
    ensures native >= Prev(ss, k, p) || NoneLater(ss, k, p) ==> forall m :: k < m < |ss| ==> LinkedAt(out, m)
    ensures !(native >= Prev(ss, k, p) || NoneLater(ss, k, p)) ==> !Linked(out)
  {
    var delta := cost - Cost(ss[k]);
    if NoneLater(ss, k, p) {
      RebaseNothing(ss, out, j, p, delta);
      forall m | k < m < |ss| ensures LinkedAt(out, m) {
        LaterLinked(ss, out, j, p, m);
      }
    } else {
      var m :| k < m < |ss| && p in ss[m].totals;
      assert LinkedAt(ss, k);
      assert Prev(ss, j, p) == Prev(ss, k, p) + Cost(ss[k]);
      if native >= Prev(ss, k, p) {
        forall i | k < i < |ss| ensures LinkedAt(out, i) {
          RebaseKeepsChain(ss, out, j, p, delta, i);
        }
      } else {
        RebaseBreaksChain(ss, out, j, p, delta, m);
      }
    }
  }

  /** What a late authoritative receipt of session k does to the sessions. */
  predicate LateReceipt(ss: seq<Session>, out: seq<Session>, k: nat, p: string, native: real)
    requires k < |ss| == |out|
  {
    var cost := Max(0.0, native - Baseline(ss[..k], p));
    && PriorsFor(ss, out, k, p, native)
    && SettledAs(ss[k], out[k], cost, map[p := native])
    && RebasedBy(ss, out, k + 1, p, cost - Cost(ss[k]))
  }

  /** The three stages of a late receipt: clamped earlier sessions, the session's own
      correction, and the rebased later chain. */
  ghost predicate LateStages(ss: seq<Session>, mid: seq<Session>, out: seq<Session>, k: nat, p: string, native: real,
                             own: Event, delta: real)
  {
    && k < |ss| == |out| == |mid|
    && PriorsFor(ss, mid, k, p, native)
    && (forall m :: 0 <= m < k ==> out[m] == mid[m])
    && own.Correct?
    && out[k] == Correcting(ss[k], own)
    && RebasedBy(ss, out, k + 1, p, delta)
  }

  lemma LateStructure(ss: seq<Session>, out: seq<Session>, k: nat, p: string, native: real)
    requires k < |ss| == |out| && Chained(ss) && Names(ss, k, p) && ss[k].status == Settled
    requires LateReceipt(ss, out, k, p, native)
    ensures UniqueIds(out) && Serial(out) && forall i :: 0 <= i < |out| ==> "" !in out[i].totals
  {
    PriorsChained(ss, out, k, p, native);
    var delta := Max(0.0, native - Baseline(ss[..k], p)) - Cost(ss[k]);
    forall m | k < m < |ss| ensures Alike(ss[m], out[m]) {
      RebasedAlike(ss, out, k + 1, p, delta, m);
    }
    StructureKept(ss, out, k, p);
  }

  lemma LateLinked(ss: seq<Session>, out: seq<Session>, k: nat, p: string, native: real)
    requires k < |ss| == |out| && Chained(ss) && Names(ss, k, p) && ss[k].status == Settled
    requires LateReceipt(ss, out, k, p, native)
    ensures Linked(out) <==> (native >= Baseline(ss[..k], p) || NoneLater(ss, k, p))
  {
    PriorsChained(ss, out, k, p, native);
    BaselineIsPrev(ss, k, p);
    NamesOnly(ss, k, p);
    var cost := Max(0.0, native - Baseline(ss[..k], p));
    assert LinkedAt(ss, k);
    OwnLinked(ss, out, k, p, native, cost, k + 1);
    LaterChained(ss, out, k, p, native, cost, k + 1);
  }

  /** A late authoritative receipt keeps the chain exactly when it does not clamp
      earlier estimates below a chain that continues after it. */
  lemma LateReceiptChained(ss: seq<Session>, out: seq<Session>, k: nat, p: string, native: real)
    requires k < |ss| == |out| && Chained(ss) && Names(ss, k, p) && ss[k].status == Settled
    requires LateReceipt(ss, out, k, p, native)
    ensures Chained(out) <==> (native >= Baseline(ss[..k], p) || NoneLater(ss, k, p))
  {
    LateStructure(ss, out, k, p, native);
    LateLinked(ss, out, k, p, native);
  }
}
