/** Resume chains: the sessions that recorded a cumulative total for one provider,
    in admission order. */
module Chains {
  import opened Wrappers
  import opened Ledger
  import opened Receipts

  /** The latest total that the first i sessions recorded for the provider. */
  function Prev(ss: seq<Session>, i: nat, p: string): real
    requires i <= |ss|
  {
    if i == 0 then 0.0
    else if p in ss[i - 1].totals then ss[i - 1].totals[p]
    else Prev(ss, i - 1, p)
  }

  /** A recorded total exceeds the previous one by exactly the session's cost. */
  predicate LinkedAt(ss: seq<Session>, i: nat)
    requires i < |ss|
  {
    forall p :: p in ss[i].totals ==>
      && ss[i].totals.Keys == {p}
      && ss[i].status == Settled
      && ss[i].cost.Some?
      && ss[i].cost.value >= 0.0
      && ss[i].totals[p] == Prev(ss, i, p) + ss[i].cost.value
  }

  /** The telescoping invariant: each session on a provider costs its total minus
      the previous settled total. */
  predicate Linked(ss: seq<Session>) {
    forall i :: 0 <= i < |ss| ==> LinkedAt(ss, i)
  }

  /** Costs of the first i sessions that are on the provider's chain. */
  function ChainCost(ss: seq<Session>, i: nat, p: string): real
    requires i <= |ss|
  {
    if i == 0 then 0.0
    else ChainCost(ss, i - 1, p) + if p in ss[i - 1].totals then Cost(ss[i - 1]) else 0.0
  }

  /** Costs through any session on a provider sum exactly to its recorded total. */
  lemma {:induction false} ChainCostIsTotal(ss: seq<Session>, i: nat, p: string)
    requires i <= |ss| && Linked(ss)
    ensures ChainCost(ss, i, p) == Prev(ss, i, p)
  {
    if i > 0 {
      ChainCostIsTotal(ss, i - 1, p);
      assert LinkedAt(ss, i - 1);
    }
  }

  lemma {:induction false} PrevMonotone(ss: seq<Session>, i: nat, j: nat, p: string)
    requires i <= j <= |ss| && Linked(ss)
    ensures 0.0 <= Prev(ss, i, p) <= Prev(ss, j, p)
    decreases j
  {
    if j > 0 {
      assert LinkedAt(ss, j - 1);
      PrevMonotone(ss, if i < j then i else j - 1, j - 1, p);
    }
  }

  /** In a linked ledger the largest earlier total is the latest one. */
  lemma {:induction false} BaselineIsPrev(ss: seq<Session>, k: nat, p: string)
    requires k <= |ss| && Linked(ss)
    ensures Baseline(ss[..k], p) == Prev(ss, k, p)
  {
    if k > 0 {
      assert ss[..k][..k - 1] == ss[..k - 1];
      BaselineIsPrev(ss, k - 1, p);
      PrevMonotone(ss, k - 1, k, p);
    }
  }

  lemma {:induction false} PrevSame(a: seq<Session>, b: seq<Session>, from: nat, i: nat, p: string)
    requires from <= i <= |a| && |a| == |b|
    requires Prev(a, from, p) == Prev(b, from, p)
    requires forall j :: from <= j < i ==>
               (p in a[j].totals <==> p in b[j].totals) && (p in a[j].totals ==> a[j].totals[p] == b[j].totals[p])
    ensures Prev(a, i, p) == Prev(b, i, p)
    decreases i
  {
    if i > from {
      PrevSame(a, b, from, i - 1, p);
    }
  }

  // ----------------------------------------------------------- authoritative

  /** The authoritative total bounds every authoritative total and is one of them. */
  lemma {:induction false} ExactBounds(ss: seq<Session>, k: nat, p: string) returns (at: int)
    requires k <= |ss|
    ensures var exact := Exact(ss[..k], p);
            && exact >= 0.0
            && (forall j :: 0 <= j < k && p in ss[j].totals && !Estimated(ss[j].provenance) ==>
                ss[j].totals[p] <= exact)
            && -1 <= at < k
            && (at == -1 ==> exact == 0.0)
            && (at >= 0 ==> p in ss[at].totals && !Estimated(ss[at].provenance) && ss[at].totals[p] == exact)
  {
    at := -1;
    if k > 0 {
      assert ss[..k][..k - 1] == ss[..k - 1];
      at := ExactBounds(ss, k - 1, p);
      var s := ss[k - 1];
      if p in s.totals && !Estimated(s.provenance) && s.totals[p] >= Exact(ss[..k - 1], p) {
        at := k - 1;
      }
    }
  }

  lemma {:induction false} LooseAtComplete(ss: seq<Session>, from: nat, upto: nat, p: string, exact: real, j: nat)
    requires from <= j < upto <= |ss| && Loose(ss[j], p, exact)
    ensures LooseAt(ss, from, upto, p, exact) != []
    ensures j in LooseAt(ss, from, upto, p, exact)
    decreases upto - from
  {
    if from < j {
      LooseAtComplete(ss, from + 1, upto, p, exact, j);
    }
  }

  lemma {:induction false} LooseAtFirst(ss: seq<Session>, from: nat, upto: nat, p: string, exact: real) returns (f: nat)
    requires from <= upto <= |ss| && LooseAt(ss, from, upto, p, exact) != []
    ensures from <= f < upto && Loose(ss[f], p, exact)
    ensures LooseAt(ss, from, upto, p, exact) == LooseAt(ss, f, upto, p, exact)
    ensures forall j :: from <= j < f ==> !Loose(ss[j], p, exact)
    decreases upto - from
  {
    if Loose(ss[from], p, exact) {
      f := from;
    } else {
      f := LooseAtFirst(ss, from + 1, upto, p, exact);
    }
  }

  /** From the first loose session on, every session of the chain is loose, and
      the total before it is the authoritative one. */
  lemma LooseSuffix(ss: seq<Session>, f: nat, k: nat, p: string)
    requires f < k <= |ss| && Linked(ss)
    requires var exact := Exact(ss[..k], p);
             Loose(ss[f], p, exact) && forall j :: 0 <= j < f ==> !Loose(ss[j], p, exact)
    ensures var exact := Exact(ss[..k], p);
            && Prev(ss, f, p) == exact
            && forall j :: f <= j < k && p in ss[j].totals ==> Loose(ss[j], p, exact)
  {
    var exact := Exact(ss[..k], p);
    var at := ExactBounds(ss, k, p);
    forall j | f <= j < k && p in ss[j].totals ensures Loose(ss[j], p, exact) {
      if j > f {
        assert LinkedAt(ss, j);
        PrevMonotone(ss, f + 1, j, p);
      }
    }
    if at >= 0 {
      assert at < f;
      PrevMonotone(ss, at + 1, f, p);
    } else {
      PrevMonotone(ss, 0, f, p);
    }
    PrevAtMost(ss, f, p, exact);
  }

  lemma {:induction false} PrevAtMost(ss: seq<Session>, f: nat, p: string, bound: real)
    requires f <= |ss| && bound >= 0.0
    requires forall j :: 0 <= j < f && p in ss[j].totals ==> ss[j].totals[p] <= bound
    ensures Prev(ss, f, p) <= bound
  {
    if f > 0 {
      PrevAtMost(ss, f - 1, p, bound);
    }
  }

  /** The loose costs are exactly the span of totals that they cover. */
  lemma {:induction false} LooseSpan(ss: seq<Session>, j: nat, k: nat, p: string, exact: real)
    requires j <= k <= |ss| && Linked(ss)
    requires forall i :: j <= i < k && p in ss[i].totals ==> Loose(ss[i], p, exact)
    ensures CostAt(ss, LooseAt(ss, j, k, p, exact)) == Prev(ss, k, p) - Prev(ss, j, p)
    decreases k - j
  {
    if j < k {
      assert LinkedAt(ss, j);
      LooseSpan(ss, j + 1, k, p, exact);
      var at := LooseAt(ss, j, k, p, exact);
      if Loose(ss[j], p, exact) {
        assert at[1..] == LooseAt(ss, j + 1, k, p, exact);
      }
    }
  }
}
