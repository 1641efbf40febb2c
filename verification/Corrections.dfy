/** A transaction's correction events, each of a different session. */
module Corrections {
  import opened Wrappers
  import opened Ledger
  import opened Receipts
  import opened Conservation

  /** The i-th event corrects the session at position at[i], no position twice,
      and every delta is measured against the costs in ss. */
  predicate Targets(ss: seq<Session>, events: seq<Event>, at: seq<nat>) {
    && |at| == |events|
    && (forall i :: 0 <= i < |at| ==>
          && at[i] < |ss|
          && events[i].Correct?
          && events[i].id == ss[at[i]].id
          && events[i].delta == Cost(ss[at[i]]) - events[i].cost)
    && (forall i, j :: 0 <= i < j < |at| ==> at[i] != at[j])
  }

  /** Exactly the targeted sessions are corrected, each by its own event. */
  predicate Corrected(ss: seq<Session>, after: seq<Session>, events: seq<Event>, at: seq<nat>)
    requires Targets(ss, events, at)
  {
    && |after| == |ss|
    && (forall k :: 0 <= k < |ss| && k !in at ==> after[k] == ss[k])
    && (forall i :: 0 <= i < |at| ==> after[at[i]] == Correcting(ss[at[i]], events[i]))
  }

  /** One correction at position k. */
  lemma CorrectOne(st: State, e: Event, k: nat, stamp: real)
    requires UniqueIds(st.sessions) && k < |st.sessions|
    requires e.Correct? && e.id == st.sessions[k].id && e.delta == Cost(st.sessions[k]) - e.cost
    ensures Honest(st, e) && Apply(st, e, stamp).Some?
    ensures var next := Apply(st, e, stamp).value;
            && next.sessions == st.sessions[k := Correcting(st.sessions[k], e)]
            && UniqueIds(next.sessions)
            && next == st.(balance := next.balance, spent := next.spent, sessions := next.sessions)
  {
    IndexOfUnique(st.sessions, k);
    PutInPlace(st.sessions, Correcting(st.sessions[k], e));
  }

  lemma TargetsTail(ss: seq<Session>, events: seq<Event>, at: seq<nat>)
    requires Targets(ss, events, at) && at != []
    ensures Targets(ss[at[0] := Correcting(ss[at[0]], events[0])], events[1..], at[1..])
    ensures at[0] !in at[1..]
  {
  }

  lemma CorrectedHead(ss: seq<Session>, after: seq<Session>, events: seq<Event>, at: seq<nat>)
    requires Targets(ss, events, at) && at != []
    requires Targets(ss[at[0] := Correcting(ss[at[0]], events[0])], events[1..], at[1..])
    requires Corrected(ss[at[0] := Correcting(ss[at[0]], events[0])], after, events[1..], at[1..])
    requires at[0] !in at[1..]
    ensures Corrected(ss, after, events, at)
  {
    var mid := ss[at[0] := Correcting(ss[at[0]], events[0])];
    forall k | 0 <= k < |ss| && k !in at ensures after[k] == ss[k] {
      assert k !in at[1..] && k != at[0];
    }
    forall i | 0 <= i < |at| ensures after[at[i]] == Correcting(ss[at[i]], events[i]) {
      if i > 0 {
        assert at[1..][i - 1] == at[i] && events[1..][i - 1] == events[i];
        assert mid[at[i]] == ss[at[i]];
      }
    }
  }

  lemma {:induction false} CorrectAll(st: State, events: seq<Event>, at: seq<nat>, stamp: real)
    requires UniqueIds(st.sessions) && Targets(st.sessions, events, at)
    ensures HonestAll(st, events, stamp)
    ensures ApplyAll(st, events, stamp).Some?
    ensures var next := ApplyAll(st, events, stamp).value;
            && Corrected(st.sessions, next.sessions, events, at)
            && UniqueIds(next.sessions)
            && next == st.(balance := next.balance, spent := next.spent, sessions := next.sessions)
    decreases |events|
  {
    if events != [] {
      CorrectOne(st, events[0], at[0], stamp);
      TargetsTail(st.sessions, events, at);
      var mid := Apply(st, events[0], stamp).value;
      CorrectAll(mid, events[1..], at[1..], stamp);
      CorrectedHead(st.sessions, ApplyAll(st, events, stamp).value.sessions, events, at);
    }
  }

  lemma TargetsConcat(ss: seq<Session>, a: seq<Event>, at: seq<nat>, b: seq<Event>, bt: seq<nat>)
    requires Targets(ss, a, at) && Targets(ss, b, bt)
    requires forall i, j :: 0 <= i < |at| && 0 <= j < |bt| ==> at[i] != bt[j]
    ensures Targets(ss, a + b, at + bt)
  {
  }
}
