/** What clamping promises on every ledger, linked or not, and with any number of
    providers in one receipt. */
module ClampTheorem {
  import opened Wrappers
  import opened Ledger
  import opened Receipts
  import opened Writers
  import opened Corrections
  import opened ReceiptEffects
  import opened ShareArithmetic
  import opened Clamping
  import opened ClampedChains

  /** The cumulative totals that start at cursor and grow by these shares. */
  function Running(vs: seq<real>, cursor: real): (ts: seq<real>)
    ensures |ts| == |vs|
    decreases |vs|
  {
    if vs == [] then [] else [cursor + vs[0]] + Running(vs[1..], cursor + vs[0])
  }

  predicate Rising(ts: seq<real>, floor: real) {
    forall i :: 0 <= i < |ts| ==> ts[i] >= floor && (i > 0 ==> ts[i] >= ts[i - 1])
  }

  lemma {:induction false} RunningRises(vs: seq<real>, cursor: real)
    requires forall i :: 0 <= i < |vs| ==> vs[i] >= 0.0
    ensures Rising(Running(vs, cursor), cursor)
    ensures vs != [] ==> Running(vs, cursor)[|vs| - 1] == cursor + Total(vs)
    decreases |vs|
  {
    if vs != [] {
      var rest := Running(vs[1..], cursor + vs[0]);
      RunningRises(vs[1..], cursor + vs[0]);
      var ts := Running(vs, cursor);
      forall i | 0 <= i < |ts| ensures ts[i] >= cursor && (i > 0 ==> ts[i] >= ts[i - 1]) {
        if i > 0 {
          assert ts[i] == rest[i - 1];
          assert i > 1 ==> ts[i - 1] == rest[i - 2];
        }
      }
      if |vs| == 1 {
        assert Total(vs[1..]) == 0.0;
      }
    }
  }

  /** Without any estimated cost everything goes to the last session. */
  lemma {:induction false} WeightlessShares(ss: seq<Session>, at: seq<nat>, native: real, exact: real, cursor: real)
    requires at != [] && forall i :: 0 <= i < |at| ==> at[i] < |ss|
    requires native >= cursor
    ensures var vs := Shares(ss, at, native, exact, 0.0, cursor);
            (forall i :: 0 <= i < |vs| ==> vs[i] >= 0.0) && cursor + Total(vs) == native
    decreases |at|
  {
    var vs := Shares(ss, at, native, exact, 0.0, cursor);
    if |at| == 1 {
      assert vs[1..] == [];
    } else {
      var rest := Shares(ss, at[1..], native, exact, 0.0, cursor + 0.0);
      WeightlessShares(ss, at[1..], native, exact, cursor);
      assert vs == [0.0] + rest && vs[1..] == rest;
    }
  }

  lemma {:induction false} WeightNonnegative(ss: seq<Session>, at: seq<nat>)
    requires forall i :: 0 <= i < |at| ==> at[i] < |ss| && Cost(ss[at[i]]) >= 0.0
    ensures CostAt(ss, at) >= 0.0
    decreases |at|
  {
    if at != [] {
      WeightNonnegative(ss, at[1..]);
    }
  }

  /** The i-th event gives the i-th loose session its share and its running total. */
  predicate GivesShares(ss: seq<Session>, events: seq<Event>, at: seq<nat>, p: string, vs: seq<real>, ts: seq<real>)
    requires forall i :: 0 <= i < |at| ==> at[i] < |ss|
  {
    && |events| == |at| == |vs| == |ts|
    && forall i :: 0 <= i < |at| ==>
         && events[i].Correct?
         && events[i].id == ss[at[i]].id
         && events[i].cost == vs[i]
         && events[i].delta == Cost(ss[at[i]]) - vs[i]
         && events[i].newTotals == Some(map[p := ts[i]])
         && events[i].provenance == ss[at[i]].provenance
  }

  lemma {:induction false} EventsCount(ss: seq<Session>, at: seq<nat>, p: string,
                                       native: real, exact: real, weight: real, cursor: real)
    requires forall i :: 0 <= i < |at| ==> at[i] < |ss|
    ensures |ClampEvents(ss, at, p, native, exact, weight, cursor)| == |at|
    decreases |at|
  {
    if at != [] {
      var value := Share(ss[at[0]], |at| == 1, native, exact, weight, cursor);
      EventsCount(ss, at[1..], p, native, exact, weight, cursor + value);
    }
  }

  /** The i-th clamping event. */
  lemma {:induction false} EventAt(ss: seq<Session>, at: seq<nat>, p: string,
                                   native: real, exact: real, weight: real, cursor: real, i: nat)
    requires i < |at| && forall j :: 0 <= j < |at| ==> at[j] < |ss|
    ensures var events := ClampEvents(ss, at, p, native, exact, weight, cursor);
            var vs := Shares(ss, at, native, exact, weight, cursor);
            && i < |events|
            && events[i] == ClampEvent(ss[at[i]], p, vs[i], Running(vs, cursor)[i])
    decreases |at|
  {
    var value := Share(ss[at[0]], |at| == 1, native, exact, weight, cursor);
    var vs := Shares(ss, at, native, exact, weight, cursor);
    EventsCount(ss, at, p, native, exact, weight, cursor);
    assert vs[0] == value && Running(vs, cursor)[0] == cursor + value;
    if i > 0 {
      var rest := Shares(ss, at[1..], native, exact, weight, cursor + value);
      EventAt(ss, at[1..], p, native, exact, weight, cursor + value, i - 1);
      assert vs[1..] == rest && at[1..][i - 1] == at[i];
      assert Running(vs, cursor)[i] == Running(rest, cursor + value)[i - 1];
    }
  }

  lemma EventsGiveShares(ss: seq<Session>, at: seq<nat>, p: string,
                         native: real, exact: real, weight: real, cursor: real)
    requires forall i :: 0 <= i < |at| ==> at[i] < |ss|
    ensures var vs := Shares(ss, at, native, exact, weight, cursor);
            GivesShares(ss, ClampEvents(ss, at, p, native, exact, weight, cursor), at, p, vs, Running(vs, cursor))
  {
    EventsCount(ss, at, p, native, exact, weight, cursor);
    var events := ClampEvents(ss, at, p, native, exact, weight, cursor);
    var vs := Shares(ss, at, native, exact, weight, cursor);
    var ts := Running(vs, cursor);
    forall i | 0 <= i < |at| ensures events[i] == ClampEvent(ss[at[i]], p, vs[i], ts[i]) {
      EventAt(ss, at, p, native, exact, weight, cursor, i);
    }
  }

  /** One provider: every trailing estimate gets a nonnegative cost, the totals rise
      from the last exact one, and together the costs are exactly what the native
      total adds to it. This holds even when all the estimates were free. */
  lemma ClampSplits(ss: seq<Session>, upto: nat, p: string, native: real) returns (vs: seq<real>, ts: seq<real>)
    requires upto <= |ss| && Clampable(ss, upto, p, native)
    requires forall i :: 0 <= i < upto && p in ss[i].totals ==> Cost(ss[i]) >= 0.0
    ensures var exact := Exact(ss[..upto], p);
            && GivesShares(ss, Clamp(ss, upto, p, native), LooseAt(ss, 0, upto, p, exact), p, vs, ts)
            && (forall i :: 0 <= i < |vs| ==> vs[i] >= 0.0)
            && Total(vs) == native - exact
            && Rising(ts, exact)
            && ts != [] && ts[|ts| - 1] == native
  {
    var exact := Exact(ss[..upto], p);
    var at := LooseAt(ss, 0, upto, p, exact);
    vs := SplitShares(ss, at, native, exact);
    ts := Running(vs, exact);
    EventsGiveShares(ss, at, p, native, exact, CostAt(ss, at), exact);
    RunningRises(vs, exact);
  }

  lemma SplitShares(ss: seq<Session>, at: seq<nat>, native: real, exact: real) returns (vs: seq<real>)
    requires at != [] && native >= exact && forall i :: 0 <= i < |at| ==> at[i] < |ss| && Cost(ss[at[i]]) >= 0.0
    ensures vs == Shares(ss, at, native, exact, CostAt(ss, at), exact)
    ensures (forall i :: 0 <= i < |vs| ==> vs[i] >= 0.0) && Total(vs) == native - exact
  {
    var weight := CostAt(ss, at);
    vs := Shares(ss, at, native, exact, weight, exact);
    WeightNonnegative(ss, at);
    if weight > 0.0 {
      ScaledEnds(native, exact, weight);
      SharesReach(ss, at, native, exact, weight, 0.0, exact);
    } else {
      WeightlessShares(ss, at, native, exact, exact);
    }
  }

  // -------------------------------------------------------- all or nothing

  predicate Blocked(ss: seq<Session>, upto: nat, entry: (string, real))
    requires upto <= |ss|
  {
    entry.1 < Baseline(ss[..upto], entry.0) && !Clampable(ss, upto, entry.0, entry.1)
  }

  lemma {:induction false} ClampAllIff(ss: seq<Session>, upto: nat, entries: Entries)
    requires upto <= |ss|
    ensures ClampAll(ss, upto, entries).None? <==>
            exists i :: 0 <= i < |entries| && Blocked(ss, upto, entries[i])
    decreases |entries|
  {
    if entries != [] {
      var n := |entries| - 1;
      var init := entries[..n];
      ClampAllIff(ss, upto, init);
      if i :| 0 <= i < |init| && Blocked(ss, upto, init[i]) {
        assert Blocked(ss, upto, entries[i]);
      } else {
        assert forall j :: 0 <= j < n ==> init[j] == entries[j];
        assert Blocked(ss, upto, entries[n]) ==> ClampAll(ss, upto, entries).None?;
      }
    }
  }

  /** One provider that cannot be clamped stops the receipt: whatever the others
      could have changed, no amount is recorded at all. */
  lemma BlockedChangesNothing(st: State, r: Receipt, host: Host, t: Ticks)
    requires Has(st.sessions, r.id) && FinalTotals(r).Some?
    requires exists i :: 0 <= i < |FinalTotals(r).value| &&
               Blocked(st.sessions, IndexOf(st.sessions, r.id), FinalTotals(r).value[i])
    ensures var tx := ReceiptTx(st, r, host, t);
            tx.Append? ==>
              && |tx.events| == 2 && tx.events[0] == AccrueEvent(st, t.accrual)
              && tx.events[1] == Unresolve(r.id, false, FinishOf(r.finished), None)
              && Get(st.sessions, r.id).status != Settled
  {
    ClampAllIff(st.sessions, IndexOf(st.sessions, r.id), FinalTotals(r).value);
  }
}
