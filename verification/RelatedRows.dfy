/** The small provider-linked history that a receipt is settled against gives the
    same transaction as the whole ledger. */
module RelatedRows {
  import opened Wrappers
  import opened Ledger
  import opened Receipts

  predicate IsRelated(s: Session, keys: set<string>, own: string) {
    || s.id == own
    || s.totals.Keys * keys != {}
    || (s.resume.Some? && s.resume.value in keys)
  }

  /** The session itself and all that recorded or resume one of the providers. */
  function Related(ss: seq<Session>, keys: set<string>, own: string): seq<Session>
    decreases |ss|
  {
    if ss == [] then []
    else if IsRelated(ss[0], keys, own) then [ss[0]] + Related(ss[1..], keys, own)
    else Related(ss[1..], keys, own)
  }

  lemma {:induction false} RelatedConcat(a: seq<Session>, b: seq<Session>, keys: set<string>, own: string)
    ensures Related(a + b, keys, own) == Related(a, keys, own) + Related(b, keys, own)
    decreases |a|
  {
    if a == [] {
      assert a + b == b;
    } else {
      assert (a + b)[1..] == a[1..] + b;
      RelatedConcat(a[1..], b, keys, own);
    }
  }

  lemma {:induction false} RelatedMembers(ss: seq<Session>, keys: set<string>, own: string)
    ensures forall s :: s in Related(ss, keys, own) ==> s in ss
    decreases |ss|
  {
    if ss != [] {
      RelatedMembers(ss[1..], keys, own);
    }
  }

  lemma {:induction false} IndexOfMiddle(a: seq<Session>, s: Session, b: seq<Session>)
    requires forall u :: u in a ==> u.id != s.id
    ensures Has(a + [s] + b, s.id) && IndexOf(a + [s] + b, s.id) == |a|
    decreases |a|
  {
    var all := a + [s] + b;
    if a != [] {
      assert a[0] in a;
      IndexOfMiddle(a[1..], s, b);
      assert all[1..] == a[1..] + [s] + b;
    }
  }

  /** Where the session itself stands among the related ones. */
  lemma RelatedAround(ss: seq<Session>, keys: set<string>, own: string)
    requires Has(ss, own)
    ensures var k := IndexOf(ss, own);
            var before, after := Related(ss[..k], keys, own), Related(ss[k + 1..], keys, own);
            && Related(ss, keys, own) == before + [ss[k]] + after
            && Has(before + [ss[k]] + after, own)
            && IndexOf(before + [ss[k]] + after, own) == |before|
  {
    var k := IndexOf(ss, own);
    var before, after := Related(ss[..k], keys, own), Related(ss[k + 1..], keys, own);
    RelatedConcat(ss[..k], [ss[k]] + ss[k + 1..], keys, own);
    assert ss == ss[..k] + ([ss[k]] + ss[k + 1..]);
    assert ([ss[k]] + ss[k + 1..])[1..] == ss[k + 1..];
    assert Related(ss, keys, own) == before + ([ss[k]] + after);
    assert before + ([ss[k]] + after) == before + [ss[k]] + after;
    RelatedMembers(ss[..k], keys, own);
    IndexOfMiddle(before, ss[k], after);
  }

  /** What one more session does to the largest totals. */
  lemma BaselineAppend(prior: seq<Session>, s: Session, p: string)
    ensures Baseline(prior + [s], p)
         == if p in s.totals then Max(Baseline(prior, p), s.totals[p]) else Baseline(prior, p)
    ensures Exact(prior + [s], p)
         == if p in s.totals && !Estimated(s.provenance) then Max(Exact(prior, p), s.totals[p]) else Exact(prior, p)
  {
    assert (prior + [s])[..|prior|] == prior;
  }

  lemma {:induction false} BaselineRelated(prior: seq<Session>, keys: set<string>, own: string, p: string)
    requires p in keys
    ensures Baseline(Related(prior, keys, own), p) == Baseline(prior, p)
    ensures Exact(Related(prior, keys, own), p) == Exact(prior, p)
    decreases |prior|
  {
    if prior != [] {
      var n := |prior| - 1;
      var init, s := prior[..n], prior[n];
      BaselineRelated(init, keys, own, p);
      assert prior == init + [s];
      RelatedConcat(init, [s], keys, own);
      BaselineAppend(init, s, p);
      if IsRelated(s, keys, own) {
        assert Related([s], keys, own) == [s];
        BaselineAppend(Related(init, keys, own), s, p);
      } else {
        assert Related([s], keys, own) == [];
        assert Related(init, keys, own) + [] == Related(init, keys, own);
        assert p !in s.totals.Keys * keys;
      }
    }
  }

  lemma {:induction false} ChargeRelated(prior: seq<Session>, keys: set<string>, own: string, entries: Entries)
    requires forall i :: 0 <= i < |entries| ==> entries[i].0 in keys
    ensures Charge(Related(prior, keys, own), entries) == Charge(prior, entries)
    ensures Differences(Related(prior, keys, own), entries) == Differences(prior, entries)
    decreases |entries|
  {
    forall i | 0 <= i < |entries|
      ensures Baseline(Related(prior, keys, own), entries[i].0) == Baseline(prior, entries[i].0)
    {
      BaselineRelated(prior, keys, own, entries[i].0);
    }
    if entries != [] {
      ChargeRelated(prior, keys, own, entries[..|entries| - 1]);
    }
  }

  // ---------------------------------------------------------------- clamping

  function LooseRows(ss: seq<Session>, p: string, exact: real): seq<Session>
    decreases |ss|
  {
    if ss == [] then []
    else if Loose(ss[0], p, exact) then [ss[0]] + LooseRows(ss[1..], p, exact)
    else LooseRows(ss[1..], p, exact)
  }

  lemma {:induction false} LooseRelated(ss: seq<Session>, keys: set<string>, own: string, p: string, exact: real)
    requires p in keys
    ensures LooseRows(Related(ss, keys, own), p, exact) == LooseRows(ss, p, exact)
    decreases |ss|
  {
    if ss != [] {
      LooseRelated(ss[1..], keys, own, p, exact);
      if IsRelated(ss[0], keys, own) {
        assert Related(ss, keys, own)[1..] == Related(ss[1..], keys, own);
      } else {
        assert p !in ss[0].totals.Keys * keys;
      }
    }
  }

  function Rows(ss: seq<Session>, at: seq<nat>): (rows: seq<Session>)
    requires forall i :: 0 <= i < |at| ==> at[i] < |ss|
    ensures |rows| == |at| && forall i :: 0 <= i < |at| ==> rows[i] == ss[at[i]]
  {
    seq(|at|, i requires 0 <= i < |at| => ss[at[i]])
  }

  lemma {:induction false} RowsOfLoose(ss: seq<Session>, from: nat, upto: nat, p: string, exact: real)
    requires from <= upto <= |ss|
    ensures Rows(ss, LooseAt(ss, from, upto, p, exact)) == LooseRows(ss[from..upto], p, exact)
    decreases upto - from
  {
    if from < upto {
      RowsOfLoose(ss, from + 1, upto, p, exact);
      assert ss[from..upto][1..] == ss[from + 1..upto];
      assert ss[from..upto][0] == ss[from];
    }
  }

  function RowCosts(rows: seq<Session>): real
    decreases |rows|
  {
    if rows == [] then 0.0 else Cost(rows[0]) + RowCosts(rows[1..])
  }

  /** The clamping events of consecutive loose sessions. */
  function RowEvents(rows: seq<Session>, p: string, native: real, exact: real, weight: real, cursor: real): seq<Event>
    decreases |rows|
  {
    if rows == [] then []
    else
      var value := Share(rows[0], |rows| == 1, native, exact, weight, cursor);
      [ClampEvent(rows[0], p, value, cursor + value)]
      + RowEvents(rows[1..], p, native, exact, weight, cursor + value)
  }

  lemma {:induction false} RowsClamp(ss: seq<Session>, at: seq<nat>, p: string,
                                     native: real, exact: real, weight: real, cursor: real)
    requires forall i :: 0 <= i < |at| ==> at[i] < |ss|
    ensures CostAt(ss, at) == RowCosts(Rows(ss, at))
    ensures ClampEvents(ss, at, p, native, exact, weight, cursor)
         == RowEvents(Rows(ss, at), p, native, exact, weight, cursor)
    decreases |at|
  {
    if at != [] {
      var value := Share(ss[at[0]], |at| == 1, native, exact, weight, cursor);
      RowsClamp(ss, at[1..], p, native, exact, weight, cursor + value);
      assert Rows(ss, at)[1..] == Rows(ss, at[1..]);
    }
  }

  /** Clamping written over sessions instead of positions. */
  function ClampRows(prior: seq<Session>, p: string, native: real): Option<seq<Event>> {
    var exact := Exact(prior, p);
    var rows := LooseRows(prior, p, exact);
    if native < exact || rows == [] || exists i :: 0 <= i < |rows| && rows[i].totals.Keys != {p} then None
    else Some(RowEvents(rows, p, native, exact, RowCosts(rows), exact))
  }

  lemma ClampRowsIs(ss: seq<Session>, upto: nat, p: string, native: real)
    requires upto <= |ss|
    ensures ClampRows(ss[..upto], p, native)
         == if Clampable(ss, upto, p, native) then Some(Clamp(ss, upto, p, native)) else None
  {
    var exact := Exact(ss[..upto], p);
    var at := LooseAt(ss, 0, upto, p, exact);
    RowsOfLoose(ss, 0, upto, p, exact);
    assert ss[0..upto] == ss[..upto];
    RowsClamp(ss, at, p, native, exact, CostAt(ss, at), exact);
    assert Rows(ss, at) == LooseRows(ss[..upto], p, exact);
  }

  lemma ClampRelated(ss: seq<Session>, upto: nat, keys: set<string>, own: string, p: string, native: real)
    requires upto <= |ss| && p in keys
    ensures ClampRows(Related(ss[..upto], keys, own), p, native) == ClampRows(ss[..upto], p, native)
  {
    BaselineRelated(ss[..upto], keys, own, p);
    LooseRelated(ss[..upto], keys, own, p, Exact(ss[..upto], p));
  }

  /** Clamping a provider, over the related sessions only, when it is below its baseline. */
  function ClampAllRows(prior: seq<Session>, entries: Entries): Option<seq<Event>>
    decreases |entries|
  {
    if entries == [] then Some([])
    else
      var (p, native) := entries[|entries| - 1];
      match ClampAllRows(prior, entries[..|entries| - 1])
      case None => None
      case Some(before) =>
        if native >= Baseline(prior, p) then Some(before)
        else
          match ClampRows(prior, p, native)
          case None => None
          case Some(events) => Some(before + events)
  }

  lemma {:induction false} ClampAllRelated(ss: seq<Session>, upto: nat, keys: set<string>, own: string,
                                           entries: Entries)
    requires upto <= |ss| && forall i :: 0 <= i < |entries| ==> entries[i].0 in keys
    ensures ClampAllRows(Related(ss[..upto], keys, own), entries) == ClampAll(ss, upto, entries)
    decreases |entries|
  {
    if entries != [] {
      var n := |entries| - 1;
      var (p, native) := entries[n];
      assert p == entries[n].0;
      ClampAllRelated(ss, upto, keys, own, entries[..n]);
      BaselineRelated(ss[..upto], keys, own, p);
      ClampRelated(ss, upto, keys, own, p, native);
      ClampRowsIs(ss, upto, p, native);
    }
  }

  // --------------------------------------------------------------- successors

  lemma {:induction false} RebaseRelated(ss: seq<Session>, from: nat, keys: set<string>, wide: set<string>,
                                         own: string, delta: real)
    requires from <= |ss| && keys <= wide
    ensures Rebase(Related(ss[from..], wide, own), 0, keys, delta) == Rebase(ss, from, keys, delta)
    decreases |ss| - from
  {
    if from < |ss| {
      RebaseRelated(ss, from + 1, keys, wide, own, delta);
      var s, rest := ss[from], Related(ss[from + 1..], wide, own);
      assert ss[from..] == [s] + ss[from + 1..];
      assert ([s] + ss[from + 1..])[1..] == ss[from + 1..];
      if IsRelated(s, wide, own) {
        RebaseShift(s, rest, 0, keys, delta);
      } else {
        assert forall p :: p in s.totals.Keys * keys ==> p in s.totals.Keys * wide;
        assert !Touches(s, keys);
      }
    }
  }

  lemma {:induction false} RebaseShift(s: Session, rest: seq<Session>, i: nat, keys: set<string>, delta: real)
    requires i <= |rest|
    ensures Rebase([s] + rest, i + 1, keys, delta) == Rebase(rest, i, keys, delta)
    decreases |rest| - i
  {
    if i < |rest| {
      assert ([s] + rest)[i + 1] == rest[i];
      RebaseShift(s, rest, i + 1, keys, delta);
    }
  }

  /** The transaction of an authoritative receipt, from the related sessions alone. */
  function NativeRows(st: State, s: Session, rows: seq<Session>, position: nat, r: Receipt, entries: Entries,
                      clamps: seq<Event>, t: Ticks): Tx
    requires position < |rows|
  {
    var cost := Charge(rows[..position], entries);
    if s.status == Settled then
      match Rebase(rows[position + 1..], 0, AsTotals(entries).Keys, cost - Cost(s))
      case Err(e) => Refused(e)
      case Ok(later) =>
        Append([AccrueEvent(st, t.accrual)] + (clamps + ([OwnCorrection(s, r, entries, cost)] + later)))
    else
      Append([AccrueEvent(st, t.accrual)] + (clamps + SettleEvents(s, r, entries, cost)))
  }

  lemma {:induction false} AsTotalsKeys(entries: Entries)
    ensures AsTotals(entries).Keys == set i | 0 <= i < |entries| :: entries[i].0
    decreases |entries|
  {
    if entries != [] {
      var n := |entries| - 1;
      AsTotalsKeys(entries[..n]);
      forall p | p in AsTotals(entries).Keys ensures exists i :: 0 <= i < |entries| && entries[i].0 == p {
        if p != entries[n].0 {
          var i :| 0 <= i < n && entries[..n][i].0 == p;
          assert entries[i].0 == p;
        }
      }
      forall i | 0 <= i < |entries| ensures entries[i].0 in AsTotals(entries).Keys {
        if i < n {
          assert entries[..n][i].0 == entries[i].0;
        }
      }
    }
  }

  /** Settling against the related sessions is settling against the whole ledger. */
  lemma NativeRelated(st: State, id: string, keys: set<string>, r: Receipt, entries: Entries, clamps: seq<Event>,
                      t: Ticks)
    requires Has(st.sessions, id) && forall i :: 0 <= i < |entries| ==> entries[i].0 in keys
    ensures var k := IndexOf(st.sessions, id);
            var rows := Related(st.sessions, keys, id);
            && Has(rows, id)
            && NativeRows(st, st.sessions[k], rows, IndexOf(rows, id), r, entries, clamps, t)
               == NativeTx(st, k, r, entries, clamps, t)
  {
    var k := IndexOf(st.sessions, id);
    var before, after := Related(st.sessions[..k], keys, id), Related(st.sessions[k + 1..], keys, id);
    RelatedAround(st.sessions, keys, id);
    assert (before + [st.sessions[k]] + after)[..|before|] == before;
    assert (before + [st.sessions[k]] + after)[|before| + 1..] == after;
    ChargeRelated(st.sessions[..k], keys, id, entries);
    AsTotalsKeys(entries);
    var delta := Charge(st.sessions[..k], entries) - Cost(st.sessions[k]);
    RebaseRelated(st.sessions, k + 1, AsTotals(entries).Keys, keys, id, delta);
  }
}
