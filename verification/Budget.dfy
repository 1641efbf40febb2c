/** The budget: the ledger file and the queue file, and the writers that change them.
    Every call does to the files exactly what its specification in Writers says. */
module Accounting {
  import opened Wrappers
  import opened Ledger
  import opened Selection
  import opened Receipts
  import opened Writers
  import opened RelatedRows
  import opened ReceiptLoops
  import opened AdmissionLoops
  import opened StateBooks

  /** What a caller of a writer learns. */
  datatype Answer = Unreadable | Denied(why: Refusal) | Done

  function AnswerTo(files: Files, op: Op, t: Ticks): Answer {
    match Replay(files.ledger)
    case None => Unreadable
    case Some(st) =>
      AnswerOf(TxOf(st, files.queue, op, t))
  }

  function AnswerOf(tx: Tx): Answer {
    if tx.Refused? then Denied(tx.why) else Done
  }

  function KeysOf(entries: Entries): (keys: set<string>)
    ensures forall i :: 0 <= i < |entries| ==> entries[i].0 in keys
  {
    set i | 0 <= i < |entries| :: entries[i].0
  }

  lemma {:induction false} ChargeIsSum(prior: seq<Session>, entries: Entries)
    requires forall i :: 0 <= i < |entries| ==> entries[i].1 >= Baseline(prior, entries[i].0)
    ensures Charge(prior, entries) == Sum(Differences(prior, entries))
    decreases |entries|
  {
    if entries != [] {
      var n := |entries| - 1;
      ChargeIsSum(prior, entries[..n]);
      assert Differences(prior, entries)[..n] == Differences(prior, entries[..n]);
    }
  }

  // ---------------------------------------------------------------- receipts

  /** What is known above the baselines, from the related sessions; None when the bound
      lies below one of them. */
  method KnownAgainst(ghost st: State, r: Receipt, ordered: seq<Session>, position: nat, ghost keys: set<string>)
    returns (known: Option<real>)
    requires Has(st.sessions, r.id) && ordered == Related(st.sessions, keys, r.id)
    requires Has(ordered, r.id) && position == IndexOf(ordered, r.id)
    requires forall i :: 0 <= i < |LowerTotals(r)| ==> LowerTotals(r)[i].0 in keys
    ensures var ds := Differences(st.sessions[..IndexOf(st.sessions, r.id)], LowerTotals(r));
            && (known.None? <==> exists i :: 0 <= i < |ds| && ds[i] < 0.0)
            && (known.Some? ==> known.value == Sum(ds))
  {
    BoundRows(st, r, ordered, position, keys);
    var baseline := Baselines(ordered[..position]);
    known := Added(ordered[..position], LowerTotals(r), baseline);
    BoundKnown(ordered[..position], LowerTotals(r), baseline, known);
  }

  /** Reserves a full further estimate beside what is known. */
  method Reserve(books: Books, r: Receipt, known: real, estimate: real, t: Ticks) returns (tx: Tx)
    requires Has(books.sessions, r.id)
    modifies books`balance, books`watermark
    ensures tx == BoundTx(old(books.View()), r, known, estimate, t)
  {
    var session := Get(books.sessions, r.id);
    var tail := Max(Max(session.estimate, estimate), known);
    if session.provenance == Some(TokenPricedPrefix) && session.tail.Some? {
      tail := session.tail.value;
    }
    var reserve := Max(session.reserve.GetOr(0.0), Max(0.0, known - Cost(session)) + tail);
    if && session.status == (if LowerBoundOnly(r) then Provisional else Unresolved)
       && session.lowerCost.Some? && session.lowerTotals == AsTotals(LowerTotals(r))
       && session.reserve == Some(reserve) {
      return NoChange;
    }
    var accrual := books.EarnRate(t.accrual);
    var hold := Hold(reserve, known, AsTotals(LowerTotals(r)), r.outcome, None);
    return Append([accrual, Unresolve(r.id, LowerBoundOnly(r), FinishOf(r.finished), Some(hold))]);
  }

  /** The reservation beside a lower bound; None when there is no bound or it lies below
      a baseline. */
  method BoundAgainst(books: Books, r: Receipt, ordered: seq<Session>, position: nat, ghost keys: set<string>, t: Ticks)
    returns (tx: Option<Tx>)
    requires Has(books.sessions, r.id) && ordered == Related(books.sessions, keys, r.id)
    requires Has(ordered, r.id) && position == IndexOf(ordered, r.id)
    requires forall i :: 0 <= i < |LowerTotals(r)| ==> LowerTotals(r)[i].0 in keys
    modifies books`balance, books`watermark
    ensures tx == LowerBoundTx(old(books.View()), r, t)
    ensures tx.None? ==> books.View() == old(books.View())
  {
    if LowerTotals(r) == [] {
      return None;
    }
    var known := KnownAgainst(books.View(), r, ordered, position, keys);
    if known.None? {
      return None;
    }
    var session := Get(books.sessions, r.id);
    var estimate := Estimate(books.sessions, session.model, Some(session.phase), false);
    var bound := Reserve(books, r, known.value, estimate, t);
    return Some(bound);
  }

  lemma BoundRows(st: State, r: Receipt, ordered: seq<Session>, position: nat, keys: set<string>)
    requires Has(st.sessions, r.id) && ordered == Related(st.sessions, keys, r.id)
    requires Has(ordered, r.id) && position == IndexOf(ordered, r.id)
    requires forall i :: 0 <= i < |LowerTotals(r)| ==> LowerTotals(r)[i].0 in keys
    ensures Differences(ordered[..position], LowerTotals(r))
         == Differences(st.sessions[..IndexOf(st.sessions, r.id)], LowerTotals(r))
  {
    var k := IndexOf(st.sessions, r.id);
    var before := Related(st.sessions[..k], keys, r.id);
    RelatedAround(st.sessions, keys, r.id);
    assert ordered[..position] == before;
    ChargeRelated(st.sessions[..k], keys, r.id, LowerTotals(r));
  }

  /** The computed bound is the sum of the differences, when none is negative. */
  lemma BoundKnown(prior: seq<Session>, lower: Entries, baseline: map<string, real>, known: Option<real>)
    requires forall p :: Known(baseline, p) == Baseline(prior, p)
    requires known.None? <==> exists i :: Below(lower, i, baseline)
    requires known.Some? && Reached(prior, lower, |lower|, baseline) ==> known.value == Charge(prior, lower)
    ensures var ds := Differences(prior, lower);
            && (known.None? <==> exists i :: 0 <= i < |ds| && ds[i] < 0.0)
            && (known.Some? ==> known.value == Sum(ds))
  {
    var ds := Differences(prior, lower);
    if i :| Below(lower, i, baseline) {
      assert ds[i] < 0.0;
    } else {
      forall i | 0 <= i < |lower| ensures lower[i].1 >= Baseline(prior, lower[i].0) && ds[i] >= 0.0 {
        assert !Below(lower, i, baseline);
      }
      ChargeIsSum(prior, lower);
    }
  }

  /** Settles against the related sessions: clamped estimates, the session itself, and
      the later sessions whose baseline moves. */
  method NativeAgainst(books: Books, r: Receipt, totals: Entries, ordered: seq<Session>, position: nat,
                       ghost keys: set<string>, t: Ticks)
    returns (tx: Option<Tx>)
    requires Has(books.sessions, r.id) && ordered == Related(books.sessions, keys, r.id)
    requires Has(ordered, r.id) && position == IndexOf(ordered, r.id)
    requires DistinctKeys(totals) && forall i :: 0 <= i < |totals| ==> totals[i].0 in keys
    modifies books`balance, books`watermark
    ensures books.View() == Accrued(old(books.View()), t.accrual)
    ensures var st, k := old(books.View()), IndexOf(books.sessions, r.id);
            var clamps := ClampAll(st.sessions, k, totals);
            tx == if clamps.None? then None else Some(NativeTx(st, k, r, totals, clamps.value, t))
  {
    ghost var st := books.View();
    ghost var k := IndexOf(st.sessions, r.id);
    NativeRelatedAll(st, r, totals, ordered, position, keys, t);
    var session := Get(books.sessions, r.id);
    var accrual := books.EarnRate(t.accrual);
    var base := Baselines(ordered[..position]);
    var clamps, baseline := ClampProviders(ordered[..position], totals, base);
    var added := Added(ordered[..position], totals, baseline);
    if clamps.None? || added.None? {
      assert added.None?;
      ReachedNotBelow(ordered[..position], totals, baseline, clamps);
      return None;
    }
    var events, cost := [accrual], added.value;
    if session.status == Settled {
      var keysNow := AsTotals(totals).Keys;
      var later := Successors(ordered[position + 1..], keysNow, cost - Cost(session));
      if later.Err? {
        return Some(Refused(later.error));
      }
      events := events + (clamps.value + ([OwnCorrection(session, r, totals, cost)] + later.value));
    } else {
      events := events + (clamps.value + SettleEvents(session, r, totals, cost));
    }
    return Some(Append(events));
  }

  lemma NativeRelatedAll(st: State, r: Receipt, totals: Entries, ordered: seq<Session>, position: nat,
                         keys: set<string>, t: Ticks)
    requires Has(st.sessions, r.id) && ordered == Related(st.sessions, keys, r.id)
    requires Has(ordered, r.id) && position == IndexOf(ordered, r.id)
    requires forall i :: 0 <= i < |totals| ==> totals[i].0 in keys
    ensures var k := IndexOf(st.sessions, r.id);
            var clamps := ClampAll(st.sessions, k, totals);
            && ClampAllRows(ordered[..position], totals) == clamps
            && (clamps.Some? ==> NativeRows(st, st.sessions[k], ordered, position, r, totals, clamps.value, t)
                                 == NativeTx(st, k, r, totals, clamps.value, t))
  {
    var k := IndexOf(st.sessions, r.id);
    var before := Related(st.sessions[..k], keys, r.id);
    RelatedAround(st.sessions, keys, r.id);
    assert ordered[..position] == before;
    ClampAllRelated(st.sessions, k, keys, r.id, totals);
    var clamps := ClampAll(st.sessions, k, totals);
    if clamps.Some? {
      NativeRelated(st, r.id, keys, r, totals, clamps.value, t);
    }
  }

  /** After clamping every provider none lies below its baseline. */
  lemma ReachedNotBelow(prior: seq<Session>, entries: Entries, baseline: map<string, real>, clamps: Option<seq<Event>>)
    requires clamps.Some? ==> Reached(prior, entries, |entries|, baseline)
    requires exists i :: Below(entries, i, baseline)
    ensures clamps.None?
  {
  }

  /** The whole of a receipt: checks, then a lower bound or an authoritative total;
      None when the session is only to be marked unresolved. */
  method SettleAgainst(books: Books, r: Receipt, host: Host, t: Ticks) returns (tx: Option<Tx>)
    requires r.totals.Some? ==> DistinctKeys(r.totals.value)
    modifies books`balance, books`watermark
    ensures tx.Some? ==> tx.value == ReceiptTx(old(books.View()), r, host, t)
    ensures tx.None? ==> ReceiptTx(old(books.View()), r, host, t)
                         == SettleTx(old(books.View()), r.id, None, r.outcome, r.noted, map[], NativeReported,
                                     r.finished, t)
  {
    var screened := Screened(books.View(), r, host, t);
    if screened.Some? {
      return screened;
    }
    var session := Get(books.sessions, r.id);
    var totals := FinalTotals(r);
    var keys := KeysOf(totals.GetOr([])) + KeysOf(LowerTotals(r));
    var ordered := Related(books.sessions, keys, r.id);
    RelatedAround(books.sessions, keys, r.id);
    var position := IndexOf(ordered, r.id);
    if totals.None? {
      tx := BoundAgainst(books, r, ordered, position, keys, t);
    } else {
      tx := NativeAgainst(books, r, totals.value, ordered, position, keys, t);
    }
    if tx.None? && session.status == Settled {
      return Some(NoChange);
    }
  }
}
