/** Nothing is lost: over every run of ledger writers the money spent is the sum
    of the session costs, and balance and spending together are exactly what was
    granted, adjusted and earned. */
module Conservation {
  import opened Wrappers
  import opened Ledger
  import opened Receipts
  import opened Writers

  // ------------------------------------------------- funding, independently

  /** What the ledger's events put in: grants and adjustments, and the rate
      integrated over the watermark, whatever amounts accrual events state. */
  datatype Fund = Fund(rate: real, watermark: real, granted: real, earned: real)

  function Funded(f: Fund, e: Event): Fund {
    match e
    case Grant(delta) => f.(granted := f.granted + delta)
    case Adjust(delta) => f.(granted := f.granted + delta)
    case SetRate(rate) => f.(rate := rate)
    case Accrue(_, w) => f.(earned := f.earned + (w - f.watermark) * f.rate / 3600.0, watermark := w)
    case _ => f
  }

  function FundedAll(f: Fund, events: seq<Event>): Fund
    decreases |events|
  {
    if events == [] then f else FundedAll(Funded(f, events[0]), events[1..])
  }

  function FundOf(ledger: seq<Record>): Fund {
    if ledger == [] then Fund(0.0, 0.0, 0.0, 0.0)
    else FundedAll(FundOf(ledger[..|ledger| - 1]), ledger[|ledger| - 1].events)
  }

  /** The books balance. */
  predicate Balanced(st: State, f: Fund) {
    && st.rate == f.rate
    && st.watermark == f.watermark
    && st.spent == TotalCost(st.sessions)
    && st.balance + st.spent == f.granted + f.earned
  }

  // ------------------------------------------------------- honest events

  /** An event that states the amounts which the state implies. */
  predicate Honest(st: State, e: Event) {
    match e
    case Accrue(amount, w) => amount == (w - st.watermark) * st.rate / 3600.0 && w >= st.watermark
    case Admit(s) => !Has(st.sessions, s.id) && s.cost.None? && s.status != Settled
    case Settle(id, _, _, _, _, _, _) =>
      Has(st.sessions, id) && Cost(Get(st.sessions, id)) == 0.0 && Get(st.sessions, id).status != Settled
    case Correct(id, delta, cost, _, _, _) =>
      Has(st.sessions, id) && delta == Cost(Get(st.sessions, id)) - cost
    case Unresolve(id, _, _, _) => Has(st.sessions, id) && Get(st.sessions, id).status != Settled
    case _ => true
  }

  predicate HonestAll(st: State, events: seq<Event>, stamp: real)
    decreases |events|
  {
    events == [] ||
    (&& Honest(st, events[0])
     && Apply(st, events[0], stamp).Some?
     && HonestAll(Apply(st, events[0], stamp).value, events[1..], stamp))
  }

  lemma AdmitApplies(st: State, e: Event, f: Fund, stamp: real)
    requires e.Admit? && Honest(st, e) && UniqueIds(st.sessions) && Balanced(st, f)
    ensures Apply(st, e, stamp).Some?
    ensures var next := Apply(st, e, stamp).value; UniqueIds(next.sessions) && Balanced(next, Funded(f, e))
  {
    PutAtEnd(st.sessions, e.session);
    SumByAppend(Cost, st.sessions, e.session);
  }

  lemma SettleApplies(st: State, e: Event, f: Fund, stamp: real)
    requires e.Settle? && Honest(st, e) && UniqueIds(st.sessions) && Balanced(st, f)
    ensures Apply(st, e, stamp).Some?
    ensures var next := Apply(st, e, stamp).value; UniqueIds(next.sessions) && Balanced(next, Funded(f, e))
  {
    CostChange(st.sessions, Settling(Get(st.sessions, e.id), e, stamp));
  }

  lemma CorrectApplies(st: State, e: Event, f: Fund, stamp: real)
    requires e.Correct? && Honest(st, e) && UniqueIds(st.sessions) && Balanced(st, f)
    ensures Apply(st, e, stamp).Some?
    ensures var next := Apply(st, e, stamp).value; UniqueIds(next.sessions) && Balanced(next, Funded(f, e))
  {
    CostChange(st.sessions, Correcting(Get(st.sessions, e.id), e));
  }

  lemma UnresolveApplies(st: State, e: Event, f: Fund, stamp: real)
    requires e.Unresolve? && Honest(st, e) && UniqueIds(st.sessions) && Balanced(st, f)
    ensures Apply(st, e, stamp).Some?
    ensures var next := Apply(st, e, stamp).value; UniqueIds(next.sessions) && Balanced(next, Funded(f, e))
  {
    CostChange(st.sessions, Unresolving(Get(st.sessions, e.id), e));
  }

  lemma HonestApplies(st: State, e: Event, f: Fund, stamp: real)
    requires Honest(st, e) && UniqueIds(st.sessions) && Balanced(st, f)
    ensures Apply(st, e, stamp).Some?
    ensures var next := Apply(st, e, stamp).value; UniqueIds(next.sessions) && Balanced(next, Funded(f, e))
  {
    match e
    case Admit(_) => AdmitApplies(st, e, f, stamp);
    case Settle(_, _, _, _, _, _, _) => SettleApplies(st, e, f, stamp);
    case Correct(_, _, _, _, _, _) => CorrectApplies(st, e, f, stamp);
    case Unresolve(_, _, _, _) => UnresolveApplies(st, e, f, stamp);
    case _ =>
  }

  lemma CostChange(ss: seq<Session>, s: Session)
    requires UniqueIds(ss) && Has(ss, s.id)
    ensures UniqueIds(Put(ss, s))
    ensures TotalCost(Put(ss, s)) == TotalCost(ss) - Cost(Get(ss, s.id)) + Cost(s)
  {
    PutInPlace(ss, s);
    SumByUpdate(Cost, ss, IndexOf(ss, s.id), s);
  }

  lemma {:induction false} HonestAllApplies(st: State, events: seq<Event>, f: Fund, stamp: real)
    requires HonestAll(st, events, stamp) && UniqueIds(st.sessions) && Balanced(st, f)
    ensures ApplyAll(st, events, stamp).Some?
    ensures var next := ApplyAll(st, events, stamp).value;
            UniqueIds(next.sessions) && Balanced(next, FundedAll(f, events))
    decreases |events|
  {
    if events != [] {
      HonestApplies(st, events[0], f, stamp);
      HonestAllApplies(Apply(st, events[0], stamp).value, events[1..], Funded(f, events[0]), stamp);
    }
  }

  lemma {:induction false} HonestConcat(st: State, a: seq<Event>, b: seq<Event>, stamp: real)
    requires HonestAll(st, a, stamp)
    requires ApplyAll(st, a, stamp).Some? ==> HonestAll(ApplyAll(st, a, stamp).value, b, stamp)
    ensures HonestAll(st, a + b, stamp)
    decreases |a|
  {
    if a == [] {
      assert a + b == b;
    } else {
      assert (a + b)[1..] == a[1..] + b;
      HonestConcat(Apply(st, a[0], stamp).value, a[1..], b, stamp);
    }
  }

  lemma {:induction false} HonestSplit(st: State, a: seq<Event>, b: seq<Event>, stamp: real)
    requires HonestAll(st, a + b, stamp)
    ensures HonestAll(st, a, stamp) && ApplyAll(st, a, stamp).Some?
    ensures HonestAll(ApplyAll(st, a, stamp).value, b, stamp)
    decreases |a|
  {
    if a == [] {
      assert a + b == b;
    } else {
      assert (a + b)[1..] == a[1..] + b;
      HonestSplit(Apply(st, a[0], stamp).value, a[1..], b, stamp);
    }
  }
}
