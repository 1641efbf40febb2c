/** The append-only budget ledger: sessions, events, and the state that is the
    fold of all events over all records.

    Amounts are exact reals. Sessions are kept in admission order, which is the
    order in which the program's dictionary iterates. */
module Ledger {
  import opened Wrappers

  type Totals = map<string, real>

  datatype Status = Active | Unresolved | Provisional | Settled

  datatype Provenance =
    | NativeReported
    | TokenPriced
    | HistoricalEstimate
    | PrelaunchEstimate
    | TokenPricedPrefix

  datatype Session = Session(
    id: string,
    worker: string,
    model: string,
    phase: string,
    estimate: real,
    status: Status,
    started: real,
    bridge: Option<string>,
    resume: Option<string>,
    archived: bool,
    cost: Option<real>,
    totals: Totals,
    provenance: Option<Provenance>,
    reserve: Option<real>,
    lowerCost: Option<real>,
    lowerTotals: Totals,
    checkpoint: Option<(string, real)>,
    tail: Option<real>,
    outcome: string,
    finished: Option<real>)

  /** A worker's place in the admission queue. */
  datatype Waiting = Waiting(
    worker: string,
    model: string,
    ticket: nat,
    since: real,
    seen: real,
    reason: Reason,
    estimate: real)

  datatype Reason =
    | RepairRequired
    | AlreadyResumed
    | BaselineUnresolved
    | Throughput
    | Calibrating
    | Funding
    | Behind

  /** The finish time of an event: not stated at all, or stated (perhaps null). */
  datatype Finish = Unstated | Stated(at: Option<real>)

  /** The reservation details that an unresolved event may carry. */
  datatype Hold = Hold(
    reserve: real,
    lowerCost: real,
    lowerTotals: Totals,
    outcome: string,
    usage: Option<((string, real), real)>)

  datatype Event =
    | Accrue(amount: real, watermark: real)
    | Grant(delta: real)
    | Adjust(delta: real)
    | SetRate(rate: real)
    | Wait(wait: Waiting)
    | Admit(session: Session)
    | Settle(id: string, cost: real, outcome: string, totals: Totals,
             provenance: Option<Provenance>, finish: Finish, noted: bool)
    | Correct(id: string, delta: real, cost: real, newTotals: Option<Totals>,
              provenance: Option<Provenance>, finish: Finish)
    | Unresolve(id: string, provisional: bool, finish: Finish, hold: Option<Hold>)
    | Cooldown(model: string, until: real)

  datatype Record = Record(number: nat, stamp: real, events: seq<Event>)

  datatype State = State(
    balance: real,
    rate: real,
    spent: real,
    watermark: real,
    sessions: seq<Session>,
    waiting: map<string, Waiting>,
    cooldowns: map<string, real>,
    number: nat)

  const EMPTY := State(0.0, 0.0, 0.0, 0.0, [], map[], map[], 0)

  /** The provenances whose cost is an estimate that a native receipt may replace. */
  predicate Estimated(p: Option<Provenance>) {
    p in {Some(TokenPriced), Some(HistoricalEstimate), Some(PrelaunchEstimate)}
  }

  // ---------------------------------------------------------------- sessions

  function IndexOf(ss: seq<Session>, id: string): (i: nat)
    ensures i <= |ss|
    ensures i < |ss| ==> ss[i].id == id
    ensures forall j :: 0 <= j < i ==> ss[j].id != id
  {
    if ss == [] then 0
    else if ss[0].id == id then 0
    else 1 + IndexOf(ss[1..], id)
  }

  predicate Has(ss: seq<Session>, id: string) {
    IndexOf(ss, id) < |ss|
  }

  function Get(ss: seq<Session>, id: string): Session
    requires Has(ss, id)
  {
    ss[IndexOf(ss, id)]
  }

  /** Replaces the session with the same identity in its place, or appends. */
  function Put(ss: seq<Session>, s: Session): seq<Session> {
    if Has(ss, s.id) then ss[IndexOf(ss, s.id) := s] else ss + [s]
  }

  predicate UniqueIds(ss: seq<Session>) {
    forall i, j :: 0 <= i < j < |ss| ==> ss[i].id != ss[j].id
  }

  lemma IndexOfUnique(ss: seq<Session>, i: nat)
    requires UniqueIds(ss) && i < |ss|
    ensures Has(ss, ss[i].id) && IndexOf(ss, ss[i].id) == i
  {
  }

  function Cost(s: Session): real {
    s.cost.GetOr(0.0)
  }

  /** What an unsettled session holds back from new admissions. */
  function Pending(s: Session): real {
    if s.status == Settled then 0.0 else s.reserve.GetOr(s.estimate)
  }

  lemma PutInPlace(ss: seq<Session>, s: Session)
    requires UniqueIds(ss) && Has(ss, s.id)
    ensures Put(ss, s) == ss[IndexOf(ss, s.id) := s] && UniqueIds(Put(ss, s))
  {
  }

  lemma PutAtEnd(ss: seq<Session>, s: Session)
    requires UniqueIds(ss) && !Has(ss, s.id)
    ensures Put(ss, s) == ss + [s] && UniqueIds(Put(ss, s))
  {
  }

  function SumBy(f: Session -> real, ss: seq<Session>): real {
    if ss == [] then 0.0 else SumBy(f, ss[..|ss| - 1]) + f(ss[|ss| - 1])
  }

  function TotalCost(ss: seq<Session>): real {
    SumBy(Cost, ss)
  }

  function TotalPending(ss: seq<Session>): real {
    SumBy(Pending, ss)
  }

  lemma {:induction false} SumByUpdate(f: Session -> real, ss: seq<Session>, i: nat, s: Session)
    requires i < |ss|
    ensures SumBy(f, ss[i := s]) == SumBy(f, ss) - f(ss[i]) + f(s)
  {
    var n := |ss| - 1;
    if i == n {
      assert ss[i := s][..n] == ss[..n];
    } else {
      assert ss[i := s][..n] == ss[..n][i := s];
      SumByUpdate(f, ss[..n], i, s);
    }
  }

  lemma SumByAppend(f: Session -> real, ss: seq<Session>, s: Session)
    ensures SumBy(f, ss + [s]) == SumBy(f, ss) + f(s)
  {
    assert (ss + [s])[..|ss|] == ss;
  }

  // ------------------------------------------------------------------ replay

  function Settling(s: Session, e: Event, stamp: real): Session
    requires e.Settle?
  {
    s.(status := Settled,
       cost := Some(e.cost),
       outcome := e.outcome,
       totals := e.totals,
       provenance := Some(e.provenance.GetOr(NativeReported)),
       finished := if e.finish.Stated? then e.finish.at else if e.noted then None else Some(stamp))
  }

  function Correcting(s: Session, e: Event): Session
    requires e.Correct?
  {
    s.(cost := Some(e.cost),
       totals := e.newTotals.GetOr(s.totals),
       provenance := if e.provenance.Some? then e.provenance else s.provenance,
       finished := if e.finish.Stated? then e.finish.at else s.finished)
  }

  function Unresolving(s: Session, e: Event): Session
    requires e.Unresolve?
  {
    var t := s.(status := if e.provisional then Provisional else Unresolved,
                finished := if e.finish.Stated? then e.finish.at else s.finished);
    match e.hold
    case None => t
    case Some(h) =>
      var u := t.(reserve := Some(h.reserve),
                  lowerCost := Some(h.lowerCost),
                  lowerTotals := h.lowerTotals,
                  outcome := h.outcome);
      if h.usage.Some?
      then u.(checkpoint := Some(h.usage.value.0), tail := Some(h.usage.value.1))
      else u
  }

  /** One event; None when it names a session that was never admitted. */
  function Apply(st: State, e: Event, stamp: real): Option<State> {
    match e
    case Accrue(amount, watermark) =>
      Some(st.(balance := st.balance + amount, watermark := watermark))
    case Grant(delta) => Some(st.(balance := st.balance + delta))
    case Adjust(delta) => Some(st.(balance := st.balance + delta))
    case SetRate(rate) => Some(st.(rate := rate))
    case Wait(w) => Some(st.(waiting := st.waiting[w.worker := w]))
    case Admit(s) =>
      Some(st.(sessions := Put(st.sessions, s), waiting := st.waiting - {s.worker}))
    case Settle(id, cost, _, _, _, _, _) =>
      if !Has(st.sessions, id) then None
      else Some(st.(balance := st.balance - cost,
                    spent := st.spent + cost,
                    sessions := Put(st.sessions, Settling(Get(st.sessions, id), e, stamp))))
    case Correct(id, delta, _, _, _, _) =>
      if !Has(st.sessions, id) then None
      else Some(st.(balance := st.balance + delta,
                    spent := st.spent - delta,
                    sessions := Put(st.sessions, Correcting(Get(st.sessions, id), e))))
    case Unresolve(id, _, _, _) =>
      if !Has(st.sessions, id) then None
      else Some(st.(sessions := Put(st.sessions, Unresolving(Get(st.sessions, id), e))))
    case Cooldown(model, until) => Some(st.(cooldowns := st.cooldowns[model := until]))
  }

  function ApplyAll(st: State, events: seq<Event>, stamp: real): Option<State>
    decreases |events|
  {
    if events == [] then Some(st)
    else
      match Apply(st, events[0], stamp)
      case None => None
      case Some(next) => ApplyAll(next, events[1..], stamp)
  }

  function ApplyRecord(st: State, rec: Record): Option<State> {
    if rec.number != st.number + 1 then None
    else ApplyAll(st.(number := rec.number), rec.events, rec.stamp)
  }

  /** The authoritative state: every record in order, from nothing. */
  function Replay(ledger: seq<Record>): Option<State> {
    if ledger == [] then Some(EMPTY)
    else
      match Replay(ledger[..|ledger| - 1])
      case None => None
      case Some(st) => ApplyRecord(st, ledger[|ledger| - 1])
  }

  lemma ReplayAppend(ledger: seq<Record>, rec: Record)
    ensures Replay(ledger + [rec]) ==
            match Replay(ledger) case None => None case Some(st) => ApplyRecord(st, rec)
  {
    assert (ledger + [rec])[..|ledger|] == ledger;
  }

  lemma {:induction false} ApplyAllConcat(st: State, a: seq<Event>, b: seq<Event>, stamp: real)
    ensures ApplyAll(st, a + b, stamp) ==
            match ApplyAll(st, a, stamp) case None => None case Some(mid) => ApplyAll(mid, b, stamp)
    decreases |a|
  {
    if a == [] {
      assert a + b == b;
    } else {
      assert (a + b)[1..] == a[1..] + b;
      match Apply(st, a[0], stamp)
      case None =>
      case Some(next) => ApplyAllConcat(next, a[1..], b, stamp);
    }
  }

  lemma {:induction false} ApplyAllNumber(st: State, events: seq<Event>, stamp: real)
    ensures var out := ApplyAll(st, events, stamp); out.Some? ==> out.value.number == st.number
    decreases |events|
  {
    if events != [] {
      match Apply(st, events[0], stamp)
      case None =>
      case Some(next) => ApplyAllNumber(next, events[1..], stamp);
    }
  }

  lemma {:induction false} ReplayNumber(ledger: seq<Record>)
    ensures Replay(ledger).Some? ==> Replay(ledger).value.number == |ledger|
  {
    if ledger != [] {
      var init := ledger[..|ledger| - 1];
      ReplayNumber(init);
      if Replay(init).Some? {
        var rec := ledger[|ledger| - 1];
        ApplyAllNumber(Replay(init).value.(number := rec.number), rec.events, rec.stamp);
      }
    }
  }
}
