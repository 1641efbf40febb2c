/** What a cost receipt or a saved usage journal does to the ledger: the events
    of one transaction, computed from the state before it. */
module Receipts {
  import opened Wrappers
  import opened Ledger
  import opened Selection

  /** Provider totals in the order in which the receipt lists them. */
  type Entries = seq<(string, real)>

  predicate DistinctKeys(entries: Entries) {
    forall i, j :: 0 <= i < j < |entries| ==> entries[i].0 != entries[j].0
  }

  function AsTotals(entries: Entries): Totals {
    if entries == [] then map[]
    else AsTotals(entries[..|entries| - 1])[entries[|entries| - 1].0 := entries[|entries| - 1].1]
  }

  /** A receipt after its JSON shape was checked. `stillRunning` says that the
      outcome text reports a process that has not exited. */
  datatype Receipt = Receipt(
    id: string,
    outcome: string,
    totals: Option<Entries>,
    lower: Option<Entries>,
    provisional: bool,
    stillRunning: bool,
    finished: Option<real>,
    noted: bool)

  datatype Refusal =
    | InvalidTotals
    | InvalidLowerBound
    | UnknownInvocation
    | ContradictsUsage
    | NativeAlive
    | InvalidFinish
    | MixedBaselines
    | BaselineConflict
    | InvalidAmount
    | NoteRequired
    | CostConflict
    | LiveBridge
    | AlreadyLaunched
    | NoBaseline

  /** The outcome of a writer: refused, nothing to record, or one transaction. */
  datatype Tx = Refused(why: Refusal) | NoChange | Append(events: seq<Event>)

  /** The clock readings of one writer call. */
  datatype Ticks = Ticks(accrual: real, now: real, stamp: real)

  /** What the writers ask the host about an invocation: whether its native
      process is alive, and whether its usage journal holds any message. */
  datatype Host = Host(nativeAlive: bool, usageRecorded: bool)

  // ----------------------------------------------------------------- accrual

  function Watermark(st: State, clock: real): real {
    Max(st.watermark, clock)
  }

  function Accrual(st: State, clock: real): real {
    (Watermark(st, clock) - st.watermark) * st.rate / 3600.0
  }

  function AccrueEvent(st: State, clock: real): Event {
    Accrue(Accrual(st, clock), Watermark(st, clock))
  }

  function Accrued(st: State, clock: real): State {
    st.(balance := st.balance + Accrual(st, clock), watermark := Watermark(st, clock))
  }

  // --------------------------------------------------------------- baselines

  /** The largest total that any of these sessions recorded for the provider. */
  function Baseline(prior: seq<Session>, p: string): real {
    if prior == [] then 0.0
    else
      var s := prior[|prior| - 1];
      var rest := Baseline(prior[..|prior| - 1], p);
      if p in s.totals then Max(rest, s.totals[p]) else rest
  }

  /** The largest total that an authoritative receipt recorded. */
  function Exact(prior: seq<Session>, p: string): real {
    if prior == [] then 0.0
    else
      var s := prior[|prior| - 1];
      var rest := Exact(prior[..|prior| - 1], p);
      if p in s.totals && !Estimated(s.provenance) then Max(rest, s.totals[p]) else rest
  }

  /** An estimated session whose total lies above every authoritative one. */
  predicate Loose(s: Session, p: string, exact: real) {
    p in s.totals && Estimated(s.provenance) && s.totals[p] > exact
  }

  /** The positions of the loose sessions among ss[from..upto]. */
  function LooseAt(ss: seq<Session>, from: nat, upto: nat, p: string, exact: real): (at: seq<nat>)
    requires from <= upto <= |ss|
    ensures forall i :: 0 <= i < |at| ==> from <= at[i] < upto && Loose(ss[at[i]], p, exact)
    ensures forall i, j :: 0 <= i < j < |at| ==> at[i] < at[j]
    decreases upto - from
  {
    if from == upto then []
    else if Loose(ss[from], p, exact) then [from] + LooseAt(ss, from + 1, upto, p, exact)
    else LooseAt(ss, from + 1, upto, p, exact)
  }

  predicate Clampable(ss: seq<Session>, upto: nat, p: string, native: real)
    requires upto <= |ss|
  {
    var exact := Exact(ss[..upto], p);
    var at := LooseAt(ss, 0, upto, p, exact);
    && native >= exact
    && at != []
    && forall i :: 0 <= i < |at| ==> ss[at[i]].totals.Keys == {p}
  }

  function CostAt(ss: seq<Session>, at: seq<nat>): real
    requires forall i :: 0 <= i < |at| ==> at[i] < |ss|
  {
    if at == [] then 0.0 else Cost(ss[at[0]]) + CostAt(ss, at[1..])
  }

  /** The part of `native - exact` that goes to the first of the remaining sessions. */
  function Share(s: Session, last: bool, native: real, exact: real, weight: real, cursor: real): real {
    if last then native - cursor
    else if weight != 0.0 then (native - exact) * Cost(s) / weight
    else 0.0
  }

  function ClampEvent(s: Session, p: string, value: real, cursor: real): Event {
    Correct(s.id, Cost(s) - value, value, Some(map[p := cursor]), s.provenance, Unstated)
  }

  /** Scales the loose sessions at these positions down to the native total. */
  function ClampEvents(ss: seq<Session>, at: seq<nat>, p: string,
                       native: real, exact: real, weight: real, cursor: real): seq<Event>
    requires forall i :: 0 <= i < |at| ==> at[i] < |ss|
  {
    if at == [] then []
    else
      var s := ss[at[0]];
      var value := Share(s, |at| == 1, native, exact, weight, cursor);
      [ClampEvent(s, p, value, cursor + value)]
      + ClampEvents(ss, at[1..], p, native, exact, weight, cursor + value)
  }

  function Clamp(ss: seq<Session>, upto: nat, p: string, native: real): seq<Event>
    requires upto <= |ss|
  {
    var exact := Exact(ss[..upto], p);
    var at := LooseAt(ss, 0, upto, p, exact);
    ClampEvents(ss, at, p, native, exact, CostAt(ss, at), exact)
  }

  /** The clamping of every provider whose native total is below its baseline;
      None when one of them cannot be clamped. */
  function ClampAll(ss: seq<Session>, upto: nat, entries: Entries): Option<seq<Event>>
    requires upto <= |ss|
  {
    if entries == [] then Some([])
    else
      var (p, native) := entries[|entries| - 1];
      match ClampAll(ss, upto, entries[..|entries| - 1])
      case None => None
      case Some(before) =>
        if native >= Baseline(ss[..upto], p) then Some(before)
        else if Clampable(ss, upto, p, native) then Some(before + Clamp(ss, upto, p, native))
        else None
  }

  /** What the receipt adds over its baselines; a clamped provider adds nothing. */
  function Charge(prior: seq<Session>, entries: Entries): real {
    if entries == [] then 0.0
    else
      var (p, native) := entries[|entries| - 1];
      Charge(prior, entries[..|entries| - 1]) + Max(0.0, native - Baseline(prior, p))
  }

  /** The plain differences, used for lower bounds. */
  function Differences(prior: seq<Session>, entries: Entries): (ds: seq<real>)
    ensures |ds| == |entries|
  {
    seq(|entries|, i requires 0 <= i < |entries| => entries[i].1 - Baseline(prior, entries[i].0))
  }

  function Sum(xs: seq<real>): real {
    if xs == [] then 0.0 else Sum(xs[..|xs| - 1]) + xs[|xs| - 1]
  }

  // -------------------------------------------------------- later baselines

  function Shift(totals: Totals, delta: real): (r: Totals)
    ensures r.Keys == totals.Keys
    ensures forall p :: p in totals ==> r[p] == totals[p] + delta
  {
    map p | p in totals :: totals[p] + delta
  }

  predicate Touches(s: Session, keys: set<string>) {
    s.status == Settled && s.totals.Keys * keys != {}
  }

  function RebaseEvent(s: Session, delta: real): Event {
    Correct(s.id, 0.0, Cost(s), Some(Shift(s.totals, delta)), None, Unstated)
  }

  function AdjustEvent(s: Session, delta: real): Event {
    Correct(s.id, delta, Cost(s) - delta, None, None, Unstated)
  }

  /** The corrections that keep later totals of ss[from..] after the cost of an
      earlier session changed by delta. */
  function Rebase(ss: seq<Session>, from: nat, keys: set<string>, delta: real): Result<seq<Event>, Refusal>
    requires from <= |ss|
    decreases |ss| - from
  {
    if from == |ss| then Ok([])
    else
      var s := ss[from];
      if !Touches(s, keys) then Rebase(ss, from + 1, keys, delta)
      else if s.totals.Keys != keys then Err(MixedBaselines)
      else if Estimated(s.provenance) then
        match Rebase(ss, from + 1, keys, delta)
        case Err(e) => Err(e)
        case Ok(rest) => Ok([RebaseEvent(s, delta)] + rest)
      else if Cost(s) - delta < 0.0 then Err(BaselineConflict)
      else Ok([AdjustEvent(s, delta)])
  }

  // ---------------------------------------------------------------- receipts

  function FinishOf(finished: Option<real>): Finish {
    if finished.Some? then Stated(finished) else Unstated
  }

  /** A native total is only a lower bound while the process may still run. */
  predicate LowerBoundOnly(r: Receipt) {
    r.provisional || r.stillRunning
  }

  function FinalTotals(r: Receipt): Option<Entries> {
    if LowerBoundOnly(r) then None else r.totals
  }

  function LowerTotals(r: Receipt): Entries {
    if r.lower.Some? then r.lower.value
    else if LowerBoundOnly(r) then r.totals.GetOr([])
    else []
  }

  predicate Negative(entries: Entries) {
    exists i :: 0 <= i < |entries| && entries[i].1 < 0.0
  }

  function Malformed(r: Receipt): Option<Refusal> {
    if Negative(LowerTotals(r)) then Some(InvalidLowerBound)
    else if FinalTotals(r).Some? && (FinalTotals(r).value == [] || Negative(FinalTotals(r).value)) then
      Some(InvalidTotals)
    else None
  }

  /** The refusals and early returns before any amount is computed. */
  function Screened(st: State, r: Receipt, host: Host, t: Ticks): Option<Tx> {
    if Malformed(r).Some? then Some(Refused(Malformed(r).value))
    else if !Has(st.sessions, r.id) then Some(Refused(UnknownInvocation))
    else
      var s := Get(st.sessions, r.id);
      var totals := FinalTotals(r);
      if && r.outcome == "launch-failed" && totals.Some?
         && (forall i :: 0 <= i < |totals.value| ==> totals.value[i].1 == 0.0)
         && (Cost(s) > 0.0 || host.usageRecorded) then Some(Refused(ContradictsUsage))
      else if totals.Some? && host.nativeAlive then Some(Refused(NativeAlive))
      else if s.status == Settled && !Estimated(s.provenance) then Some(NoChange)
      else if r.finished.Some? && (r.finished.value < s.started || r.finished.value > t.now) then
        Some(Refused(InvalidFinish))
      else if s.status == Settled && totals.None? then Some(NoChange)
      else None
  }

  /** The reversal of a charged prefix before its session settles. */
  function Undo(s: Session): seq<Event> {
    if Cost(s) != 0.0 then [Correct(s.id, Cost(s), 0.0, None, None, Unstated)] else []
  }

  /** An authoritative receipt for the unsettled session at position k. */
  function SettleEvents(s: Session, r: Receipt, entries: Entries, cost: real): seq<Event> {
    Undo(s) + [Settle(s.id, cost, r.outcome, AsTotals(entries), Some(NativeReported), FinishOf(r.finished), r.noted)]
  }

  /** An authoritative receipt replaces the estimate of a settled session. */
  function OwnCorrection(s: Session, r: Receipt, entries: Entries, cost: real): Event {
    Correct(s.id, Cost(s) - cost, cost, Some(AsTotals(entries)), Some(NativeReported), FinishOf(r.finished))
  }

  /** The transaction of an authoritative receipt for the session at position k,
      once every provider is at or above its (possibly clamped) baseline. */
  function NativeTx(st: State, k: nat, r: Receipt, entries: Entries, clamps: seq<Event>, t: Ticks): Tx
    requires k < |st.sessions|
  {
    var s := st.sessions[k];
    var cost := Charge(st.sessions[..k], entries);
    if s.status == Settled then
      match Rebase(st.sessions, k + 1, AsTotals(entries).Keys, cost - Cost(s))
      case Err(e) => Refused(e)
      case Ok(later) =>
        Append([AccrueEvent(st, t.accrual)] + (clamps + ([OwnCorrection(s, r, entries, cost)] + later)))
    else
      Append([AccrueEvent(st, t.accrual)] + (clamps + SettleEvents(s, r, entries, cost)))
  }

  /** The reservation that remains beside a cost of which at least `known` is certain. */
  function BoundTx(st: State, r: Receipt, known: real, estimate: real, t: Ticks): Tx
    requires Has(st.sessions, r.id)
  {
    var s := Get(st.sessions, r.id);
    var lower := AsTotals(LowerTotals(r));
    var full := Max(Max(s.estimate, estimate), known);
    var tail := if s.provenance == Some(TokenPricedPrefix) && s.tail.Some? then s.tail.value else full;
    var reserve := Max(s.reserve.GetOr(0.0), Max(0.0, known - Cost(s)) + tail);
    if && s.status == (if LowerBoundOnly(r) then Provisional else Unresolved)
       && s.lowerCost.Some? && s.lowerTotals == lower && s.reserve == Some(reserve)
    then NoChange
    else
      Append([AccrueEvent(st, t.accrual),
              Unresolve(r.id, LowerBoundOnly(r), FinishOf(r.finished),
                        Some(Hold(reserve, known, lower, r.outcome, None)))])
  }

  /** A lower bound, unless it lies below a baseline. */
  function LowerBoundTx(st: State, r: Receipt, t: Ticks): Option<Tx>
    requires Has(st.sessions, r.id)
  {
    var s := Get(st.sessions, r.id);
    var ds := Differences(st.sessions[..IndexOf(st.sessions, r.id)], LowerTotals(r));
    if LowerTotals(r) == [] || exists i :: 0 <= i < |ds| && ds[i] < 0.0 then None
    else Some(BoundTx(st, r, Sum(ds), Estimate(st.sessions, s.model, Some(s.phase), false), t))
  }

  function ReceiptTx(st: State, r: Receipt, host: Host, t: Ticks): Tx {
    match Screened(st, r, host, t)
    case Some(tx) => tx
    case None =>
      var at := IndexOf(st.sessions, r.id);
      var totals := FinalTotals(r);
      var bound := if totals.None? then LowerBoundTx(st, r, t) else None;
      var clamps := if totals.Some? then ClampAll(st.sessions, at, totals.value) else None;
      if bound.Some? then bound.value
      else if clamps.Some? then NativeTx(st, at, r, totals.value, clamps.value, t)
      else if st.sessions[at].status != Settled then
        Append([AccrueEvent(st, t.accrual), Unresolve(r.id, false, FinishOf(r.finished), None)])
      else NoChange
  }

  /** What a receipt can append: a hold on its lower bound, its native settlement or
      correction, or an unresolved mark. */
  predicate ReceiptForm(st: State, r: Receipt, tx: Tx, t: Ticks) {
    && Has(st.sessions, r.id)
    && (|| LowerBoundTx(st, r, t) == Some(tx)
        || (&& FinalTotals(r).Some?
            && var clamps := ClampAll(st.sessions, IndexOf(st.sessions, r.id), FinalTotals(r).value);
               && clamps.Some?
               && tx == NativeTx(st, IndexOf(st.sessions, r.id), r, FinalTotals(r).value, clamps.value, t))
        || tx == Append([AccrueEvent(st, t.accrual), Unresolve(r.id, false, FinishOf(r.finished), None)]))
  }

  lemma ReceiptForms(st: State, r: Receipt, host: Host, t: Ticks) returns (tx: Tx)
    ensures tx == ReceiptTx(st, r, host, t)
    ensures tx.Append? ==> ReceiptForm(st, r, tx, t)
  {
    tx := ReceiptTx(st, r, host, t);
  }

  // ----------------------------------------------------------- saved usage

  /** The priced responses of a stopped session's usage journal. */
  datatype Saved = Saved(cost: real, complete: bool, provider: Option<string>, mark: string)

  /** The provider under which an estimate records a resume baseline. */
  function Primary(s: Session, saved: Saved): Option<string> {
    var p := if s.resume.Some? && s.resume.value != "" then s.resume else saved.provider;
    if p.Some? && p.value != "" && p.value != "unknown" then p else None
  }

  function EstimatedTotals(prior: seq<Session>, primary: Option<string>, cost: real): Totals {
    if primary.Some? then map[primary.value := Baseline(prior, primary.value) + cost] else map[]
  }

  /** A stopped, complete journal settles its session by the estimate. */
  function EstimateEvents(s: Session, prior: seq<Session>, saved: Saved, cost: real): seq<Event> {
    Undo(s) + [Settle(s.id, cost, "recovered usage estimate", EstimatedTotals(prior, Primary(s, saved), cost),
                      Some(TokenPriced), Unstated, true)]
  }

  /** An incomplete journal charges its prefix and reserves the tail. */
  function PrefixEvents(s: Session, stamp: (string, real), cost: real, tail: real): seq<Event> {
    [Correct(s.id, Cost(s) - cost, cost, None, Some(TokenPricedPrefix), Unstated),
     Unresolve(s.id, true, Unstated,
               Some(Hold(tail, s.lowerCost.GetOr(0.0), s.lowerTotals,
                         "incomplete request; token-priced prefix charged", Some((stamp, tail)))))]
  }

  /** Charging a journal to session k: an estimate for a complete one, else a prefix
      with a reserved tail, unless that is recorded already. */
  function UsageTx(st: State, k: nat, saved: Saved, estimate: real, t: Ticks): Tx
    requires k < |st.sessions|
  {
    var s := st.sessions[k];
    var cost := Max(saved.cost, s.lowerCost.GetOr(0.0));
    var stamp := (saved.mark, cost);
    var tail :=
      if s.checkpoint == Some(stamp) && s.tail.Some? then s.tail.value
      else Max(Max(s.estimate, estimate), cost);
    if saved.complete then
      Append([AccrueEvent(st, t.accrual)] + EstimateEvents(s, st.sessions[..k], saved, cost))
    else if Cost(s) == cost && s.reserve == Some(tail) && s.status == Provisional then NoChange
    else Append([AccrueEvent(st, t.accrual)] + PrefixEvents(s, stamp, cost, tail))
  }

  /** The session to which a journal was found, unless it is settled or still runs. */
  function RecoverTx(st: State, id: string, saved: Option<Saved>, live: bool, t: Ticks): Tx {
    if !Has(st.sessions, id) || Get(st.sessions, id).status == Settled || live || saved.None? then NoChange
    else
      var s := Get(st.sessions, id);
      UsageTx(st, IndexOf(st.sessions, id), saved.value, Estimate(st.sessions, s.model, Some(s.phase), false), t)
  }
}
