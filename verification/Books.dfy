/** The state dictionary that replay builds and the writers read, updated in place. */
module StateBooks {
  import opened Wrappers
  import opened Ledger
  import opened Receipts

  class Books {
    var balance: real
    var rate: real
    var spent: real
    var watermark: real
    var sessions: seq<Session>
    var waiting: map<string, Waiting>
    var cooldowns: map<string, real>
    var number: nat

    /** The value of the dictionary. */
    function View(): State
      reads this
    {
      State(balance, rate, spent, watermark, sessions, waiting, cooldowns, number)
    }

    constructor ()
      ensures View() == EMPTY
    {
      balance, rate, spent, watermark := 0.0, 0.0, 0.0, 0.0;
      sessions, waiting, cooldowns, number := [], map[], map[], 0;
    }

    /** Replaces a session in place, or appends a new one. */
    method SetSession(s: Session)
      modifies this`sessions
      ensures sessions == Put(old(sessions), s)
    {
      var i := 0;
      while i < |sessions|
        invariant i <= |sessions| && sessions == old(sessions)
        invariant forall j :: 0 <= j < i ==> sessions[j].id != s.id
      {
        if sessions[i].id == s.id {
          sessions := sessions[i := s];
          return;
        }
        i := i + 1;
      }
      sessions := sessions + [s];
    }

    /** Applies one event; fails on a session that was never admitted. */
    method ApplyEvent(e: Event, stamp: real) returns (ok: bool)
      modifies this
      ensures ok <==> Apply(old(View()), e, stamp).Some?
      ensures ok ==> View() == Apply(old(View()), e, stamp).value
    {
      ok := true;
      match e {
        case Accrue(amount, w) =>
          balance := balance + amount;
          watermark := w;
        case Grant(delta) =>
          balance := balance + delta;
        case Adjust(delta) =>
          balance := balance + delta;
        case SetRate(r) =>
          rate := r;
        case Wait(w) =>
          waiting := waiting[w.worker := w];
        case Admit(s) =>
          SetSession(s);
          waiting := waiting - {s.worker};
        case Settle(id, cost, _, _, _, _, _) =>
          if !Has(sessions, id) {
            return false;
          }
          SetSession(Settling(Get(sessions, id), e, stamp));
          balance := balance - cost;
          spent := spent + cost;
        case Correct(id, delta, _, _, _, _) =>
          if !Has(sessions, id) {
            return false;
          }
          balance := balance + delta;
          spent := spent - delta;
          SetSession(Correcting(Get(sessions, id), e));
        case Unresolve(id, _, _, _) =>
          if !Has(sessions, id) {
            return false;
          }
          SetSession(Unresolving(Get(sessions, id), e));
        case Cooldown(model, until) =>
          cooldowns := cooldowns[model := until];
      }
    }

    /** Applies the records from the first one not yet applied. */
    method ReplayAll(records: seq<Record>) returns (ok: bool)
      requires View() == EMPTY
      modifies this
      ensures ok <==> Replay(records).Some?
      ensures ok ==> View() == Replay(records).value
    {
      var i := 0;
      while i < |records|
        invariant i <= |records| && Replay(records[..i]) == Some(View())
      {
        assert records[..i + 1] == records[..i] + [records[i]];
        ReplayAppend(records[..i], records[i]);
        ok := ReplayRecord(records[i]);
        if !ok {
          BrokenPrefix(records, i + 1);
          return;
        }
        i := i + 1;
      }
      assert records[..|records|] == records;
      ok := true;
    }

    method ReplayRecord(rec: Record) returns (ok: bool)
      modifies this
      ensures ok <==> ApplyRecord(old(View()), rec).Some?
      ensures ok ==> View() == ApplyRecord(old(View()), rec).value
    {
      if rec.number != number + 1 {
        return false;
      }
      number := rec.number;
      var j := 0;
      ok := true;
      while j < |rec.events|
        invariant j <= |rec.events|
        invariant ApplyAll(View(), rec.events[j..], rec.stamp) == ApplyRecord(old(View()), rec)
      {
        ok := ApplyEvent(rec.events[j], rec.stamp);
        if !ok {
          return;
        }
        assert rec.events[j..][1..] == rec.events[j + 1..];
        j := j + 1;
      }
    }

    /** Earns the rate up to the latest clock reading, and reports it as an event. */
    method EarnRate(clock: real) returns (e: Event)
      modifies this`balance, this`watermark
      ensures e == AccrueEvent(old(View()), clock)
      ensures View() == Accrued(old(View()), clock)
    {
      var now := Max(watermark, clock);
      var amount := (now - watermark) * rate / 3600.0;
      balance := balance + amount;
      watermark := now;
      e := Accrue(amount, now);
    }
  }

  lemma {:induction false} BrokenPrefix(records: seq<Record>, i: nat)
    requires i <= |records| && Replay(records[..i]).None?
    ensures Replay(records).None?
    decreases |records| - i
  {
    if i == |records| {
      assert records[..i] == records;
    } else {
      assert records[..i + 1] == records[..i] + [records[i]];
      ReplayAppend(records[..i], records[i]);
      BrokenPrefix(records, i + 1);
    }
  }
}
