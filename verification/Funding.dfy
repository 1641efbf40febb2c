/** What funding leaves: the balance that was asked for, or the grant on top of what was
    earned. */
module Funding {
  import opened Wrappers
  import opened Ledger
  import opened Receipts
  import opened Writers
  import ChainSteps
  import Charges

  /** The program accepts these settings. */
  predicate Settable(grant: Option<real>, target: Option<real>, rate: Option<real>) {
    && !(grant.Some? && target.Some?)
    && (grant.Some? ==> grant.value > 0.0)
    && (rate.Some? ==> rate.value >= 0.0)
  }

  /** After funding. `earned` is the balance with everything earned up to the call. */
  predicate Funds(next: State, st: State, earned: real, grant: Option<real>, target: Option<real>, rate: Option<real>) {
    && next.balance == (if target.Some? then target.value else earned + grant.GetOr(0.0))
    && next.rate == rate.GetOr(st.rate)
    && next.sessions == st.sessions && next.spent == st.spent
    && next.waiting == st.waiting && next.cooldowns == st.cooldowns
  }

  lemma SettingsApply(base: State, grant: Option<real>, target: Option<real>, rate: Option<real>, stamp: real)
    ensures var events := (if grant.Some? then [Grant(grant.value)] else [])
                          + (if target.Some? then [Adjust(target.value - base.balance)] else [])
                          + (if rate.Some? then [SetRate(rate.value)] else []);
            var next := ApplyAll(base, events, stamp);
            next.Some? && (Settable(grant, target, rate) ==> Funds(next.value, base, base.balance, grant, target, rate))
  {
    var a := if grant.Some? then [Grant(grant.value)] else [];
    var b := if target.Some? then [Adjust(target.value - base.balance)] else [];
    var c := if rate.Some? then [SetRate(rate.value)] else [];
    ApplyAllConcat(base, a + b, c, stamp);
    ApplyAllConcat(base, a, b, stamp);
  }

  lemma ConfiguredAfter(st: State, grant: Option<real>, target: Option<real>, rate: Option<real>, tx: Tx, t: Ticks)
    returns (next: State)
    requires Settable(grant, target, rate) && tx == ConfigureTx(st, grant, target, rate, t)
    ensures After(st, tx, t) == Some(next)
    ensures Funds(next, st, Accrued(st, t.accrual).balance, grant, target, rate)
  {
    var base := ChainSteps.Started(st, t.accrual);
    var a := if grant.Some? then [Grant(grant.value)] else [];
    var b := if target.Some? then [Adjust(target.value - base.balance)] else [];
    var c := if rate.Some? then [SetRate(rate.value)] else [];
    assert a + (b + c) == a + b + c;
    assert tx == Append([AccrueEvent(st, t.accrual)] + (a + b + c));
    ChainSteps.AfterAccrual(st, a + b + c, t);
    SettingsApply(base, grant, target, rate, t.stamp);
    next := ApplyAll(base, a + b + c, t.stamp).value;
  }

  /** Funding sets the balance to the target, or grants on top of what was earned, and sets
      the rate; settings that make no sense change nothing. */
  lemma Configured(files: Files, st: State, grant: Option<real>, target: Option<real>, rate: Option<real>, t: Ticks)
    returns (next: State)
    requires Replay(files.ledger) == Some(st)
    ensures Replay(Step(files, Configure(grant, target, rate), t).ledger) == Some(next)
    ensures Settable(grant, target, rate) ==>
              Funds(next, st, Accrued(st, t.accrual).balance, grant, target, rate)
    ensures !Settable(grant, target, rate) ==> Step(files, Configure(grant, target, rate), t) == files
  {
    var tx := ConfigureTx(st, grant, target, rate, t);
    ConfigureStep(files, st, grant, target, rate, t);
    if Settable(grant, target, rate) {
      next := ConfiguredAfter(st, grant, target, rate, tx, t);
      ReplayAppend(files.ledger, RecordOf(st, tx.events, t));
    } else {
      next := st;
    }
  }

  lemma ConfigureStep(files: Files, st: State, grant: Option<real>, target: Option<real>, rate: Option<real>, t: Ticks)
    requires Replay(files.ledger) == Some(st)
    ensures Step(files, Configure(grant, target, rate), t)
         == Left(files, st, ConfigureTx(st, grant, target, rate, t), files.queue, t)
  {
  }
}
