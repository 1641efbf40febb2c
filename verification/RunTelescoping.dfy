/** The telescoping theorem over whole runs. */
module RunTelescoping {
  import opened Wrappers
  import opened Ledger
  import opened Receipts
  import opened Writers
  import opened Chains
  import opened Telescoping
  import opened ChainRuns
  import opened ChainSteps
  import opened ChainTheorems

  /** Every call of the run is accountable in the state in which it is made. */
  predicate AccountableRun(files: Files, calls: seq<Call>) {
    calls == [] ||
    (&& AccountableRun(files, calls[..|calls| - 1])
     && var before := Replay(Run(files, calls[..|calls| - 1]).ledger);
        before.Some? ==> Accountable(before.value, calls[|calls| - 1].op))
  }

  lemma AuthorityTransitive(a: seq<Session>, b: seq<Session>, c: seq<Session>)
    requires AuthorityKept(a, b) && AuthorityKept(b, c)
    ensures AuthorityKept(a, c)
  {
    forall i | 0 <= i < |a| && a[i].status == Settled && !Estimated(a[i].provenance)
      ensures c[i].totals == a[i].totals && c[i].provenance == a[i].provenance && c[i].status == Settled
    {
      assert b[i].status == Settled && !Estimated(b[i].provenance);
    }
  }

  /** Over every run without manual settlements the chains stay linked, and what an
      authoritative receipt recorded is never changed again. */
  lemma {:induction false} RunChained(files: Files, calls: seq<Call>)
    requires ChainedLedger(files.ledger) && AccountableRun(files, calls)
    ensures ChainedLedger(Run(files, calls).ledger)
    ensures AuthorityKept(Replay(files.ledger).value.sessions, Replay(Run(files, calls).ledger).value.sessions)
  {
    if calls != [] {
      var init, last := calls[..|calls| - 1], calls[|calls| - 1];
      RunChained(files, init);
      var mid := Run(files, init);
      StepChained(mid, last.op, last.t);
      AuthorityTransitive(Replay(files.ledger).value.sessions, Replay(mid.ledger).value.sessions,
                          Replay(Step(mid, last.op, last.t).ledger).value.sessions);
    }
  }

  /** Telescoping: after any such run, the costs of the sessions on a provider up to
      and including session i sum exactly to the total recorded for session i. */
  lemma Telescopes(files: Files, calls: seq<Call>, out: seq<Session>, i: nat, p: string)
    requires ChainedLedger(files.ledger) && AccountableRun(files, calls)
    requires Replay(Run(files, calls).ledger).Some? && out == Replay(Run(files, calls).ledger).value.sessions
    requires i < |out| && p in out[i].totals
    ensures ChainCost(out, i + 1, p) == out[i].totals[p]
    ensures out[i].status == Settled && out[i].cost == Some(out[i].totals[p] - ChainCost(out, i, p))
  {
    RunChained(files, calls);
    LinkedCosts(out, i, p);
  }

  lemma LinkedCosts(ss: seq<Session>, i: nat, p: string)
    requires Linked(ss) && i < |ss| && p in ss[i].totals
    ensures ChainCost(ss, i + 1, p) == ss[i].totals[p]
    ensures ss[i].status == Settled && ss[i].cost == Some(ss[i].totals[p] - ChainCost(ss, i, p))
  {
    ChainCostIsTotal(ss, i, p);
    assert LinkedAt(ss, i);
  }
}
