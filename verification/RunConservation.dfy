/** Conservation over whole runs of the ledger writers. */
module RunConservation {
  import opened Wrappers
  import opened Ledger
  import opened Receipts
  import opened Writers
  import opened HonestWriters

  lemma StepLeaves(files: Files, st: State, op: Op, t: Ticks)
    requires Replay(files.ledger) == Some(st)
    ensures Step(files, op, t)
         == Left(files, st, TxOf(st, files.queue, op, t), QueueAfter(st, files.queue, op, t), t)
  {
  }

  lemma SoundLeft(files: Files, st: State, op: Op, queue: Option<Queue>, t: Ticks)
    requires Sound(files.ledger) && Replay(files.ledger) == Some(st) && WellFormed(op)
    ensures Sound(Left(files, st, TxOf(st, files.queue, op, t), queue, t).ledger)
  {
    WriterHonest(st, files.queue, op, t);
    TxSound(files, st, TxOf(st, files.queue, op, t), queue, t);
  }

  /** Every writer call keeps the ledger sound. */
  lemma StepSound(files: Files, op: Op, t: Ticks)
    requires Sound(files.ledger) && WellFormed(op)
    ensures Sound(Step(files, op, t).ledger)
  {
    var st := Replay(files.ledger).value;
    SoundLeft(files, st, op, QueueAfter(st, files.queue, op, t), t);
    StepLeaves(files, st, op, t);
  }

  /** Conservation over every run of writers, whatever was refused, retried or
      corrected on the way. */
  lemma {:induction false} RunSound(files: Files, calls: seq<Call>)
    requires Sound(files.ledger) && AllWellFormed(calls)
    ensures Sound(Run(files, calls).ledger)
  {
    if calls != [] {
      var init, last := calls[..|calls| - 1], calls[|calls| - 1];
      RunSound(files, init);
      StepSound(Run(files, init), last.op, last.t);
    }
  }

  lemma EmptySound(ledger: seq<Record>)
    requires ledger == []
    ensures Sound(ledger)
  {
  }

  // ------------------------------------------------------------------ clocks

  function AccruedAll(st: State, clocks: seq<real>): State {
    if clocks == [] then st else Accrued(AccruedAll(st, clocks[..|clocks| - 1]), clocks[|clocks| - 1])
  }

  function Latest(clocks: seq<real>, floor: real): real {
    if clocks == [] then floor else Max(Latest(clocks[..|clocks| - 1], floor), clocks[|clocks| - 1])
  }

  /** Accruing at many clock readings, in any order and with the clock jumping
      backward, earns exactly the rate up to the latest reading, once. */
  lemma {:induction false} AccrualPathIndependent(st: State, clocks: seq<real>)
    ensures AccruedAll(st, clocks) == Accrued(st, Latest(clocks, st.watermark))
  {
    if clocks != [] {
      var n := |clocks| - 1;
      AccrualPathIndependent(st, clocks[..n]);
      var w0, w1, w2 := st.watermark, Latest(clocks[..n], st.watermark), Latest(clocks, st.watermark);
      LatestAtLeast(clocks[..n], w0);
      EarnedInTwo(w0, w1, w2, st.rate);
    } else {
      assert 0.0 * st.rate / 3600.0 == 0.0;
    }
  }

  lemma LatestAtLeast(clocks: seq<real>, floor: real)
    ensures Latest(clocks, floor) >= floor
  {
  }

  lemma EarnedInTwo(a: real, b: real, c: real, rate: real)
    ensures (b - a) * rate / 3600.0 + (c - b) * rate / 3600.0 == (c - a) * rate / 3600.0
  {
    assert (b - a) * rate + (c - b) * rate == (c - a) * rate;
  }
}
