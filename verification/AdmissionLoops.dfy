/** The loops of one admission attempt: marking sessions whose bridge disappeared,
    and finding who stands first in line. */
module AdmissionLoops {
  import opened Wrappers
  import opened Ledger
  import opened Selection
  import opened Receipts
  import opened Writers

  function MarkedOne(s: Session, dead: set<string>): Session {
    if Orphan(s, dead) then s.(status := Unresolved) else s
  }

  /** The unsettled sessions after marking. */
  function MarkedActive(ss: seq<Session>, dead: set<string>): seq<Session>
  {
    if ss == [] then []
    else
      var s := ss[|ss| - 1];
      MarkedActive(ss[..|ss| - 1], dead) + (if s.status == Settled then [] else [MarkedOne(s, dead)])
  }

  const UNSETTLED := ALL.(active := true)

  /** Marks orphaned sessions in the list of unsettled ones, and reports each. */
  method MarkOrphans(rows: seq<Session>, dead: set<string>) returns (active: seq<Session>, lost: seq<Event>)
    requires forall i :: 0 <= i < |rows| ==> rows[i].status != Settled
    ensures active == MarkedActive(rows, dead)
    ensures lost == Orphans(rows, dead)
  {
    active, lost := rows, [];
    for i := 0 to |rows|
      invariant |active| == |rows| && active[..i] == MarkedActive(rows[..i], dead) && active[i..] == rows[i..]
      invariant lost == Orphans(rows[..i], dead)
    {
      assert rows[..i + 1][..i] == rows[..i];
      var session := active[i];
      assert session == rows[i];
      if Orphan(session, dead) {
        active := active[i := session.(status := Unresolved)];
        lost := lost + [Unresolve(session.id, false, Unstated, None)];
      }
      assert active[..i + 1] == active[..i] + [active[i]];
    }
    assert rows[..|rows|] == rows && active[..|active|] == active;
  }

  /** Settled sessions are never orphans, so only the unsettled ones matter. */
  lemma {:induction false} UnsettledOrphans(ss: seq<Session>, dead: set<string>)
    ensures Orphans(Keep(UNSETTLED, ss), dead) == Orphans(ss, dead)
    ensures MarkedActive(Keep(UNSETTLED, ss), dead) == MarkedActive(ss, dead)
    decreases |ss|
  {
    if ss != [] {
      var n := |ss| - 1;
      UnsettledOrphans(ss[..n], dead);
      var init := Keep(UNSETTLED, ss[..n]);
      if ss[n].status != Settled {
        assert (init + [ss[n]])[..|init|] == init;
      }
    }
  }

  /** Marking holds back the same money. */
  lemma {:induction false} MarkedActivePending(ss: seq<Session>, dead: set<string>)
    ensures TotalPending(MarkedActive(ss, dead)) == TotalPending(ss)
    decreases |ss|
  {
    if ss != [] {
      var n := |ss| - 1;
      MarkedActivePending(ss[..n], dead);
      if ss[n].status != Settled {
        SumByAppend(Pending, MarkedActive(ss[..n], dead), MarkedOne(ss[n], dead));
      } else {
        assert MarkedActive(ss[..n], dead) + [] == MarkedActive(ss[..n], dead);
      }
    }
  }

  // -------------------------------------------------------------------- line

  /** The earliest wait in line, if any. */
  method FirstInLine(queue: Queue, model: string, now: real) returns (first: Option<Waiting>)
    requires Orderly(queue)
    ensures first.None? <==> !SomeoneInLine(queue, model, now)
    ensures first.Some? ==> IsFirst(queue, model, now, first.value.worker) && queue[first.value.worker] == first.value
  {
    first := None;
    var rest := queue.Keys;
    while rest != {}
      invariant rest <= queue.Keys
      invariant first.None? ==> forall w :: w in queue && w !in rest ==> !InLine(queue[w], model, now)
      invariant first.Some? ==>
                  && first.value.worker in queue && queue[first.value.worker] == first.value
                  && InLine(first.value, model, now)
                  && first.value.worker !in rest
                  && forall w :: w in queue && w !in rest && InLine(queue[w], model, now) && w != first.value.worker ==>
                       Before(first.value, queue[w])
      decreases |rest|
    {
      var w :| w in rest;
      if InLine(queue[w], model, now) && (first.None? || Before(queue[w], first.value)) {
        first := Some(queue[w]);
      }
      rest := rest - {w};
    }
  }

  /** Standing behind another worker is not being the first in line. */
  lemma BehindIffNotFirst(queue: Queue, model: string, now: real, worker: string, first: string)
    requires Orderly(queue) && IsFirst(queue, model, now, first)
    ensures BehindAnother(queue, model, now, worker) <==> first != worker
  {
  }
}
