/** How long a canonical file lives: from the step in which a publisher creates its name
    until that publisher fails or its entry is evicted. */
module CacheLifetimes {
  import opened Wrappers
  import opened CachePool
  import opened CacheInvariants
  import opened CacheSteps
  import opened CacheSafety
  import opened CacheSingleCollector

  /** In this step the publication ends without a visible entry. */
  predicate Fails(w: World, move: Move, pid: nat) {
    && Active(w, pid)
    && !Active(Next(w, move), pid)
    && w.publishers[pid].key !in Next(w, move).listing
  }

  /** In this step the entry is evicted. */
  predicate Evicts(w: World, move: Move, key: Key) {
    key in w.listing && key !in Next(w, move).listing
  }

  /** One collector is at work; the publication does not fail, and its entry stays. */
  predicate Undisturbed(w: World, moves: seq<Move>, pid: nat, key: Key, c: nat) {
    moves == [] ||
    (&& Undisturbed(w, moves[..|moves| - 1], pid, key, c)
     && var mid, move := Run(w, moves[..|moves| - 1]), moves[|moves| - 1];
        ByCollector(move, c) && !Fails(mid, move, pid) && !Evicts(mid, move, key))
  }

  /** The publisher made this name, and still holds it by its publication or its entry. */
  predicate HeldFor(w: World, n: Name, pid: nat, key: Key) {
    && n in w.maker
    && if w.maker[n] == Making(pid) then Active(w, pid) && w.publishers[pid].key == key
       else w.maker[n] == Kept(key) && key in w.listing
  }

  lemma PublishHolds(w: World, q: nat, n: Name, pid: nat, key: Key)
    requires HeldFor(w, n, pid, key) && Active(w, q)
    ensures HeldFor(Publish(w, q), n, pid, key)
  {
    var next := Publish(w, q);
    assert next.maker[n] == if w.maker[n] == Making(q) then Kept(w.publishers[q].key) else w.maker[n];
    assert next.listing == w.listing[w.publishers[q].key := NamesOf(w.publishers[q].names)];
    if q != pid {
      assert Active(w, pid) ==> Active(next, pid) && next.publishers[pid] == w.publishers[pid];
    }
  }

  lemma FailHolds(w: World, q: nat, n: Name, pid: nat, key: Key)
    requires HeldFor(w, n, pid, key) && Active(w, q) && q != pid
    ensures HeldFor(Fail(w, q), n, pid, key)
  {
    var next := Fail(w, q);
    assert n in next.maker && next.maker[n] == w.maker[n] && next.listing == w.listing;
    assert Active(w, pid) ==> Active(next, pid) && next.publishers[pid] == w.publishers[pid];
  }

  /** A publication that ends by failing is not this one. */
  lemma AnotherFails(w: World, move: Move, q: nat, pid: nat)
    requires Publishing(w) && Active(w, q) && Next(w, move) == Fail(w, q) && !Fails(w, move, pid)
    ensures q != pid
  {
    assert w.publishers[q].key !in w.listing;
    assert Fails(w, move, q);
  }

  /** A step that gives no existing name another maker and ends no publication. */
  lemma LinkingHolds(w: World, next: World, q: nat, n: Name, pid: nat, key: Key)
    requires HeldFor(w, n, pid, key) && OnlyAdds(w, next, q) && n in next.maker && next.maker[n] == w.maker[n]
    ensures HeldFor(next, n, pid, key)
  {
  }

  /** The canonical name is gone, or the publication goes on. */
  lemma SharingHolds(w: World, next: World, q: nat, n: Name, pid: nat, key: Key)
    requires Publishing(w) && HeldFor(w, n, pid, key) && Active(w, q) && Next(w, Proceed(q)) == next
    requires !Fails(w, Proceed(q), pid)
    requires next == Fail(w, q) || (next.maker == w.maker && next.listing == w.listing && Active(next, q)
                                    && next.publishers == w.publishers[q := next.publishers[q]]
                                    && next.publishers[q].key == w.publishers[q].key)
    ensures HeldFor(next, n, pid, key)
  {
    if next == Fail(w, q) {
      AnotherFails(w, Proceed(q), q, pid);
      FailHolds(w, q, n, pid, key);
    }
  }

  /** What sharing a canonical file leaves alone. */
  lemma SharingStep(w: World, q: nat)
    requires Active(w, q) && LinkedSoFar(w, q) && w.publishers[q].phase in {Comparing, Relinking}
    requires w.publishers[q].at < |w.publishers[q].names|
    ensures var next := Next(w, Proceed(q));
            next == Fail(w, q) || (next.maker == w.maker && next.listing == w.listing && Active(next, q)
                                   && next.publishers == w.publishers[q := next.publishers[q]]
                                   && next.publishers[q].key == w.publishers[q].key)
  {
  }

  lemma ProceedHolds(w: World, q: nat, n: Name, pid: nat, key: Key)
    requires Inv(w) && HeldFor(w, n, pid, key) && !Fails(w, Proceed(q), pid)
    ensures HeldFor(Next(w, Proceed(q)), n, pid, key)
  {
    assert Held(w, n);
    if Active(w, q) {
      assert LinkedSoFar(w, q);
      var p := w.publishers[q];
      var next := Next(w, Proceed(q));
      if p.at >= |p.names| {
        PublishHolds(w, q, n, pid, key);
      } else if p.phase == Linking {
        LinkPublicationAdds(w, q);
        LinkingHolds(w, next, q, n, pid, key);
      } else if p.phase == Canonizing {
        LinkCanonAdds(w, q);
        LinkingHolds(w, next, q, n, pid, key);
      } else {
        SharingStep(w, q);
        SharingHolds(w, next, q, n, pid, key);
      }
    }
  }

  lemma AbortHolds(w: World, q: nat, n: Name, pid: nat, key: Key)
    requires Publishing(w) && HeldFor(w, n, pid, key) && !Fails(w, Abort(q), pid)
    ensures HeldFor(Next(w, Abort(q)), n, pid, key)
  {
    if Active(w, q) {
      AnotherFails(w, Abort(q), q, pid);
      FailHolds(w, q, n, pid, key);
    }
  }

  lemma EvictHolds(w: World, c: nat, other: Key, n: Name, pid: nat, key: Key)
    requires HeldFor(w, n, pid, key) && !Evicts(w, StartEviction(c, other), key)
    ensures HeldFor(Next(w, StartEviction(c, other)), n, pid, key)
  {
    EvictedFields(w, c, other);
    StillHolds(w, Next(w, StartEviction(c, other)), other, n, pid, key);
  }

  /** What an eviction changes besides directory entries. */
  lemma EvictedFields(w: World, c: nat, other: Key)
    ensures EvictedOnly(w, Next(w, StartEviction(c, other)), other)
  {
  }

  predicate EvictedOnly(w: World, next: World, other: Key) {
    || next == w
    || (&& next.listing == w.listing - {other}
        && next.publishers == w.publishers
        && next.maker == map m | m in w.maker && w.maker[m] != Kept(other) :: w.maker[m])
  }

  lemma StillHolds(w: World, next: World, other: Key, n: Name, pid: nat, key: Key)
    requires HeldFor(w, n, pid, key) && EvictedOnly(w, next, other)
    requires key in w.listing ==> key in next.listing
    ensures HeldFor(next, n, pid, key)
  {
  }

  lemma RemoveHolds(w: World, c: nat, n: Name, pid: nat, key: Key)
    requires Inv(w) && Current(w, c) && HeldFor(w, n, pid, key)
    ensures HeldFor(Next(w, Remove(c)), n, pid, key)
  {
    TakesOther(w, c, n);
    if c in w.doomed {
      assert w.doomed[c] != n;
    }
  }

  lemma StepHolds(w: World, move: Move, n: Name, pid: nat, key: Key, c: nat)
    requires Inv(w) && Current(w, c) && HeldFor(w, n, pid, key)
    requires ByCollector(move, c) && !Fails(w, move, pid) && !Evicts(w, move, key)
    ensures HeldFor(Next(w, move), n, pid, key)
  {
    match move
    case Proceed(q) => ProceedHolds(w, q, n, pid, key);
    case Abort(q) => AbortHolds(w, q, n, pid, key);
    case StartEviction(_, other) => EvictHolds(w, move.collector, other, n, pid, key);
    case Remove(_) => RemoveHolds(w, c, n, pid, key);
    case _ =>
      OtherMoves(w, move);
      QuietHolds(w, Next(w, move), n, pid, key);
  }

  /** Makers and entries stay, and no publication moves. */
  predicate Quietly(w: World, next: World) {
    && next.maker == w.maker
    && next.listing == w.listing
    && forall q :: q in w.publishers ==> q in next.publishers && next.publishers[q] == w.publishers[q]
  }

  lemma OtherMoves(w: World, move: Move)
    requires !move.Proceed? && !move.Abort? && !move.StartEviction? && !move.Remove?
    ensures Quietly(w, Next(w, move))
  {
  }

  lemma QuietHolds(w: World, next: World, n: Name, pid: nat, key: Key)
    requires HeldFor(w, n, pid, key) && Quietly(w, next)
    ensures HeldFor(next, n, pid, key)
  {
  }

  lemma {:induction false} RunHolds(w: World, moves: seq<Move>, n: Name, pid: nat, key: Key, c: nat)
    requires Inv(w) && Current(w, c) && HeldFor(w, n, pid, key) && Undisturbed(w, moves, pid, key, c)
    ensures Inv(Run(w, moves)) && Current(Run(w, moves), c) && HeldFor(Run(w, moves), n, pid, key)
    decreases |moves|
  {
    if moves != [] {
      var init, last := moves[..|moves| - 1], moves[|moves| - 1];
      RunHolds(w, init, n, pid, key, c);
      StepHolds(Run(w, init), last, n, pid, key, c);
      NextKeeps(Run(w, init), last);
      StepCurrent(Run(w, init), last, c);
    }
  }

  /** The step of a publisher that creates a canonical name. */
  predicate Creates(w: World, pid: nat, n: Name) {
    Active(w, pid) && Canon(n) !in w.links && Canon(n) in Next(w, Proceed(pid)).links
  }

  /** No other phase creates a canonical name. */
  lemma OnlyCanonizing(w: World, pid: nat, n: Name)
    requires Active(w, pid) && LinkedSoFar(w, pid) && w.publishers[pid].phase != Canonizing
    requires w.publishers[pid].at < |w.publishers[pid].names|
    ensures !Creates(w, pid, n)
  {
  }

  lemma CreatedIsHeld(w: World, pid: nat, n: Name)
    requires Inv(w) && Creates(w, pid, n)
    ensures HeldFor(Next(w, Proceed(pid)), n, pid, w.publishers[pid].key)
  {
    assert LinkedSoFar(w, pid);
    var p := w.publishers[pid];
    if p.at >= |p.names| {
      PublishLinks(w, pid, Canon(n));
    } else if p.phase == Canonizing {
      LinkCanonAdds(w, pid);
    } else {
      OnlyCanonizing(w, pid, n);
    }
  }

  /** From the step that creates a canonical name on, whatever publishers, readers and
      one collector do: as long as its creator does not fail and its entry is not
      evicted, the name exists and its file has at least two links. */
  lemma CreatedNameStays(before: seq<Move>, pid: nat, n: Name, after: seq<Move>, c: nat)
    requires forall i :: 0 <= i < |before| ==> ByCollector(before[i], c)
    requires Creates(Run(EMPTY, before), pid, n)
    requires var w := Run(EMPTY, before);
             Undisturbed(Next(w, Proceed(pid)), after, pid, w.publishers[pid].key, c)
    ensures var now := Run(Next(Run(EMPTY, before), Proceed(pid)), after);
            Canon(n) in now.links && |LinksTo(now, now.links[Canon(n)])| >= 2
  {
    var w := Run(EMPTY, before);
    Reachable(before);
    RunCurrent(before, c);
    CreatedIsHeld(w, pid, n);
    var made := Next(w, Proceed(pid));
    NextKeeps(w, Proceed(pid));
    StepCurrent(w, Proceed(pid), c);
    RunHolds(made, after, n, pid, w.publishers[pid].key, c);
    HeldTwice(Run(made, after), n);
  }
}
