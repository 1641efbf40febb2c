/** The content-addressed build cache as a file system that publishers and collectors
    change one operation at a time, in any interleaving.

    A file is an inode; its names are directory entries. A canonical file is shared by
    all entries that list its name; names are hashes of contents. */
module CachePool {
  import opened Wrappers

  type Name = string
  type Key = string

  /** Where a directory entry stands. */
  datatype Place =
    | Canon(name: Name)
    | InPublication(pid: nat, name: Name)
    | InWork(pid: nat, name: Name)
    | InEntry(key: Key, name: Name)
    | InTrash(key: Key, name: Name)
    | Private(id: nat)

  function NameAt(p: Place): Option<Name> {
    if p.Private? then None else Some(p.name)
  }

  /** What a publisher does next with the name it is at. */
  datatype Phase = Linking | Canonizing | Comparing | Relinking | Gone

  datatype Publisher = Publisher(key: Key, names: seq<Name>, at: nat, phase: Phase)

  /** Who created a canonical file: a running publisher, or one whose entry is visible. */
  datatype Maker = Making(pid: nat) | Kept(key: Key)

  datatype World = World(
    links: map<Place, nat>,
    content: map<nat, Name>,
    issued: nat,
    listing: map<Key, set<Name>>,
    publishers: map<nat, Publisher>,
    evicting: map<nat, Key>,
    doomed: map<nat, Name>,
    maker: map<Name, Maker>)

  const EMPTY := World(map[], map[], 0, map[], map[], map[], map[], map[])

  /** The directory entries of an inode; their number is its link count. */
  function LinksTo(w: World, i: nat): set<Place> {
    set p | p in w.links && w.links[p] == i
  }

  predicate Active(w: World, pid: nat) {
    pid in w.publishers && w.publishers[pid].phase != Gone
  }

  /** Nobody holds the lock of this key. */
  predicate Unlocked(w: World, key: Key) {
    && (forall pid :: pid in w.publishers && w.publishers[pid].key == key ==> w.publishers[pid].phase == Gone)
    && (forall c :: c in w.evicting ==> w.evicting[c] != key)
  }

  // --------------------------------------------------------------- publisher

  function Begin(w: World, pid: nat, key: Key, names: seq<Name>): World {
    if pid in w.publishers || !Unlocked(w, key) || key in w.listing then w
    else w.(publishers := w.publishers[pid := Publisher(key, names, 0, Linking)])
  }

  function At(w: World, pid: nat, publisher: Publisher): World {
    w.(publishers := w.publishers[pid := publisher])
  }

  /** Links the extracted file into the publication first; extraction itself creates
      the file in the working directory. */
  function LinkPublication(w: World, pid: nat): World
    requires Active(w, pid) && w.publishers[pid].at < |w.publishers[pid].names|
  {
    var p := w.publishers[pid];
    var name := p.names[p.at];
    var next := p.(phase := Canonizing);
    if InPublication(pid, name) in w.links then At(w, pid, next)
    else if InWork(pid, name) in w.links then
      At(w.(links := w.links[InPublication(pid, name) := w.links[InWork(pid, name)]]), pid, next)
    else
      At(w.(links := w.links[InWork(pid, name) := w.issued][InPublication(pid, name) := w.issued],
            content := w.content[w.issued := name],
            issued := w.issued + 1), pid, next)
  }

  /** Creates the canonical name, unless it exists already. */
  function LinkCanon(w: World, pid: nat): World
    requires Active(w, pid) && w.publishers[pid].at < |w.publishers[pid].names|
    requires InPublication(pid, w.publishers[pid].names[w.publishers[pid].at]) in w.links
  {
    var p := w.publishers[pid];
    var name := p.names[p.at];
    var next := At(w, pid, p.(phase := Comparing));
    if Canon(name) in w.links then next
    else next.(links := w.links[Canon(name) := w.links[InPublication(pid, name)]],
               maker := w.maker[name := Making(pid)])
  }

  /** The publication fails; its files are cleaned up later. */
  function Fail(w: World, pid: nat): World
    requires pid in w.publishers
  {
    At(w, pid, w.publishers[pid].(phase := Gone))
      .(maker := map n | n in w.maker && w.maker[n] != Making(pid) :: w.maker[n])
  }

  /** When the canonical file is another one, the publication's own copy is dropped. */
  function Compare(w: World, pid: nat): World
    requires Active(w, pid) && w.publishers[pid].at < |w.publishers[pid].names|
    requires InPublication(pid, w.publishers[pid].names[w.publishers[pid].at]) in w.links
  {
    var p := w.publishers[pid];
    var name := p.names[p.at];
    if Canon(name) !in w.links then Fail(w, pid)
    else if w.links[Canon(name)] == w.links[InPublication(pid, name)] then
      At(w, pid, p.(at := p.at + 1, phase := Linking))
    else
      At(w.(links := w.links - {InPublication(pid, name)}), pid, p.(phase := Relinking))
  }

  /** The publication shares the canonical file, when that still exists. */
  function Relink(w: World, pid: nat): World
    requires Active(w, pid) && w.publishers[pid].at < |w.publishers[pid].names|
  {
    var p := w.publishers[pid];
    var name := p.names[p.at];
    if Canon(name) !in w.links then Fail(w, pid)
    else
      At(w.(links := w.links[InPublication(pid, name) := w.links[Canon(name)]]), pid,
         p.(at := p.at + 1, phase := Linking))
  }

  function Published(w: World, pid: nat): map<Place, nat>
    requires pid in w.publishers
  {
    var p := w.publishers[pid];
    map n | n in p.names && InPublication(pid, n) in w.links :: InEntry(p.key, n) := w.links[InPublication(pid, n)]
  }

  function NamesOf(names: seq<Name>): (s: set<Name>)
    ensures forall n :: n in s <==> n in names
  {
    set n | n in names
  }

  /** One rename makes the whole entry visible. */
  function Publish(w: World, pid: nat): World
    requires Active(w, pid)
  {
    var p := w.publishers[pid];
    var rest := map l | l in w.links && !(l.InPublication? && l.pid == pid) :: w.links[l];
    At(w.(links := rest + Published(w, pid),
          listing := w.listing[p.key := NamesOf(p.names)],
          maker := map n | n in w.maker :: if w.maker[n] == Making(pid) then Kept(p.key) else w.maker[n]),
       pid, p.(phase := Gone))
  }

  function Advance(w: World, pid: nat): World {
    if !Active(w, pid) then w
    else
      var p := w.publishers[pid];
      if p.at >= |p.names| then Publish(w, pid)
      else
        match p.phase
        case Linking => LinkPublication(w, pid)
        case Canonizing => if InPublication(pid, p.names[p.at]) in w.links then LinkCanon(w, pid) else w
        case Comparing => if InPublication(pid, p.names[p.at]) in w.links then Compare(w, pid) else w
        case Relinking => Relink(w, pid)
        case Gone => w
  }

  // --------------------------------------------------------------- collector

  /** Renames an entry away under its lock. */
  function Evict(w: World, c: nat, key: Key): World {
    if c in w.evicting || !Unlocked(w, key) || key !in w.listing
       || (exists l :: l in w.links && l.InTrash? && l.key == key) then w
    else
      var rest := map l | l in w.links && !(l.InEntry? && l.key == key) :: w.links[l];
      var trash := map n | n in w.listing[key] && InEntry(key, n) in w.links ::
                     InTrash(key, n) := w.links[InEntry(key, n)];
      w.(links := rest + trash,
         listing := w.listing - {key},
         evicting := w.evicting[c := key],
         maker := map n | n in w.maker && w.maker[n] != Kept(key) :: w.maker[n])
  }

  /** Notes a canonical file that has no other link. */
  function Check(w: World, c: nat, name: Name): World {
    if Canon(name) in w.links && LinksTo(w, w.links[Canon(name)]) == {Canon(name)}
    then w.(doomed := w.doomed[c := name]) else w
  }

  /** Removes the name that was noted, whatever it means by now. */
  function Unlink(w: World, c: nat): World {
    if c !in w.doomed then w
    else
      w.(links := w.links - {Canon(w.doomed[c])}, doomed := w.doomed - {c}, maker := w.maker - {w.doomed[c]})
  }

  datatype Move =
    | Start(pid: nat, key: Key, names: seq<Name>)
    | Proceed(pid: nat)
    | Abort(pid: nat)
    | Clean(place: Place)
    | Hydrate(id: nat, key: Key, name: Name)
    | Forget(id: nat)
    | StartEviction(collector: nat, key: Key)
    | EndEviction(collector: nat)
    | Look(collector: nat, name: Name)
    | Remove(collector: nat)

  /** A leftover that its owner or a collector may delete at any time. */
  predicate Leftover(w: World, place: Place) {
    || place.InTrash?
    || (place.InPublication? && !Active(w, place.pid))
    || (place.InWork? && !Active(w, place.pid))
  }

  function Next(w: World, move: Move): World {
    match move
    case Start(pid, key, names) => Begin(w, pid, key, names)
    case Proceed(pid) => Advance(w, pid)
    case Abort(pid) => if Active(w, pid) then Fail(w, pid) else w
    case Clean(place) => if Leftover(w, place) then w.(links := w.links - {place}) else w
    case Hydrate(id, key, name) =>
      if Private(id) !in w.links && InEntry(key, name) in w.links
      then w.(links := w.links[Private(id) := w.links[InEntry(key, name)]]) else w
    case Forget(id) => w.(links := w.links - {Private(id)})
    case StartEviction(c, key) => Evict(w, c, key)
    case EndEviction(c) => w.(evicting := w.evicting - {c})
    case Look(c, name) => Check(w, c, name)
    case Remove(c) => Unlink(w, c)
  }

  function Run(w: World, moves: seq<Move>): World {
    if moves == [] then w else Next(Run(w, moves[..|moves| - 1]), moves[|moves| - 1])
  }
}

module CacheInvariants {
  import opened Wrappers
  import opened CachePool

  /** Every directory entry points to a file whose content matches its hash name. */
  predicate Matching(w: World) {
    && (forall p :: p in w.links ==>
          && w.links[p] in w.content
          && (NameAt(p).Some? ==> w.content[w.links[p]] == NameAt(p).value))
    && (forall i :: i in w.content ==> i < w.issued)
  }

  /** Every visible entry contains every file that it lists. */
  predicate Complete(w: World) {
    forall key, n :: key in w.listing && n in w.listing[key] ==> InEntry(key, n) in w.links
  }

  /** What a running publisher has linked so far. */
  predicate LinkedSoFar(w: World, pid: nat)
    requires pid in w.publishers
  {
    var p := w.publishers[pid];
    && p.at <= |p.names|
    && (p.phase in {Canonizing, Comparing} ==> p.at < |p.names| && InPublication(pid, p.names[p.at]) in w.links)
    && (p.phase == Relinking ==> p.at < |p.names| && InPublication(pid, p.names[p.at]) !in w.links)
    && (forall j :: 0 <= j < p.at && !(p.phase == Relinking && p.names[j] == p.names[p.at]) ==>
          InPublication(pid, p.names[j]) in w.links)
  }

  ghost predicate Publishing(w: World) {
    && (forall pid :: Active(w, pid) ==> LinkedSoFar(w, pid) && w.publishers[pid].key !in w.listing)
    && (forall a, b :: Active(w, a) && Active(w, b) && a != b ==> w.publishers[a].key != w.publishers[b].key)
  }

  /** The second link of a canonical file: in the publication of its maker, or in the
      maker's entry once that is visible. */
  function SecondLink(w: World, n: Name): Place
    requires n in w.maker
  {
    match w.maker[n]
    case Making(pid) => InPublication(pid, n)
    case Kept(key) => InEntry(key, n)
  }

  predicate Held(w: World, n: Name)
    requires n in w.maker
  {
    && Canon(n) in w.links
    && SecondLink(w, n) in w.links
    && w.links[SecondLink(w, n)] == w.links[Canon(n)]
    && match w.maker[n]
       case Making(pid) => Active(w, pid) && n in w.publishers[pid].names
       case Kept(key) => key in w.listing && n in w.listing[key]
  }

  predicate MakersHold(w: World) {
    forall n :: n in w.maker ==> Held(w, n)
  }

  ghost predicate Inv(w: World) {
    Matching(w) && Complete(w) && Publishing(w) && MakersHold(w)
  }

  /** Only this publisher moves on, and existing directory entries stay as they are. */
  predicate OnlyAdds(w: World, next: World, pid: nat) {
    && (forall l :: l in w.links ==> l in next.links && next.links[l] == w.links[l])
    && (forall l :: l in next.links && l.InPublication? && l.pid != pid ==> l in w.links)
    && next.listing == w.listing
    && Active(w, pid) && Active(next, pid)
    && next.publishers == w.publishers[pid := next.publishers[pid]]
    && next.publishers[pid].key == w.publishers[pid].key
    && next.publishers[pid].names == w.publishers[pid].names
  }
}

module CacheSteps {
  import opened Wrappers
  import opened CachePool
  import opened CacheInvariants

  // ---------------------------------------------------------------- one move

  lemma BeginKeeps(w: World, pid: nat, key: Key, names: seq<Name>)
    requires Inv(w)
    ensures Inv(Begin(w, pid, key, names))
  {
    var next := Begin(w, pid, key, names);
    if next != w {
      forall n | n in next.maker ensures Held(next, n) {
        assert Held(w, n);
      }
      forall q | Active(next, q) ensures LinkedSoFar(next, q) && next.publishers[q].key !in next.listing {
        if q != pid {
          assert Active(w, q) && LinkedSoFar(w, q);
        }
      }
    }
  }

  lemma FailKeeps(w: World, pid: nat)
    requires Inv(w) && Active(w, pid)
    ensures Inv(Fail(w, pid))
  {
    var next := Fail(w, pid);
    forall n | n in next.maker ensures Held(next, n) {
      assert Held(w, n);
    }
    forall q | Active(next, q) ensures LinkedSoFar(next, q) {
      assert Active(w, q) && LinkedSoFar(w, q);
    }
  }

  lemma AddsKeep(w: World, next: World, pid: nat)
    requires Inv(w) && OnlyAdds(w, next, pid) && Matching(next) && LinkedSoFar(next, pid)
    requires forall n :: n in next.maker && !(n in w.maker && next.maker[n] == w.maker[n]) ==> Held(next, n)
    ensures Inv(next)
  {
    forall n | n in next.maker ensures Held(next, n) {
      if n in w.maker && next.maker[n] == w.maker[n] {
        assert Held(w, n);
      }
    }
    forall q | Active(next, q) ensures LinkedSoFar(next, q) && next.publishers[q].key !in next.listing {
      assert Active(w, q) && LinkedSoFar(w, q);
    }
    assert forall a, b :: Active(next, a) && Active(next, b) ==> Active(w, a) && Active(w, b);
  }

  /** One more directory entry of a known file under its own name. */
  lemma MatchingAdd(w: World, next: World, place: Place, i: nat)
    requires Matching(w) && next.links == w.links[place := i] && next.content == w.content && next.issued == w.issued
    requires i in w.content && (NameAt(place).Some? ==> w.content[i] == NameAt(place).value)
    ensures Matching(next)
  {
  }

  /** A new file under its own name, in two places. */
  lemma MatchingNew(w: World, next: World, a: Place, b: Place, name: Name)
    requires Matching(w) && next.links == w.links[a := w.issued][b := w.issued]
    requires next.content == w.content[w.issued := name] && next.issued == w.issued + 1
    requires NameAt(a) == Some(name) && NameAt(b) == Some(name)
    ensures Matching(next)
  {
  }

  lemma LinkPublicationMatching(w: World, pid: nat)
    requires Matching(w) && Active(w, pid) && w.publishers[pid].at < |w.publishers[pid].names|
    ensures Matching(LinkPublication(w, pid))
  {
    var name := w.publishers[pid].names[w.publishers[pid].at];
    var next := LinkPublication(w, pid);
    if InPublication(pid, name) !in w.links {
      if InWork(pid, name) in w.links {
        MatchingAdd(w, next, InPublication(pid, name), w.links[InWork(pid, name)]);
      } else {
        MatchingNew(w, next, InWork(pid, name), InPublication(pid, name), name);
      }
    }
  }

  lemma LinkPublicationAdds(w: World, pid: nat)
    requires Active(w, pid) && w.publishers[pid].phase == Linking && LinkedSoFar(w, pid)
    requires w.publishers[pid].at < |w.publishers[pid].names|
    ensures OnlyAdds(w, LinkPublication(w, pid), pid)
    ensures LinkPublication(w, pid).maker == w.maker
  {
    var p := w.publishers[pid];
    var name := p.names[p.at];
    var next := LinkPublication(w, pid);
    assert next.publishers == w.publishers[pid := p.(phase := Canonizing)];
    if InPublication(pid, name) in w.links {
      assert next.links == w.links;
    } else if InWork(pid, name) in w.links {
      assert next.links == w.links[InPublication(pid, name) := w.links[InWork(pid, name)]];
    } else {
      assert next.links == w.links[InWork(pid, name) := w.issued][InPublication(pid, name) := w.issued];
    }
  }

  lemma LinkPublicationLinked(w: World, pid: nat)
    requires Active(w, pid) && w.publishers[pid].phase == Linking && LinkedSoFar(w, pid)
    requires w.publishers[pid].at < |w.publishers[pid].names|
    ensures LinkedSoFar(LinkPublication(w, pid), pid)
  {
  }

  lemma LinkPublicationKeeps(w: World, pid: nat)
    requires Inv(w) && Active(w, pid) && w.publishers[pid].phase == Linking
    requires w.publishers[pid].at < |w.publishers[pid].names|
    ensures Inv(LinkPublication(w, pid))
  {
    LinkPublicationMatching(w, pid);
    LinkPublicationAdds(w, pid);
    LinkPublicationLinked(w, pid);
    AddsKeep(w, LinkPublication(w, pid), pid);
  }

  lemma LinkCanonAdds(w: World, pid: nat)
    requires Matching(w) && Active(w, pid) && w.publishers[pid].phase == Canonizing && LinkedSoFar(w, pid)
    ensures OnlyAdds(w, LinkCanon(w, pid), pid) && LinkedSoFar(LinkCanon(w, pid), pid) && Matching(LinkCanon(w, pid))
    ensures var name := w.publishers[pid].names[w.publishers[pid].at];
            var next := LinkCanon(w, pid);
            && (next.maker == w.maker || next.maker == w.maker[name := Making(pid)])
            && (next.maker != w.maker ==> Held(next, name))
  {
    var name := w.publishers[pid].names[w.publishers[pid].at];
    if Canon(name) !in w.links {
      MatchingAdd(w, LinkCanon(w, pid), Canon(name), w.links[InPublication(pid, name)]);
    }
  }

  lemma LinkCanonKeeps(w: World, pid: nat)
    requires Inv(w) && Active(w, pid) && w.publishers[pid].phase == Canonizing
    ensures Inv(LinkCanon(w, pid))
  {
    assert LinkedSoFar(w, pid);
    LinkCanonAdds(w, pid);
    AddsKeep(w, LinkCanon(w, pid), pid);
  }

  lemma RelinkKeeps(w: World, pid: nat)
    requires Inv(w) && Active(w, pid) && w.publishers[pid].phase == Relinking && LinkedSoFar(w, pid)
    ensures Inv(Relink(w, pid))
  {
    if Canon(w.publishers[pid].names[w.publishers[pid].at]) in w.links {
      AddsKeep(w, Relink(w, pid), pid);
    } else {
      FailKeeps(w, pid);
    }
  }

  lemma CompareKeeps(w: World, pid: nat)
    requires Inv(w) && Active(w, pid) && w.publishers[pid].phase == Comparing
    ensures Inv(Compare(w, pid))
  {
    assert LinkedSoFar(w, pid);
    var p := w.publishers[pid];
    var name := p.names[p.at];
    var next := Compare(w, pid);
    if Canon(name) !in w.links {
      FailKeeps(w, pid);
    } else if w.links[Canon(name)] == w.links[InPublication(pid, name)] {
      AddsKeep(w, next, pid);
    } else {
      DropKeeps(w, pid);
    }
  }

  /** Dropping an own copy that is not the canonical file: its maker is another one. */
  lemma DropKeeps(w: World, pid: nat)
    requires Inv(w) && Active(w, pid) && w.publishers[pid].phase == Comparing && LinkedSoFar(w, pid)
    requires var name := w.publishers[pid].names[w.publishers[pid].at];
             Canon(name) in w.links && w.links[Canon(name)] != w.links[InPublication(pid, name)]
    ensures Inv(Compare(w, pid))
  {
    DropMatching(w, pid);
    DropHeld(w, pid);
    DropContinues(w, pid);
  }

  lemma DropMatching(w: World, pid: nat)
    requires Matching(w) && Complete(w) && Active(w, pid) && LinkedSoFar(w, pid)
    requires w.publishers[pid].phase == Comparing
    requires var name := w.publishers[pid].names[w.publishers[pid].at];
             Canon(name) in w.links && w.links[Canon(name)] != w.links[InPublication(pid, name)]
    ensures Matching(Compare(w, pid)) && Complete(Compare(w, pid))
  {
    var name := w.publishers[pid].names[w.publishers[pid].at];
    var next := Compare(w, pid);
    assert next.links == w.links - {InPublication(pid, name)} && next.content == w.content && next.listing == w.listing;
  }

  lemma DropHeld(w: World, pid: nat)
    requires MakersHold(w) && Active(w, pid) && LinkedSoFar(w, pid) && w.publishers[pid].phase == Comparing
    requires var name := w.publishers[pid].names[w.publishers[pid].at];
             Canon(name) in w.links && w.links[Canon(name)] != w.links[InPublication(pid, name)]
    ensures MakersHold(Compare(w, pid))
  {
    var name := w.publishers[pid].names[w.publishers[pid].at];
    var next := Compare(w, pid);
    assert next.links == w.links - {InPublication(pid, name)} && next.maker == w.maker;
    forall n | n in next.maker ensures Held(next, n) {
      assert Held(w, n);
    }
  }

  lemma DropContinues(w: World, pid: nat)
    requires Publishing(w) && Active(w, pid) && w.publishers[pid].phase == Comparing && LinkedSoFar(w, pid)
    requires var name := w.publishers[pid].names[w.publishers[pid].at];
             Canon(name) in w.links && w.links[Canon(name)] != w.links[InPublication(pid, name)]
    ensures Publishing(Compare(w, pid))
  {
    var next := Compare(w, pid);
    forall q | Active(next, q) ensures LinkedSoFar(next, q) && next.publishers[q].key !in next.listing {
      assert Active(w, q) && LinkedSoFar(w, q);
    }
    assert forall a, b :: Active(next, a) && Active(next, b) ==> Active(w, a) && Active(w, b);
  }

  // --------------------------------------------------------------- publishing

  /** The links after the rename. */
  lemma PublishLinks(w: World, pid: nat, l: Place)
    requires Active(w, pid)
    ensures var next := Publish(w, pid);
            var p := w.publishers[pid];
            && (l in w.links && !(l.InPublication? && l.pid == pid) && !(l.InEntry? && l.key == p.key) ==>
                  l in next.links && next.links[l] == w.links[l])
            && (l.InEntry? && l.key == p.key && l.name in p.names && InPublication(pid, l.name) in w.links ==>
                  l in next.links && next.links[l] == w.links[InPublication(pid, l.name)])
            && (l in next.links ==>
                  (l in w.links && next.links[l] == w.links[l])
                  || (l.InEntry? && InPublication(pid, l.name) in w.links
                      && next.links[l] == w.links[InPublication(pid, l.name)]))
  {
  }

  lemma PublishMatching(w: World, pid: nat)
    requires Matching(w) && Active(w, pid)
    ensures Matching(Publish(w, pid))
  {
    var next := Publish(w, pid);
    forall l | l in next.links
      ensures next.links[l] in next.content && (NameAt(l).Some? ==> next.content[next.links[l]] == NameAt(l).value)
    {
      PublishLinks(w, pid, l);
    }
  }

  /** Publishers other than a finished one are where they were. */
  lemma OthersContinue(w: World, next: World, pid: nat)
    requires Publishing(w) && Active(w, pid) && !Active(next, pid)
    requires forall q :: Active(next, q) ==> Active(w, q) && next.publishers[q] == w.publishers[q]
    requires forall key :: key in next.listing ==> key in w.listing || key == w.publishers[pid].key
    requires forall l: Place :: l.InPublication? && l.pid != pid ==>
               (l in next.links <==> l in w.links) && (l in w.links ==> next.links[l] == w.links[l])
    ensures Publishing(next)
  {
    forall q | Active(next, q) ensures LinkedSoFar(next, q) && next.publishers[q].key !in next.listing {
      assert q != pid && LinkedSoFar(w, q);
    }
  }

  lemma PublishMaker(w: World, pid: nat, n: Name)
    requires Inv(w) && Active(w, pid) && n in w.maker && LinkedSoFar(w, pid)
             && w.publishers[pid].at >= |w.publishers[pid].names|
    ensures Held(Publish(w, pid), n)
  {
    assert Held(w, n);
    PublishLinks(w, pid, Canon(n));
    if w.maker[n] == Making(pid) {
      PublishOwn(w, pid, n);
    } else {
      PublishOther(w, pid, n);
    }
  }

  lemma PublishOwn(w: World, pid: nat, n: Name)
    requires Active(w, pid) && n in w.maker && w.maker[n] == Making(pid) && Held(w, n)
    requires Canon(n) in Publish(w, pid).links && Publish(w, pid).links[Canon(n)] == w.links[Canon(n)]
    ensures Held(Publish(w, pid), n)
  {
    PublishLinks(w, pid, InEntry(w.publishers[pid].key, n));
  }

  lemma PublishOther(w: World, pid: nat, n: Name)
    requires Active(w, pid) && n in w.maker && w.maker[n] != Making(pid) && Held(w, n)
    requires w.publishers[pid].key !in w.listing
    requires Canon(n) in Publish(w, pid).links && Publish(w, pid).links[Canon(n)] == w.links[Canon(n)]
    ensures Held(Publish(w, pid), n)
  {
    PublishLinks(w, pid, SecondLink(w, n));
  }

  lemma PublishComplete(w: World, pid: nat)
    requires Inv(w) && Active(w, pid) && LinkedSoFar(w, pid) && w.publishers[pid].at >= |w.publishers[pid].names|
    ensures Complete(Publish(w, pid))
  {
    var p := w.publishers[pid];
    var next := Publish(w, pid);
    forall key, n | key in next.listing && n in next.listing[key] ensures InEntry(key, n) in next.links {
      PublishLinks(w, pid, InEntry(key, n));
      if key == p.key {
        var j :| 0 <= j < |p.names| && p.names[j] == n;
        assert InPublication(pid, p.names[j]) in w.links;
      }
    }
  }

  lemma PublishKeeps(w: World, pid: nat)
    requires Inv(w) && Active(w, pid) && w.publishers[pid].at >= |w.publishers[pid].names|
    ensures Inv(Publish(w, pid))
  {
    var next := Publish(w, pid);
    assert LinkedSoFar(w, pid);
    PublishMatching(w, pid);
    PublishComplete(w, pid);
    forall n | n in next.maker ensures Held(next, n) {
      PublishMaker(w, pid, n);
    }
    forall l: Place | l.InPublication? && l.pid != pid
      ensures (l in next.links <==> l in w.links) && (l in w.links ==> next.links[l] == w.links[l])
    {
      PublishLinks(w, pid, l);
    }
    OthersContinue(w, next, pid);
  }

  // --------------------------------------------------------------- collecting

  lemma EvictPlaces(w: World, c: nat, key: Key)
    requires Matching(w)
    ensures var next := Evict(w, c, key);
            && Matching(next)
            && (forall l :: l in w.links && !(l.InEntry? && l.key == key) ==>
                  l in next.links && next.links[l] == w.links[l])
            && (forall l :: l in next.links && l.InPublication? ==> l in w.links)
  {
    var next := Evict(w, c, key);
    if next != w {
      forall l | l in w.links && !(l.InEntry? && l.key == key) ensures l in next.links && next.links[l] == w.links[l] {
        if l.InTrash? {
          assert l.key != key;
        }
      }
    }
  }

  /** Publishers are where they were. */
  lemma AllContinue(w: World, next: World)
    requires Publishing(w) && next.publishers == w.publishers
    requires forall key :: key in next.listing ==> key in w.listing
    requires forall l: Place :: l.InPublication? ==>
               (l in next.links <==> l in w.links) && (l in w.links ==> next.links[l] == w.links[l])
    ensures Publishing(next)
  {
    forall q | Active(next, q) ensures LinkedSoFar(next, q) && next.publishers[q].key !in next.listing {
      assert Active(w, q) && LinkedSoFar(w, q);
    }
    assert forall a, b :: Active(next, a) && Active(next, b) ==> Active(w, a) && Active(w, b);
  }

  lemma EvictMaker(w: World, c: nat, key: Key, n: Name)
    requires Inv(w) && n in Evict(w, c, key).maker
    ensures Held(Evict(w, c, key), n)
  {
    EvictPlaces(w, c, key);
    assert Held(w, n);
  }

  lemma EvictKeeps(w: World, c: nat, key: Key)
    requires Inv(w)
    ensures Inv(Evict(w, c, key))
  {
    var next := Evict(w, c, key);
    if next != w {
      EvictPlaces(w, c, key);
      forall n | n in next.maker ensures Held(next, n) {
        EvictMaker(w, c, key, n);
      }
      AllContinue(w, next);
    }
  }

  /** Removing a directory entry that no invariant relies on. */
  lemma RemovalKeeps(w: World, next: World, place: Place)
    requires Inv(w) && next.links == w.links - {place}
    requires next.content == w.content && next.issued == w.issued && next.listing == w.listing
    requires next.publishers == w.publishers
    requires Leftover(w, place) || place.Private? || (place.Canon? && next.maker == w.maker - {place.name})
    requires !place.Canon? ==> next.maker == w.maker
    ensures Inv(next)
  {
    forall n | n in next.maker ensures Held(next, n) {
      assert Held(w, n);
    }
    forall q | Active(next, q) ensures LinkedSoFar(next, q) && next.publishers[q].key !in next.listing {
      assert Active(w, q) && LinkedSoFar(w, q);
    }
  }

  lemma HydrateKeeps(w: World, id: nat, key: Key, name: Name)
    requires Inv(w) && Private(id) !in w.links && InEntry(key, name) in w.links
    ensures Inv(w.(links := w.links[Private(id) := w.links[InEntry(key, name)]]))
  {
    var next := w.(links := w.links[Private(id) := w.links[InEntry(key, name)]]);
    forall n | n in next.maker ensures Held(next, n) {
      assert Held(w, n);
    }
    forall q | Active(next, q) ensures LinkedSoFar(next, q) && next.publishers[q].key !in next.listing {
      assert Active(w, q) && LinkedSoFar(w, q);
    }
  }

  lemma QuietKeeps(w: World, next: World)
    requires Inv(w) && next == w.(evicting := next.evicting, doomed := next.doomed)
    ensures Inv(next)
  {
    forall n | n in next.maker ensures Held(next, n) {
      assert Held(w, n);
    }
    forall q | Active(next, q) ensures LinkedSoFar(next, q) && next.publishers[q].key !in next.listing {
      assert Active(w, q) && LinkedSoFar(w, q);
    }
  }

  lemma AdvanceKeeps(w: World, pid: nat)
    requires Inv(w)
    ensures Inv(Advance(w, pid))
  {
    if Active(w, pid) {
      var p := w.publishers[pid];
      if p.at >= |p.names| {
        PublishKeeps(w, pid);
      } else {
        match p.phase
        case Linking => LinkPublicationKeeps(w, pid);
        case Canonizing => assert LinkedSoFar(w, pid); LinkCanonKeeps(w, pid);
        case Comparing => assert LinkedSoFar(w, pid); CompareKeeps(w, pid);
        case Relinking => assert LinkedSoFar(w, pid); RelinkKeeps(w, pid);
        case Gone =>
      }
    }
  }

  /** Every move of every publisher, collector and reader keeps the invariant. */
  lemma NextKeeps(w: World, move: Move)
    requires Inv(w)
    ensures Inv(Next(w, move))
  {
    match move
    case Start(pid, key, names) => BeginKeeps(w, pid, key, names);
    case Proceed(pid) => AdvanceKeeps(w, pid);
    case Abort(pid) => if Active(w, pid) { FailKeeps(w, pid); }
    case Clean(place) => if Leftover(w, place) { RemovalKeeps(w, Next(w, move), place); }
    case Hydrate(id, key, name) =>
      if Private(id) !in w.links && InEntry(key, name) in w.links { HydrateKeeps(w, id, key, name); }
    case Forget(id) => RemovalKeeps(w, Next(w, move), Private(id));
    case StartEviction(c, key) => EvictKeeps(w, c, key);
    case EndEviction(c) => QuietKeeps(w, Next(w, move));
    case Look(c, name) => QuietKeeps(w, Next(w, move));
    case Remove(c) => if c in w.doomed { RemovalKeeps(w, Next(w, move), Canon(w.doomed[c])); }
  }
}

/** What holds over every interleaving. */
module CacheSafety {
  import opened Wrappers
  import opened CachePool
  import opened CacheInvariants
  import opened CacheSteps

  lemma {:induction false} Reachable(moves: seq<Move>)
    ensures var w := Run(EMPTY, moves); Matching(w) && Complete(w) && Publishing(w) && MakersHold(w)
    decreases |moves|
  {
    if moves != [] {
      Reachable(moves[..|moves| - 1]);
      NextKeeps(Run(EMPTY, moves[..|moves| - 1]), moves[|moves| - 1]);
    }
  }

  /** Every visible entry contains every file that it lists, each with the content of
      its hash name, whatever collectors removed meanwhile. */
  lemma VisibleEntriesComplete(moves: seq<Move>, key: Key, n: Name)
    requires var w := Run(EMPTY, moves); key in w.listing && n in w.listing[key]
    ensures var w := Run(EMPTY, moves);
            && InEntry(key, n) in w.links
            && w.links[InEntry(key, n)] in w.content
            && w.content[w.links[InEntry(key, n)]] == n
  {
    Reachable(moves);
  }

  /** A canonical file has a second link until the entry of the publisher that created
      it is evicted, or that publisher fails: no collector ever sees it as unreferenced. */
  lemma CanonicalKeepsTwoLinks(moves: seq<Move>, n: Name)
    requires n in Run(EMPTY, moves).maker
    ensures var w := Run(EMPTY, moves);
            && Canon(n) in w.links
            && |LinksTo(w, w.links[Canon(n)])| >= 2
            && forall c: nat :: Check(w, c, n) == w
  {
    Reachable(moves);
    HeldTwice(Run(EMPTY, moves), n);
  }

  lemma HeldTwice(w: World, n: Name)
    requires MakersHold(w) && n in w.maker
    ensures Canon(n) in w.links && |LinksTo(w, w.links[Canon(n)])| >= 2
    ensures forall c: nat :: Check(w, c, n) == w
  {
    assert Held(w, n);
    var i := w.links[Canon(n)];
    var two := {Canon(n), SecondLink(w, n)};
    assert two <= LinksTo(w, i);
    SubsetSize(two, LinksTo(w, i));
  }

  lemma SubsetSize<T>(a: set<T>, b: set<T>)
    requires a <= b
    ensures |a| <= |b|
  {
    assert b == a + (b - a);
  }
}

/** With a single collector at work, a created file is never taken from its maker. */
module CacheSingleCollector {
  import opened Wrappers
  import opened CachePool
  import opened CacheInvariants
  import opened CacheSteps
  import opened CacheSafety

  predicate ByCollector(move: Move, c: nat) {
    && (move.Look? ==> move.collector == c)
    && (move.Remove? ==> move.collector == c)
  }

  /** What the collector noted still is the file that nobody holds. */
  predicate Current(w: World, c: nat) {
    && w.doomed.Keys <= {c}
    && (c in w.doomed ==> Canon(w.doomed[c]) in w.links && w.doomed[c] !in w.maker)
  }

  /** Canonical names stay, and those that exist get no new maker. */
  predicate CanonKept(w: World, next: World, n: Name) {
    && Canon(n) in next.links
    && (n !in w.maker ==> n !in next.maker)
    && next.doomed == w.doomed
  }

  lemma PublishKeepsCanon(w: World, pid: nat, n: Name)
    requires Canon(n) in w.links && Active(w, pid)
    ensures CanonKept(w, Publish(w, pid), n)
  {
    PublishLinks(w, pid, Canon(n));
  }

  lemma LinkingKeepsCanon(w: World, pid: nat, n: Name)
    requires Canon(n) in w.links && Active(w, pid) && w.publishers[pid].at < |w.publishers[pid].names|
    ensures CanonKept(w, LinkPublication(w, pid), n)
  {
  }

  lemma RelinkingKeepsCanon(w: World, pid: nat, n: Name)
    requires Canon(n) in w.links && Active(w, pid) && w.publishers[pid].at < |w.publishers[pid].names|
    ensures CanonKept(w, Relink(w, pid), n)
  {
  }

  lemma CanonizingKeepsCanon(w: World, pid: nat, n: Name)
    requires Canon(n) in w.links && Active(w, pid) && w.publishers[pid].at < |w.publishers[pid].names|
    requires InPublication(pid, w.publishers[pid].names[w.publishers[pid].at]) in w.links
    ensures CanonKept(w, LinkCanon(w, pid), n)
  {
  }

  lemma ComparingKeepsCanon(w: World, pid: nat, n: Name)
    requires Canon(n) in w.links && Active(w, pid) && w.publishers[pid].at < |w.publishers[pid].names|
    requires InPublication(pid, w.publishers[pid].names[w.publishers[pid].at]) in w.links
    ensures CanonKept(w, Compare(w, pid), n)
  {
  }

  lemma AdvanceKeepsCanon(w: World, pid: nat, n: Name)
    requires Canon(n) in w.links
    ensures CanonKept(w, Advance(w, pid), n)
  {
    if Active(w, pid) {
      if w.publishers[pid].at >= |w.publishers[pid].names| {
        PublishKeepsCanon(w, pid, n);
      } else {
        var p := w.publishers[pid];
        LinkingKeepsCanon(w, pid, n);
        RelinkingKeepsCanon(w, pid, n);
        if InPublication(pid, p.names[p.at]) in w.links {
          CanonizingKeepsCanon(w, pid, n);
          ComparingKeepsCanon(w, pid, n);
        }
      }
    }
  }

  /** Only removal takes canonical names away, and an existing one gets no new maker. */
  lemma CanonStays(w: World, move: Move, n: Name)
    requires !move.Remove? && Canon(n) in w.links
    ensures Canon(n) in Next(w, move).links
    ensures n !in w.maker ==> n !in Next(w, move).maker
  {
    if move.Proceed? {
      AdvanceKeepsCanon(w, move.pid, n);
    }
  }

  lemma AdvanceKeepsDoomed(w: World, pid: nat)
    ensures Advance(w, pid).doomed == w.doomed
  {
    if Active(w, pid) && w.publishers[pid].at >= |w.publishers[pid].names| {
      assert Publish(w, pid).doomed == w.doomed;
    }
  }

  lemma DoomedStays(w: World, move: Move)
    requires !move.Remove? && !move.Look?
    ensures Next(w, move).doomed == w.doomed
  {
    match move
    case Proceed(pid) => AdvanceKeepsDoomed(w, pid);
    case StartEviction(c, key) => assert Evict(w, c, key).doomed == w.doomed;
    case _ =>
  }

  lemma StepCurrent(w: World, move: Move, c: nat)
    requires Inv(w) && Current(w, c) && ByCollector(move, c)
    ensures Current(Next(w, move), c)
  {
    if move.Look? {
      var n := move.name;
      if n in w.maker {
        assert Held(w, n);
        assert SecondLink(w, n) in LinksTo(w, w.links[Canon(n)]);
      }
    } else if !move.Remove? {
      DoomedStays(w, move);
      if c in w.doomed {
        CanonStays(w, move, w.doomed[c]);
      }
    }
  }

  lemma {:induction false} RunCurrent(moves: seq<Move>, c: nat)
    requires forall i :: 0 <= i < |moves| ==> ByCollector(moves[i], c)
    ensures Current(Run(EMPTY, moves), c)
    decreases |moves|
  {
    if moves != [] {
      var init := moves[..|moves| - 1];
      Reachable(init);
      RunCurrent(init, c);
      StepCurrent(Run(EMPTY, init), moves[|moves| - 1], c);
    }
  }

  /** A single collector never removes a canonical file that its maker still holds. */
  lemma NeverTakesHeld(moves: seq<Move>, c: nat, n: Name)
    requires forall i :: 0 <= i < |moves| ==> ByCollector(moves[i], c)
    requires n in Run(EMPTY, moves).maker
    ensures Canon(n) in Next(Run(EMPTY, moves), Remove(c)).links
  {
    Reachable(moves);
    RunCurrent(moves, c);
    TakesOther(Run(EMPTY, moves), c, n);
  }

  lemma TakesOther(w: World, c: nat, n: Name)
    requires Inv(w) && Current(w, c) && n in w.maker
    ensures Canon(n) in Next(w, Remove(c)).links
  {
    assert Held(w, n);
  }
}
