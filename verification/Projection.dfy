/** The disposable index over the ledger: an ordered table of sessions with filter
    columns, a table of providers, and an overlay of changed sessions. */
module SessionIndex {
  import opened Wrappers
  import opened Ledger
  import opened Selection
  import opened RelatedRows

  /** One row of the session table. */
  datatype Row = Row(
    ordinal: nat,
    status: Status,
    model: string,
    phase: string,
    resume: Option<string>,
    positive: bool,
    data: Session)

  function RowOf(s: Session, ordinal: nat): Row {
    Row(ordinal, s.status, s.model, s.phase, s.resume, Cost(s) > 0.0, s)
  }

  type Table = map<string, Row>

  type Providers = set<(string, string)>

  function ProvidersOf(s: Session): Providers {
    set p | p in s.totals :: (p, s.id)
  }

  /** The tables hold exactly these sessions, in this order. */
  ghost predicate Indexed(rows: Table, providers: Providers, ss: seq<Session>) {
    && UniqueIds(ss)
    && (forall id :: id in rows ==> Has(ss, id))
    && (forall i :: 0 <= i < |ss| ==> ss[i].id in rows && rows[ss[i].id] == RowOf(ss[i], rows[ss[i].id].ordinal))
    && (forall i, j :: 0 <= i < j < |ss| ==> rows[ss[i].id].ordinal < rows[ss[j].id].ordinal)
    && (forall p, id :: (p, id) in providers <==> Has(ss, id) && p in Get(ss, id).totals)
  }

  /** The sessions with the changed ones put over them, in the order of the overlay. */
  function Overlay(ss: seq<Session>, changed: seq<Session>): seq<Session> {
    if changed == [] then ss
    else Put(Overlay(ss, changed[..|changed| - 1]), changed[|changed| - 1])
  }

  lemma OverlayAppend(ss: seq<Session>, changed: seq<Session>, s: Session)
    ensures Overlay(ss, changed + [s]) == Put(Overlay(ss, changed), s)
  {
    assert (changed + [s])[..|changed|] == changed;
  }

  lemma HasAfterPut(ss: seq<Session>, s: Session, id: string)
    requires UniqueIds(ss)
    ensures UniqueIds(Put(ss, s))
    ensures Has(Put(ss, s), id) <==> Has(ss, id) || id == s.id
    ensures Has(Put(ss, s), id) ==> Get(Put(ss, s), id) == if id == s.id then s else Get(ss, id)
  {
    if Has(ss, s.id) {
      PutInPlace(ss, s);
      var k := IndexOf(ss, s.id);
      assert Put(ss, s)[k].id == s.id;
    } else {
      PutAtEnd(ss, s);
      assert Put(ss, s)[|ss|].id == s.id;
    }
    if Has(ss, id) {
      assert Put(ss, s)[IndexOf(ss, id)].id == id;
      IndexOfUnique(Put(ss, s), IndexOf(ss, id));
    }
    IndexOfUnique(Put(ss, s), if Has(ss, s.id) then IndexOf(ss, s.id) else |ss|);
  }

  /** Looking a session up in the overlay first and in the table second. */
  lemma {:induction false} OverlayGet(ss: seq<Session>, changed: seq<Session>, id: string)
    requires UniqueIds(ss) && UniqueIds(changed)
    ensures UniqueIds(Overlay(ss, changed))
    ensures Has(Overlay(ss, changed), id) <==> Has(ss, id) || Has(changed, id)
    ensures Has(Overlay(ss, changed), id) ==>
              Get(Overlay(ss, changed), id) == if Has(changed, id) then Get(changed, id) else Get(ss, id)
  {
    if changed != [] {
      var n := |changed| - 1;
      OverlayGet(ss, changed[..n], id);
      HasAfterPut(Overlay(ss, changed[..n]), changed[n], id);
      HasAtEnd(changed, id);
    }
  }

  lemma HasAtEnd(changed: seq<Session>, id: string)
    requires changed != [] && UniqueIds(changed)
    ensures var n := |changed| - 1;
            && (Has(changed, id) <==> Has(changed[..n], id) || changed[n].id == id)
            && (Has(changed[..n], id) ==> Get(changed, id) == Get(changed[..n], id))
            && (changed[n].id == id ==> Get(changed, id) == changed[n])
  {
    var n := |changed| - 1;
    IndexOfUnique(changed, n);
    if Has(changed[..n], id) {
      var k := IndexOf(changed[..n], id);
      assert changed[k].id == id;
      IndexOfUnique(changed, k);
    } else {
      assert forall j :: 0 <= j < n ==> changed[..n][j] == changed[j];
    }
  }

  /** Caching a session in the overlay changes nothing. */
  lemma CacheInOverlay(ss: seq<Session>, changed: seq<Session>, id: string)
    requires UniqueIds(ss) && UniqueIds(changed) && Has(ss, id) && !Has(changed, id)
    ensures Overlay(ss, changed + [Get(ss, id)]) == Overlay(ss, changed)
    ensures UniqueIds(changed + [Get(ss, id)])
  {
    OverlayAppend(ss, changed, Get(ss, id));
    OverlayGet(ss, changed, id);
    var all := Overlay(ss, changed);
    assert all[IndexOf(all, id) := Get(ss, id)] == all;
    PutAtEnd(changed, Get(ss, id));
  }

  /** Overwriting the last session of the overlay. */
  lemma WriteLast(ss: seq<Session>, changed: seq<Session>, s: Session)
    requires UniqueIds(ss) && UniqueIds(changed) && changed != [] && changed[|changed| - 1].id == s.id
    ensures Overlay(ss, Put(changed, s)) == Put(Overlay(ss, changed), s)
  {
    var n := |changed| - 1;
    OverlayGet(ss, changed[..n], s.id);
    IndexOfUnique(changed, n);
    assert Put(changed, s) == changed[n := s];
    assert changed[n := s][..n] == changed[..n];
    PutTwice(Overlay(ss, changed[..n]), changed[n], s);
  }

  lemma PutInFront(changed: seq<Session>, s: Session)
    requires UniqueIds(changed) && changed != [] && Has(changed, s.id) && changed[|changed| - 1].id != s.id
    ensures var n := |changed| - 1;
            && Has(changed[..n], s.id)
            && Put(changed, s)[..n] == Put(changed[..n], s)
            && |Put(changed, s)| == n + 1 && Put(changed, s)[n] == changed[n]
  {
    var n := |changed| - 1;
    HasAtEnd(changed, s.id);
    IndexOfUnique(changed[..n], IndexOf(changed, s.id));
  }

  /** Writing in front of the last session of the overlay. */
  lemma WriteInFront(ss: seq<Session>, changed: seq<Session>, s: Session)
    requires UniqueIds(ss) && UniqueIds(changed) && changed != [] && Has(changed, s.id)
    requires changed[|changed| - 1].id != s.id
    requires var n := |changed| - 1;
             Overlay(ss, Put(changed[..n], s)) == Put(Overlay(ss, changed[..n]), s)
    ensures Overlay(ss, Put(changed, s)) == Put(Overlay(ss, changed), s)
  {
    var n := |changed| - 1;
    PutInFront(changed, s);
    OverlayGet(ss, changed[..n], s.id);
    PutCommutes(Overlay(ss, changed[..n]), s, changed[n]);
  }

  /** Writing a session into the overlay writes it over the sessions. */
  lemma {:induction false} WriteInOverlay(ss: seq<Session>, changed: seq<Session>, s: Session)
    requires UniqueIds(ss) && UniqueIds(changed)
    ensures Overlay(ss, Put(changed, s)) == Put(Overlay(ss, changed), s)
    ensures UniqueIds(Put(changed, s))
    decreases |changed|
  {
    HasAfterPut(changed, s, s.id);
    if !Has(changed, s.id) {
      OverlayAppend(ss, changed, s);
    } else if changed[|changed| - 1].id == s.id {
      WriteLast(ss, changed, s);
    } else {
      WriteInOverlay(ss, changed[..|changed| - 1], s);
      WriteInFront(ss, changed, s);
    }
  }

  lemma PutTwice(ss: seq<Session>, a: Session, b: Session)
    requires UniqueIds(ss) && a.id == b.id
    ensures Put(Put(ss, a), b) == Put(ss, b)
  {
    HasAfterPut(ss, a, a.id);
    if Has(ss, a.id) {
      IndexOfUnique(Put(ss, a), IndexOf(ss, a.id));
    } else {
      IndexOfUnique(Put(ss, a), |ss|);
    }
  }

  /** A session already there is written in place, whatever else is written. */
  lemma PutCommutes(ss: seq<Session>, a: Session, b: Session)
    requires UniqueIds(ss) && Has(ss, a.id) && a.id != b.id
    ensures Put(Put(ss, a), b) == Put(Put(ss, b), a)
  {
    var k := IndexOf(ss, a.id);
    PutInPlace(ss, a);
    HasAfterPut(ss, a, b.id);
    HasAfterPut(ss, b, a.id);
    IndexOfUnique(Put(ss, b), k);
    if Has(ss, b.id) {
      IndexOfUnique(Put(ss, a), IndexOf(ss, b.id));
    }
  }

  // ------------------------------------------------------------------ saving

  /** Every ordinal in the table is at most this one. */
  predicate AtMost(rows: Table, top: nat) {
    forall id :: id in rows ==> rows[id].ordinal <= top
  }

  function SavedProviders(providers: Providers, s: Session): Providers {
    (set e | e in providers && e.1 != s.id) + ProvidersOf(s)
  }

  /** A known session keeps its ordinal; a new one goes to the end. */
  lemma SaveKeepsIndex(rows: Table, providers: Providers, ss: seq<Session>, s: Session, ordinal: nat)
    requires Indexed(rows, providers, ss)
    requires if s.id in rows then ordinal == rows[s.id].ordinal
             else forall id :: id in rows ==> rows[id].ordinal < ordinal
    ensures Indexed(rows[s.id := RowOf(s, ordinal)], SavedProviders(providers, s), Put(ss, s))
  {
    var next := rows[s.id := RowOf(s, ordinal)];
    var out := Put(ss, s);
    HasAfterPut(ss, s, s.id);
    SavedRows(rows, providers, ss, s, ordinal);
    forall id | id in next ensures Has(out, id) {
      HasAfterPut(ss, s, id);
    }
    forall i, j | 0 <= i < j < |out| ensures next[out[i].id].ordinal < next[out[j].id].ordinal {
      SavedOrdinals(rows, providers, ss, s, ordinal, i, j);
    }
    forall p, id ensures (p, id) in SavedProviders(providers, s) <==> Has(out, id) && p in Get(out, id).totals {
      SavedPairs(providers, ss, s, p, id);
    }
  }

  lemma SavedPairs(providers: Providers, ss: seq<Session>, s: Session, p: string, id: string)
    requires UniqueIds(ss) && ((p, id) in providers <==> Has(ss, id) && p in Get(ss, id).totals)
    ensures (p, id) in SavedProviders(providers, s) <==> Has(Put(ss, s), id) && p in Get(Put(ss, s), id).totals
  {
    HasAfterPut(ss, s, id);
  }

  lemma SavedRows(rows: Table, providers: Providers, ss: seq<Session>, s: Session, ordinal: nat)
    requires Indexed(rows, providers, ss)
    requires s.id in rows ==> ordinal == rows[s.id].ordinal
    ensures var next, out := rows[s.id := RowOf(s, ordinal)], Put(ss, s);
            forall i :: 0 <= i < |out| ==>
              out[i].id in next && next[out[i].id] == RowOf(out[i], next[out[i].id].ordinal)
  {
    if Has(ss, s.id) {
      PutInPlace(ss, s);
    } else {
      PutAtEnd(ss, s);
    }
  }

  /** The ordinal of each session after saving. */
  lemma OrdinalAt(rows: Table, providers: Providers, ss: seq<Session>, s: Session, ordinal: nat, i: nat)
    requires Indexed(rows, providers, ss) && (s.id in rows ==> ordinal == rows[s.id].ordinal) && i < |Put(ss, s)|
    ensures var next, id := rows[s.id := RowOf(s, ordinal)], Put(ss, s)[i].id;
            && id in next
            && if i < |ss| then ss[i].id in rows && next[id].ordinal == rows[ss[i].id].ordinal
               else !Has(ss, s.id) && next[id].ordinal == ordinal
  {
    if Has(ss, s.id) {
      PutInPlace(ss, s);
      assert ss[IndexOf(ss, s.id)].id in rows && ss[i].id in rows && Put(ss, s)[i].id == ss[i].id;
    } else {
      PutAtEnd(ss, s);
      if i < |ss| {
        assert ss[i].id in rows && ss[i].id != s.id;
      }
    }
  }

  lemma SavedOrdinals(rows: Table, providers: Providers, ss: seq<Session>, s: Session, ordinal: nat, i: nat, j: nat)
    requires Indexed(rows, providers, ss)
    requires if s.id in rows then ordinal == rows[s.id].ordinal
             else forall id :: id in rows ==> rows[id].ordinal < ordinal
    requires i < j < |Put(ss, s)|
    ensures var next, out := rows[s.id := RowOf(s, ordinal)], Put(ss, s);
            out[i].id in next && out[j].id in next && next[out[i].id].ordinal < next[out[j].id].ordinal
  {
    OrdinalAt(rows, providers, ss, s, ordinal, i);
    OrdinalAt(rows, providers, ss, s, ordinal, j);
  }

  // ----------------------------------------------------------------- queries

  /** Rows in the order of their ordinals. */
  ghost predicate Ascending(rows: Table, out: seq<Session>) {
    && (forall i :: 0 <= i < |out| ==> out[i].id in rows)
    && (forall i, j :: 0 <= i < j < |out| ==> rows[out[i].id].ordinal < rows[out[j].id].ordinal)
  }

  /** The answer of a query: the data of the wanted rows, ordered by ordinal. */
  ghost predicate Answers(rows: Table, wanted: set<string>, out: seq<Session>) {
    && Ascending(rows, out)
    && forall s :: s in out <==> s.id in wanted && s.id in rows && s == rows[s.id].data
  }

  /** A query has one answer only. */
  lemma {:induction false} AnswerUnique(rows: Table, a: seq<Session>, b: seq<Session>)
    requires Ascending(rows, a) && Ascending(rows, b) && forall s :: s in a <==> s in b
    ensures a == b
    decreases |a|
  {
    if a == [] {
      if b != [] {
        SomeMember(b);
      }
    } else {
      assert a[|a| - 1] in b;
      var m, n := |a| - 1, |b| - 1;
      assert b[n] in a;
      assert a[m] == b[n];
      forall s ensures s in a[..m] <==> s in b[..n] {
        PrefixMembers(rows, a, s);
        PrefixMembers(rows, b, s);
      }
      AnswerUnique(rows, a[..m], b[..n]);
      assert a == a[..m] + [a[m]] && b == b[..n] + [b[n]];
    }
  }

  lemma SomeMember(b: seq<Session>)
    requires b != []
    ensures exists s :: s in b
  {
    assert b[0] in b;
  }

  lemma PrefixMembers(rows: Table, a: seq<Session>, s: Session)
    requires Ascending(rows, a) && a != []
    ensures s in a[..|a| - 1] <==> s in a && s != a[|a| - 1]
  {
    var n := |a| - 1;
    if s in a && s != a[n] {
      var i :| 0 <= i < |a| && a[i] == s;
      assert a[..n][i] == s;
    }
    if s in a[..n] {
      var i :| 0 <= i < n && a[..n][i] == s;
      assert a[i] == s;
    }
  }

  /** Inserts a row's data at its place. */
  method Insert(rows: Table, out: seq<Session>, s: Session) returns (next: seq<Session>)
    requires Ascending(rows, out) && s.id in rows
    requires forall i :: 0 <= i < |out| ==> rows[out[i].id].ordinal != rows[s.id].ordinal
    ensures Ascending(rows, next) && forall u :: u in next <==> u in out || u == s
  {
    var i := |out|;
    while i > 0 && rows[out[i - 1].id].ordinal > rows[s.id].ordinal
      invariant 0 <= i <= |out|
      invariant forall j :: i <= j < |out| ==> rows[out[j].id].ordinal > rows[s.id].ordinal
    {
      i := i - 1;
    }
    next := out[..i] + [s] + out[i..];
    InsertMembers(out, s, i);
    InsertAscends(rows, out, s, i);
  }

  lemma InsertAscends(rows: Table, out: seq<Session>, s: Session, i: nat)
    requires Ascending(rows, out) && s.id in rows && i <= |out|
    requires i > 0 ==> rows[out[i - 1].id].ordinal < rows[s.id].ordinal
    requires forall j :: i <= j < |out| ==> rows[out[j].id].ordinal > rows[s.id].ordinal
    ensures Ascending(rows, out[..i] + [s] + out[i..])
  {
    var next := out[..i] + [s] + out[i..];
    forall k | 0 <= k < |next| ensures next[k] == (if k < i then out[k] else if k == i then s else out[k - 1]) {
    }
    forall a, b | 0 <= a < b < |next| ensures rows[next[a].id].ordinal < rows[next[b].id].ordinal {
      if b == i {
        assert a < i - 1 ==> rows[out[a].id].ordinal < rows[out[i - 1].id].ordinal;
      }
    }
  }

  lemma InsertMembers(out: seq<Session>, s: Session, i: nat)
    requires i <= |out|
    ensures forall u :: u in out[..i] + [s] + out[i..] <==> u in out || u == s
  {
    assert out == out[..i] + out[i..];
  }

  /** SELECT data WHERE id IN wanted ORDER BY ordinal. */
  method Query(rows: Table, wanted: set<string>, ghost providers: Providers, ghost ss: seq<Session>)
    returns (out: seq<Session>)
    requires Indexed(rows, providers, ss)
    ensures Answers(rows, wanted, out)
  {
    out := [];
    var rest := wanted;
    while rest != {}
      invariant rest <= wanted && Ascending(rows, out)
      invariant forall s :: s in out <==> s.id in wanted - rest && s.id in rows && s == rows[s.id].data
      decreases |rest|
    {
      var id :| id in rest;
      if id in rows {
        RowFacts(rows, providers, ss, id);
        var s := rows[id].data;
        forall i | 0 <= i < |out| ensures rows[out[i].id].ordinal != rows[s.id].ordinal {
          assert out[i] in out;
          DistinctOrdinals(rows, providers, ss, out[i].id, id);
        }
        out := Insert(rows, out, s);
      }
      rest := rest - {id};
    }
  }

  lemma RowFacts(rows: Table, providers: Providers, ss: seq<Session>, id: string)
    requires Indexed(rows, providers, ss) && id in rows
    ensures Has(ss, id) && rows[id] == RowOf(Get(ss, id), rows[id].ordinal) && rows[id].data.id == id
  {
  }

  lemma DistinctOrdinals(rows: Table, providers: Providers, ss: seq<Session>, a: string, b: string)
    requires Indexed(rows, providers, ss) && a in rows && b in rows && a != b
    ensures rows[a].ordinal != rows[b].ordinal
  {
    var i, j := IndexOf(ss, a), IndexOf(ss, b);
    assert ss[i].id == a && ss[j].id == b;
  }

  /** A subsequence of the indexed sessions ascends. */
  ghost predicate Within(rows: Table, ss: seq<Session>, out: seq<Session>) {
    Ascending(rows, out) && forall s :: s in out ==> s in ss
  }

  lemma AscendingAppend(rows: Table, out: seq<Session>, ss: seq<Session>, n: nat)
    requires n < |ss| && Ascending(rows, ss) && Ascending(rows, out)
    requires forall s :: s in out ==> s in ss[..n]
    ensures Ascending(rows, out + [ss[n]])
  {
    forall i | 0 <= i < |out| ensures rows[out[i].id].ordinal < rows[ss[n].id].ordinal {
      assert out[i] in ss[..n];
      var k :| 0 <= k < n && ss[k] == out[i];
    }
  }

  lemma {:induction false} KeepAscends(rows: Table, ss: seq<Session>, n: nat, f: Filter)
    requires n <= |ss| && Ascending(rows, ss)
    ensures Ascending(rows, Keep(f, ss[..n]))
    ensures forall s :: s in Keep(f, ss[..n]) <==> s in ss[..n] && Matches(f, s)
  {
    if n > 0 {
      var k := n - 1;
      KeepAscends(rows, ss, k, f);
      assert ss[..n][..k] == ss[..k];
      assert ss[..n] == ss[..k] + [ss[k]];
      if Matches(f, ss[k]) {
        AscendingAppend(rows, Keep(f, ss[..k]), ss, k);
      }
    }
  }

  lemma {:induction false} RelatedAscends(rows: Table, ss: seq<Session>, n: nat, keys: set<string>, own: string)
    requires n <= |ss| && Ascending(rows, ss)
    ensures Ascending(rows, Related(ss[..n], keys, own))
    ensures forall s :: s in Related(ss[..n], keys, own) <==> s in ss[..n] && IsRelated(s, keys, own)
  {
    if n > 0 {
      var k := n - 1;
      RelatedAscends(rows, ss, k, keys, own);
      assert ss[..n] == ss[..k] + [ss[k]];
      RelatedConcat(ss[..k], [ss[k]], keys, own);
      if IsRelated(ss[k], keys, own) {
        assert Related([ss[k]], keys, own) == [ss[k]];
        AscendingAppend(rows, Related(ss[..k], keys, own), ss, k);
      } else {
        assert Related([ss[k]], keys, own) == [];
        assert Related(ss[..k], keys, own) + [] == Related(ss[..k], keys, own);
      }
    }
  }

  lemma MemberRows(rows: Table, providers: Providers, ss: seq<Session>, s: Session)
    requires Indexed(rows, providers, ss)
    ensures s in ss <==> s.id in rows && s == rows[s.id].data
  {
    if s in ss {
      var i :| 0 <= i < |ss| && ss[i] == s;
      assert ss[i].id in rows;
    }
    if s.id in rows && s == rows[s.id].data {
      RowFacts(rows, providers, ss, s.id);
      assert Get(ss, s.id) in ss;
    }
  }

  /** The columns of a row decide the same as the session itself. */
  predicate RowMatches(f: Filter, row: Row) {
    && (f.estimated ==> Estimated(row.data.provenance))
    && (f.active ==> row.status != Settled)
    && (f.settled ==> row.status == Settled)
    && (f.model.Some? ==> row.model == f.model.value)
    && (f.phase.Some? ==> row.phase == f.phase.value)
    && (f.positive ==> row.positive)
  }

  /** The filter query answers with the linear filter. */
  lemma FilterAnswer(rows: Table, providers: Providers, ss: seq<Session>, f: Filter, wanted: set<string>,
                     out: seq<Session>)
    requires Indexed(rows, providers, ss)
    requires wanted == set id | id in rows && RowMatches(f, rows[id])
    requires Answers(rows, wanted, out)
    ensures out == Keep(f, ss)
  {
    assert ss[..|ss|] == ss;
    KeepAscends(rows, ss, |ss|, f);
    forall s ensures s in out <==> s in Keep(f, ss) {
      MemberRows(rows, providers, ss, s);
      if s.id in rows {
        RowFacts(rows, providers, ss, s.id);
      }
    }
    AnswerUnique(rows, out, Keep(f, ss));
  }

  /** The provider query answers with the linear filter. */
  lemma RelatedAnswer(rows: Table, providers: Providers, ss: seq<Session>, keys: set<string>, own: string,
                      wanted: set<string>, out: seq<Session>)
    requires Indexed(rows, providers, ss)
    requires wanted == set id | id in rows && (id == own || (rows[id].resume.Some? && rows[id].resume.value in keys)
                                               || exists p :: p in keys && (p, id) in providers)
    requires Answers(rows, wanted, out)
    ensures out == Related(ss, keys, own)
  {
    assert ss[..|ss|] == ss;
    RelatedAscends(rows, ss, |ss|, keys, own);
    forall s ensures s in out <==> s in Related(ss, keys, own) {
      MemberRows(rows, providers, ss, s);
      if s.id in rows && s == rows[s.id].data {
        RowFacts(rows, providers, ss, s.id);
        SharesProvider(s, keys);
      }
    }
    AnswerUnique(rows, out, Related(ss, keys, own));
  }

  lemma SharesProvider(s: Session, keys: set<string>)
    ensures s.totals.Keys * keys != {} <==> exists p :: p in keys && p in s.totals
  {
    if p :| p in keys && p in s.totals {
      assert p in s.totals.Keys * keys;
    }
  }
}
