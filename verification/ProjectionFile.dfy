/** The projection file: tables that are brought up to date from the ledger, record by
    record, and thrown away when they do not belong to it. */
module LedgerProjection {
  import opened Wrappers
  import opened Ledger
  import opened Selection
  import opened RelatedRows
  import opened SessionIndex
  import StateBooks

  /** The ledger file: which file it is, its records, and when it was last written. */
  datatype LedgerFile = LedgerFile(identity: nat, records: seq<Record>, modified: int)

  /** Everything of a state but its sessions. */
  datatype Scalars = Scalars(
    balance: real,
    rate: real,
    spent: real,
    watermark: real,
    waiting: map<string, Waiting>,
    cooldowns: map<string, real>,
    number: nat)

  function StateOf(c: Scalars, ss: seq<Session>): State {
    State(c.balance, c.rate, c.spent, c.watermark, ss, c.waiting, c.cooldowns, c.number)
  }

  function ScalarsOf(st: State): Scalars {
    Scalars(st.balance, st.rate, st.spent, st.watermark, st.waiting, st.cooldowns, st.number)
  }

  /** What the projection remembers of the ledger it was built from. */
  datatype Meta = Meta(identity: nat, offset: nat, anchor: int, modified: int, scalars: Scalars)

  const FRESH := ScalarsOf(EMPTY)

  /** The tables and the remembered scalars are the replay of the first n records. */
  ghost predicate Represents(rows: Table, providers: Providers, c: Scalars, records: seq<Record>, n: nat) {
    && n <= |records|
    && Replay(records[..n]).Some?
    && c == ScalarsOf(Replay(records[..n]).value)
    && Indexed(rows, providers, Replay(records[..n]).value.sessions)
  }

  /** A projection that was built from this very file represents a prefix of it. */
  ghost predicate FaithfulTo(rows: Table, providers: Providers, meta: Option<Meta>, file: LedgerFile) {
    meta.Some? && meta.value.identity == file.identity ==>
      Represents(rows, providers, meta.value.scalars, file.records, meta.value.offset)
  }

  /** Writers only append to the ledger file. */
  lemma AppendStaysFaithful(rows: Table, providers: Providers, meta: Option<Meta>, file: LedgerFile, rec: Record,
                            now: int)
    requires FaithfulTo(rows, providers, meta, file)
    ensures FaithfulTo(rows, providers, meta, LedgerFile(file.identity, file.records + [rec], now))
  {
    if meta.Some? && meta.value.identity == file.identity {
      assert (file.records + [rec])[..meta.value.offset] == file.records[..meta.value.offset];
    }
  }

  /** What happens to the ledger between two loads: writers append, and a repair puts
      another file in its place. */
  datatype Change = Appended(rec: Record, now: int) | Replaced(next: LedgerFile)

  function Changed(file: LedgerFile, changes: seq<Change>): LedgerFile {
    if changes == [] then file
    else
      var n := |changes| - 1;
      var before := Changed(file, changes[..n]);
      match changes[n]
      case Appended(rec, now) => LedgerFile(before.identity, before.records + [rec], now)
      case Replaced(next) => next
  }

  /** A projection that belongs to a ledger still belongs to it after any appends and
      repairs, as long as a repair does not reuse the identity that it remembers. */
  lemma {:induction false} ChangesStayFaithful(rows: Table, providers: Providers, meta: Option<Meta>, file: LedgerFile,
                                               changes: seq<Change>)
    requires FaithfulTo(rows, providers, meta, file)
    requires forall i :: 0 <= i < |changes| && changes[i].Replaced? && meta.Some? ==>
               changes[i].next.identity != meta.value.identity
    ensures FaithfulTo(rows, providers, meta, Changed(file, changes))
  {
    if changes != [] {
      var n := |changes| - 1;
      ChangesStayFaithful(rows, providers, meta, file, changes[..n]);
      if changes[n].Appended? {
        AppendStaysFaithful(rows, providers, meta, Changed(file, changes[..n]), changes[n].rec, changes[n].now);
      }
    }
  }

  predicate NamesSession(e: Event) {
    e.Settle? || e.Correct? || e.Unresolve?
  }

  function Updated(s: Session, e: Event, stamp: real): Session
    requires NamesSession(e)
  {
    if e.Settle? then Settling(s, e, stamp) else if e.Correct? then Correcting(s, e) else Unresolving(s, e)
  }

  /** What an event does to everything but the sessions. */
  function Counted(c: Scalars, e: Event): Scalars {
    match e
    case Accrue(amount, w) => c.(balance := c.balance + amount, watermark := w)
    case Grant(delta) => c.(balance := c.balance + delta)
    case Adjust(delta) => c.(balance := c.balance + delta)
    case SetRate(rate) => c.(rate := rate)
    case Wait(w) => c.(waiting := c.waiting[w.worker := w])
    case Admit(s) => c.(waiting := c.waiting - {s.worker})
    case Settle(_, cost, _, _, _, _, _) => c.(balance := c.balance - cost, spent := c.spent + cost)
    case Correct(_, delta, _, _, _, _) => c.(balance := c.balance + delta, spent := c.spent - delta)
    case Unresolve(_, _, _, _) => c
    case Cooldown(model, until) => c.(cooldowns := c.cooldowns[model := until])
  }

  /** The sessions after an event. */
  function SessionsAfter(ss: seq<Session>, e: Event, stamp: real): seq<Session>
    requires NamesSession(e) ==> Has(ss, e.id)
  {
    if NamesSession(e) then Put(ss, Updated(Get(ss, e.id), e, stamp))
    else if e.Admit? then Put(ss, e.session)
    else ss
  }

  lemma AppliedSession(st: State, e: Event, stamp: real)
    requires NamesSession(e) && Has(st.sessions, e.id)
    ensures Apply(st, e, stamp) == Some(StateOf(Counted(ScalarsOf(st), e), SessionsAfter(st.sessions, e, stamp)))
  {
  }

  /** An event changes the scalars and at most one session, each on its own. */
  lemma Applied(st: State, e: Event, stamp: real)
    requires NamesSession(e) ==> Has(st.sessions, e.id)
    ensures Apply(st, e, stamp) == Some(StateOf(Counted(ScalarsOf(st), e), SessionsAfter(st.sessions, e, stamp)))
  {
    if NamesSession(e) {
      AppliedSession(st, e, stamp);
    }
  }

  lemma NextRecord(records: seq<Record>, n: nat, c: Scalars)
    requires n < |records| && Replay(records[..n]).Some? && c == ScalarsOf(Replay(records[..n]).value)
    ensures StateOf(c, Replay(records[..n]).value.sessions) == Replay(records[..n]).value
    ensures Replay(records[..n + 1]) == ApplyRecord(Replay(records[..n]).value, records[n])
  {
    assert records[..n + 1] == records[..n] + [records[n]];
    ReplayAppend(records[..n], records[n]);
  }

  /** Taking rows from the end by a limit is slicing, unless the limit is zero. */
  lemma LastByLimit(rows: seq<Session>, limit: nat, n: nat)
    requires n == if limit < |rows| then limit else |rows|
    ensures rows[|rows| - n..] == LastRows(rows, Some(limit)) <==> (limit != 0 || rows == [])
  {
  }

  class Projection {
    var rows: Table
    var providers: Providers
    var meta: Option<Meta>
    var scalars: Scalars
    var changed: seq<Session>
    const hash: seq<Record> -> int

    constructor (hash: seq<Record> -> int)
      ensures forall file :: FaithfulTo(rows, providers, meta, file)
    {
      rows, providers, meta, scalars, changed := map[], {}, None, FRESH, [];
      this.hash := hash;
    }

    /** The state while records are applied: the tables under the overlay. */
    ghost function View(ss: seq<Session>): State
      reads this
    {
      StateOf(scalars, Overlay(ss, changed))
    }

    ghost predicate Tracks(ss: seq<Session>)
      reads this
    {
      Indexed(rows, providers, ss) && UniqueIds(changed)
    }

    // -------------------------------------------------------------- sessions

    /** Reads a session, and keeps it in the overlay. */
    method GetItem(id: string, ghost ss: seq<Session>) returns (found: Option<Session>)
      requires Tracks(ss)
      modifies this`changed
      ensures Tracks(ss) && View(ss) == old(View(ss))
      ensures found == if Has(View(ss).sessions, id) then Some(Get(View(ss).sessions, id)) else None
    {
      OverlayGet(ss, changed, id);
      if Has(changed, id) {
        return Some(Get(changed, id));
      }
      if id !in rows {
        assert forall i :: 0 <= i < |ss| ==> ss[i].id in rows;
        return None;
      }
      RowFacts(rows, providers, ss, id);
      CacheInOverlay(ss, changed, id);
      found := Some(rows[id].data);
      changed := changed + [rows[id].data];
    }

    method SetItem(s: Session, ghost ss: seq<Session>)
      requires Tracks(ss)
      modifies this`changed
      ensures Tracks(ss) && View(ss) == old(View(ss)).(sessions := Put(old(View(ss)).sessions, s))
    {
      WriteInOverlay(ss, changed, s);
      changed := Put(changed, s);
    }

    /** The largest ordinal in the table, zero when it is empty. */
    method MaxOrdinal() returns (top: nat)
      ensures AtMost(rows, top)
    {
      top := 0;
      var rest := rows.Keys;
      while rest != {}
        invariant rest <= rows.Keys
        invariant forall id :: id in rows && id !in rest ==> rows[id].ordinal <= top
        decreases |rest|
      {
        var id :| id in rest;
        if rows[id].ordinal > top {
          top := rows[id].ordinal;
        }
        rest := rest - {id};
      }
    }

    /** Writes the overlay into the tables. */
    method Save(ghost ss: seq<Session>)
      requires Tracks(ss)
      modifies this`rows, this`providers, this`changed
      ensures changed == [] && Tracks(old(View(ss)).sessions)
      ensures View(old(View(ss)).sessions) == old(View(ss))
    {
      for i := 0 to |changed|
        invariant changed == old(changed)
        invariant Indexed(rows, providers, Overlay(ss, changed[..i]))
      {
        var s := changed[i];
        assert changed[..i + 1] == changed[..i] + [s];
        OverlayAppend(ss, changed[..i], s);
        var ordinal := 0;
        if s.id in rows {
          ordinal := rows[s.id].ordinal;
        } else {
          var top := MaxOrdinal();
          ordinal := top + 1;
        }
        SaveKeepsIndex(rows, providers, Overlay(ss, changed[..i]), s, ordinal);
        rows := rows[s.id := RowOf(s, ordinal)];
        providers := SavedProviders(providers, s);
      }
      assert changed[..|changed|] == changed;
      changed := [];
    }

    /** The filtered sessions, the last ones only when a limit is given. A limit of zero
        selects nothing here, where slicing a list keeps every matching session; the two
        agree exactly when there is no such limit or nothing matches. */
    method Select(f: Filter, ghost ss: seq<Session>) returns (selected: seq<Session>)
      requires Tracks(ss)
      ensures f.limit == Some(0) ==> selected == []
      ensures selected == Selection.Select(ss, f) <==> (f.limit != Some(0) || Keep(f, ss) == [])
    {
      var wanted := set id | id in rows && RowMatches(f, rows[id]);
      var all := Query(rows, wanted, providers, ss);
      FilterAnswer(rows, providers, ss, f, wanted, all);
      if f.limit.None? {
        return all;
      }
      // The last rows by descending ordinal, put back in order.
      var n := if f.limit.value < |all| then f.limit.value else |all|;
      LastByLimit(all, f.limit.value, n);
      return all[|all| - n..];
    }

    method RelatedTo(keys: set<string>, own: string, ghost ss: seq<Session>) returns (related: seq<Session>)
      requires Tracks(ss)
      ensures related == Related(ss, keys, own)
    {
      var wanted := set id | id in rows && (id == own || (rows[id].resume.Some? && rows[id].resume.value in keys)
                                            || exists p :: p in keys && (p, id) in providers);
      related := Query(rows, wanted, providers, ss);
      RelatedAnswer(rows, providers, ss, keys, own, wanted, related);
    }

    // --------------------------------------------------------------- loading

    /** Replaces the session that an event names; fails when it was never admitted. */
    method Change(e: Event, stamp: real, ghost ss: seq<Session>) returns (ok: bool)
      requires Tracks(ss) && NamesSession(e)
      modifies this`changed
      ensures Tracks(ss)
      ensures ok <==> Has(old(View(ss)).sessions, e.id)
      ensures ok ==> View(ss) == old(View(ss)).(sessions := Put(old(View(ss)).sessions,
                                                                Updated(Get(old(View(ss)).sessions, e.id), e, stamp)))
      ensures !ok ==> View(ss) == old(View(ss))
    {
      var s := GetItem(e.id, ss);
      if s.None? {
        return false;
      }
      SetItem(Updated(s.value, e, stamp), ss);
      return true;
    }

    /** Applies one event to the scalars and to the overlay. */
    method ApplyEvent(e: Event, stamp: real, ghost ss: seq<Session>) returns (ok: bool)
      requires Tracks(ss)
      modifies this`scalars, this`changed
      ensures Tracks(ss)
      ensures ok <==> Apply(old(View(ss)), e, stamp).Some?
      ensures ok ==> View(ss) == Apply(old(View(ss)), e, stamp).value
    {
      ghost var before := View(ss);
      ok := true;
      if NamesSession(e) {
        ok := Change(e, stamp, ss);
      } else if e.Admit? {
        SetItem(e.session, ss);
      }
      if ok {
        scalars := Counted(scalars, e);
        Applied(before, e, stamp);
      }
    }

    method ApplyIndexed(rec: Record, ghost ss: seq<Session>) returns (ok: bool)
      requires Tracks(ss) && changed == []
      modifies this`scalars, this`changed, this`rows, this`providers
      ensures ok <==> ApplyRecord(old(StateOf(scalars, ss)), rec).Some?
      ensures ok ==>
                && changed == []
                && Tracks(ApplyRecord(old(StateOf(scalars, ss)), rec).value.sessions)
                && scalars == ScalarsOf(ApplyRecord(old(StateOf(scalars, ss)), rec).value)
    {
      assert View(ss) == StateOf(scalars, ss);
      if rec.number != scalars.number + 1 {
        return false;
      }
      scalars := scalars.(number := rec.number);
      ok := true;
      for j := 0 to |rec.events|
        invariant Tracks(ss) && rows == old(rows) && providers == old(providers)
        invariant ApplyAll(View(ss), rec.events[j..], rec.stamp) == ApplyRecord(old(StateOf(scalars, ss)), rec)
      {
        assert rec.events[j..][1..] == rec.events[j + 1..];
        ok := ApplyEvent(rec.events[j], rec.stamp, ss);
        if !ok {
          return;
        }
      }
      Save(ss);
    }

    /** Whether the projection was built from this file, as far as it can tell. */
    predicate Accepts(file: LedgerFile)
      reads this
    {
      && meta.Some?
      && meta.value.identity == file.identity
      && meta.value.offset <= |file.records|
      && hash(file.records[..meta.value.offset]) == meta.value.anchor
      && (meta.value.offset == |file.records| ==> meta.value.modified == file.modified)
    }

    /** Applies the records from the n-th one on; fails on the first damaged one. */
    method CatchUp(records: seq<Record>, n: nat) returns (ok: bool)
      requires changed == [] && Represents(rows, providers, scalars, records, n)
      modifies this`scalars, this`changed, this`rows, this`providers
      ensures ok <==> Replay(records).Some?
      ensures ok ==> changed == [] && Represents(rows, providers, scalars, records, |records|)
    {
      for i := n to |records|
        invariant changed == [] && Represents(rows, providers, scalars, records, i)
      {
        ghost var st := Replay(records[..i]).value;
        NextRecord(records, i, scalars);
        ok := ApplyIndexed(records[i], st.sessions);
        if !ok {
          StateBooks.BrokenPrefix(records, i + 1);
          return;
        }
        assert Represents(rows, providers, scalars, records, i + 1);
      }
      assert records[..|records|] == records;
      ok := true;
    }

    /** Brings the tables up to date; on a damaged ledger everything is rolled back. */
    method Update(file: LedgerFile) returns (ok: bool)
      requires FaithfulTo(rows, providers, meta, file)
      modifies this
      ensures ok <==> Replay(file.records).Some?
      ensures ok ==> FaithfulTo(rows, providers, meta, file)
      ensures ok ==> changed == [] && Represents(rows, providers, scalars, file.records, |file.records|)
      ensures !ok ==> rows == old(rows) && providers == old(providers) && meta == old(meta)
    {
      var before := (rows, providers);
      var n := 0;
      changed := [];
      if Accepts(file) {
        n, scalars := meta.value.offset, meta.value.scalars;
      } else {
        rows, providers, scalars := map[], {}, FRESH;
      }
      ok := CatchUp(file.records, n);
      if !ok {
        rows, providers := before.0, before.1;
        return;
      }
      n := |file.records|;
      meta := Some(Meta(file.identity, n, hash(file.records[..n]), file.modified, scalars));
    }

    /** Loads the state of the ledger. After an error the file is deleted and rebuilt. */
    method Load(file: LedgerFile) returns (ok: bool)
      requires FaithfulTo(rows, providers, meta, file)
      modifies this
      ensures FaithfulTo(rows, providers, meta, file)
      ensures ok <==> Replay(file.records).Some?
      ensures ok ==> changed == [] && Represents(rows, providers, scalars, file.records, |file.records|)
    {
      ok := Update(file);
      if !ok {
        rows, providers, meta := map[], {}, None;
        ok := Update(file);
      }
    }
  }
}
