/** Recovery plans run the writers against private state. Sessions are shared objects:
    appending copies only those that it touches, so an earlier snapshot stays valid and
    a failed candidate is undone by taking the snapshot back. */
module RecoveryPlan {
  import opened Wrappers
  import opened Ledger
  import opened Receipts
  import opened Writers
  import opened Conservation
  import opened HonestWriters
  import opened LedgerProjection
  import opened PlanLaws

  class Cell {
    var session: Session

    constructor (s: Session)
      ensures session == s
    {
      session := s;
    }
  }

  /** The sessions that these events name. */
  function Touched(events: seq<Event>): set<string> {
    set i | 0 <= i < |events| && (events[i].Settle? || events[i].Correct? || events[i].Unresolve?) :: events[i].id
  }

  function Values(cells: seq<Cell>): (ss: seq<Session>)
    reads cells
    ensures |ss| == |cells| && forall i :: 0 <= i < |cells| ==> ss[i] == cells[i].session
  {
    seq(|cells|, i requires 0 <= i < |cells| reads cells => cells[i].session)
  }

  predicate Distinct(cells: seq<Cell>) {
    forall i, j :: 0 <= i < j < |cells| ==> cells[i] != cells[j]
  }

  /** The events settle, correct or hold sessions, and do nothing else. */
  predicate SettlementsOnly(events: seq<Event>) {
    forall i :: 0 <= i < |events| ==> NamesSession(events[i])
  }

  lemma {:induction false} AccrualsAside(events: seq<Event>)
    requires forall i :: 0 <= i < |events| ==> events[i].Accrue? || NamesSession(events[i])
    ensures SettlementsOnly(WithoutAccruals(events))
    decreases |events|
  {
    if events != [] {
      AccrualsAside(events[1..]);
    }
  }

  /** The collected events lead from the state before to these books, whenever they
      are written. */
  ghost predicate Leads(before: State, events: seq<Event>, after: State) {
    && TimelessAll(events)
    && SettlementsOnly(events)
    && forall stamp :: ApplyAll(before, events, stamp).Some? && SameBooks(after, ApplyAll(before, events, stamp).value)
  }

  lemma LeadsFurther(before: State, events: seq<Event>, mid: State, more: seq<Event>, stamp: real, after: State)
    requires Leads(before, events, mid) && TimelessAll(more)
    requires SettlementsOnly(WithoutAccruals(more))
    requires ApplyAll(mid, more, stamp).Some? && SameBooks(after, ApplyAll(mid, more, stamp).value)
    ensures Leads(before, events + WithoutAccruals(more), after)
  {
    WithoutTimeless(more);
    forall s ensures var out := ApplyAll(before, events + WithoutAccruals(more), s);
                     out.Some? && SameBooks(after, out.value)
    {
      var reached := ApplyAll(before, events, s).value;
      ReplaysSame(mid, reached, more, stamp, s);
      ApplyAllConcat(before, events, WithoutAccruals(more), s);
    }
  }

  lemma {:induction false} WithoutTimeless(events: seq<Event>)
    requires TimelessAll(events)
    ensures TimelessAll(WithoutAccruals(events))
    decreases |events|
  {
    if events != [] {
      WithoutTimeless(events[1..]);
    }
  }

  class Plan {
    var scalars: Scalars
    var cells: seq<Cell>
    var events: seq<Event>

    function Sessions(): seq<Session>
      reads this, cells
    {
      Values(cells)
    }

    function View(): State
      reads this, cells
    {
      StateOf(scalars, Sessions())
    }

    ghost predicate Valid()
      reads this, cells
    {
      Distinct(cells) && UniqueIds(Sessions())
    }

    constructor (st: State)
      requires UniqueIds(st.sessions)
      ensures Valid() && View() == st && events == [] && fresh(cells)
    {
      scalars, events := ScalarsOf(st), [];
      var made: seq<Cell> := [];
      for i := 0 to |st.sessions|
        invariant |made| == i && fresh(made) && Distinct(made)
        invariant forall j :: 0 <= j < i ==> made[j].session == st.sessions[j]
      {
        var cell := new Cell(st.sessions[i]);
        made := made + [cell];
      }
      cells := made;
      new;
      assert Sessions() == st.sessions;
    }

    /** Copies the cells of the named sessions; the others stay shared. */
    method Copied(names: set<string>) returns (working: seq<Cell>)
      requires Valid()
      ensures |working| == |cells| && Distinct(working) && Values(working) == Sessions()
      ensures forall i :: 0 <= i < |working| ==>
                if working[i].session.id in names then fresh(working[i]) else working[i] == cells[i]
    {
      working := [];
      for i := 0 to |cells|
        invariant |working| == i && Distinct(working)
        invariant forall j :: 0 <= j < i ==> working[j].session == cells[j].session
        invariant forall j :: 0 <= j < i ==>
                    if working[j].session.id in names then fresh(working[j]) else working[j] == cells[j]
      {
        if cells[i].session.id in names {
          var copy := new Cell(cells[i].session);
          working := working + [copy];
        } else {
          working := working + [cells[i]];
        }
      }
      assert Values(working) == Sessions();
    }

    /** Appends one record to the private state, without touching any shared session. */
    method Append(recorded: seq<Event>, stamp: real)
      requires Valid() && OfSessions(recorded, Sessions())
      modifies this
      ensures Valid()
      ensures ApplyRecord(old(View()), Record(old(scalars.number) + 1, stamp, DatedAll(recorded, old(Sessions()))))
              == Some(View())
      ensures events == old(events) + WithoutAccruals(DatedAll(recorded, old(Sessions())))
    {
      var all := DatedAll(recorded, Sessions());
      DatedNames(recorded, Sessions());
      var working := Rewritten(all, stamp);
      cells := working;
      events := events + WithoutAccruals(all);
    }

    /** New cells for the sessions that the events name, with the events replayed on them. */
    method Rewritten(all: seq<Event>, stamp: real) returns (working: seq<Cell>)
      requires Valid() && OfSessions(all, Sessions())
      modifies this`scalars
      ensures Distinct(working) && UniqueIds(Values(working))
      ensures ApplyRecord(old(View()), Record(old(scalars.number) + 1, stamp, all))
              == Some(StateOf(scalars, Values(working)))
    {
      ghost var begun := View();
      working := Copied(Touched(all));
      scalars := scalars.(number := scalars.number + 1);
      assert StateOf(scalars, Values(working)) == begun.(number := begun.number + 1);
      ReplayInPlace(working, all, stamp);
      SameIds(begun.sessions, Values(working));
      RecordApplied(begun, stamp, all, StateOf(scalars, Values(working)));
    }

    /** Replays the events on cells of which those that are named may be changed. */
    method ReplayInPlace(working: seq<Cell>, all: seq<Event>, stamp: real)
      requires Distinct(working) && UniqueIds(Values(working)) && OfSessions(all, Values(working))
      modifies this`scalars, set c | c in working && c.session.id in Touched(all)
      ensures ApplyAll(old(StateOf(scalars, Values(working))), all, stamp) == Some(StateOf(scalars, Values(working)))
      ensures forall i :: 0 <= i < |working| ==> working[i].session.id == old(working[i].session.id)
    {
      ghost var names := Touched(all);
      ghost var ids := Values(working);
      for j := 0 to |all|
        invariant forall i :: 0 <= i < |working| ==> working[i].session.id == ids[i].id
        invariant ApplyAll(StateOf(scalars, Values(working)), all[j..], stamp)
                  == ApplyAll(old(StateOf(scalars, Values(working))), all, stamp)
      {
        assert all[j..][1..] == all[j + 1..];
        SameIds(ids, Values(working));
        ApplyInPlace(working, all[j], names, stamp);
      }
    }

    /** Writes one cell. */
    method Rewrite(working: seq<Cell>, k: nat, s: Session)
      requires Distinct(working) && k < |working|
      modifies working[k]
      ensures Values(working) == old(Values(working))[k := s]
    {
      working[k].session := s;
      assert forall i :: 0 <= i < |working| && i != k ==> working[i] != working[k];
    }

    /** Applies one event by updating the cell of its session. */
    method ApplyInPlace(working: seq<Cell>, e: Event, ghost names: set<string>, stamp: real)
      requires Distinct(working) && UniqueIds(Values(working))
      requires e.Accrue? || (NamesSession(e) && Has(Values(working), e.id) && e.id in names)
      modifies this`scalars, set c | c in working && c.session.id in names
      ensures Apply(old(StateOf(scalars, Values(working))), e, stamp) == Some(StateOf(scalars, Values(working)))
      ensures forall i :: 0 <= i < |working| ==> working[i].session.id == old(working[i].session.id)
    {
      ghost var before := StateOf(scalars, Values(working));
      if e.Accrue? {
        scalars := Counted(scalars, e);
        assert Values(working) == before.sessions;
      } else {
        var k := IndexOf(Values(working), e.id);
        AppliedOne(scalars, before.sessions, e, stamp);
        scalars := Counted(scalars, e);
        Rewrite(working, k, Updated(working[k].session, e, stamp));
      }
    }
  }

  lemma RecordApplied(st: State, stamp: real, events: seq<Event>, out: State)
    requires ApplyAll(st.(number := st.number + 1), events, stamp) == Some(out)
    ensures ApplyRecord(st, Record(st.number + 1, stamp, events)) == Some(out)
  {
  }

  lemma DatedNames(events: seq<Event>, ss: seq<Session>)
    requires OfSessions(events, ss)
    ensures OfSessions(DatedAll(events, ss), ss)
  {
    forall i | 0 <= i < |events|
      ensures var d := DatedAll(events, ss)[i];
              (d.Accrue? || d.Settle? || d.Correct? || d.Unresolve?) && (!d.Accrue? ==> Has(ss, d.id))
    {
      assert DatedAll(events, ss)[i] == Dated(events[i], ss);
    }
  }

  lemma SameIds(a: seq<Session>, b: seq<Session>)
    requires |a| == |b| && forall i :: 0 <= i < |a| ==> a[i].id == b[i].id
    ensures UniqueIds(a) ==> UniqueIds(b)
    ensures forall id :: Has(a, id) ==> Has(b, id)
  {
    forall id | Has(a, id) ensures Has(b, id) {
      assert b[IndexOf(a, id)].id == id;
    }
  }

  /** An event of a recorded session replaces that session in place. */
  lemma AppliedOne(c: Scalars, ss: seq<Session>, e: Event, stamp: real)
    requires UniqueIds(ss) && NamesSession(e) && Has(ss, e.id)
    ensures var k := IndexOf(ss, e.id);
            Apply(StateOf(c, ss), e, stamp) == Some(StateOf(Counted(c, e), ss[k := Updated(ss[k], e, stamp)]))
  {
    var k := IndexOf(ss, e.id);
    var s := Updated(ss[k], e, stamp);
    KeepsId(ss[k], e, stamp);
    PutInPlace(ss, s);
    Replaced(StateOf(c, ss), e, s, stamp);
  }

  lemma KeepsId(s: Session, e: Event, stamp: real)
    requires NamesSession(e)
    ensures Updated(s, e, stamp).id == s.id
  {
  }

  lemma Replaced(st: State, e: Event, s: Session, stamp: real)
    requires NamesSession(e) && Has(st.sessions, e.id) && s == Updated(Get(st.sessions, e.id), e, stamp)
    ensures Apply(st, e, stamp) == Some(StateOf(Counted(ScalarsOf(st), e), Put(st.sessions, s)))
  {
  }
}
