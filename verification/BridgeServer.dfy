/** The bridge's server thread: it answers the waiting requests one after the other and
    sweeps replies whose requests are gone. Every pass is a run of the protocol. */
module BridgeServer {
  import opened Wrappers
  import opened BridgeProtocol

  lemma RunAppend(w: World, moves: seq<Move>, move: Move)
    ensures Run(w, moves + [move]) == Next(Run(w, moves), move)
  {
    assert (moves + [move])[..|moves|] == moves;
  }

  /** Only the server acts. */
  lemma RunTwice(w: World, moves: seq<Move>, a: Move, b: Move)
    ensures Run(w, moves + [a, b]) == Next(Next(Run(w, moves), a), b)
  {
    assert moves + [a, b] == (moves + [a]) + [b];
    RunAppend(w, moves + [a], b);
    RunAppend(w, moves, a);
  }

  predicate ByServer(moves: seq<Move>) {
    forall i :: 0 <= i < |moves| ==> moves[i].Serve? || moves[i].Spoil? || moves[i].Reply? || moves[i].Sweep?
  }

  class Context {
    var inbox: map<Message, Ticket>
    var outbox: map<Message, Answer>
    var ids: map<Ticket, Invocation>
    var admitted: seq<Invocation>
    var nextInvocation: nat

    constructor (inbox: map<Message, Ticket>)
      ensures this.inbox == inbox && outbox == map[] && ids == map[] && admitted == [] && nextInvocation == 0
    {
      this.inbox, outbox, ids, admitted, nextInvocation := inbox, map[], map[], [], 0;
    }

    /** The files and the memory of the server are those of the protocol's world. */
    ghost predicate Shows(w: World)
      reads this
    {
      && inbox == w.requests && outbox == w.replies && ids == w.ids
      && admitted == w.admitted && nextInvocation == w.nextInvocation
      && w.pending.None?
    }

    /** Answers one request: the invocation of a ticket is made up once and admitted once. */
    method Handle(ticket: Ticket, v: Verdict, ghost w: World) returns (answer: Answer)
      requires Shows(w)
      modifies this`ids, this`admitted, this`nextInvocation
      ensures answer == Handled(w, ticket, v).1
      ensures Shows(Handled(w, ticket, v).0)
    {
      if !v.capacity {
        return Wait;
      }
      if ticket !in ids {
        ids := ids[ticket := nextInvocation];
        nextInvocation := nextInvocation + 1;
      }
      var id := ids[ticket];
      if id in admitted {
        return Error;
      }
      if !v.funded {
        return Wait;
      }
      admitted := admitted + [id];
      answer := if v.fault then Error else Allowed(id);
    }

    /** Answers one message that has no reply yet. A request that cannot be read, or is
        gone by now, is answered with an error; `written` says whether the write succeeds. */
    method Answering(m: Message, v: Verdict, unreadable: bool, written: bool, ghost w: World)
      returns (ghost next: World)
      requires Shows(w) && m !in outbox
      modifies this`outbox, this`ids, this`admitted, this`nextInvocation
      ensures Shows(next) && outbox.Keys == old(outbox).Keys + (if written then {m} else {})
      ensures next == Next(Next(w, if m in inbox && !unreadable then Serve(m, v) else Spoil(m)), Reply(written))
    {
      var answer := Error;
      if m in inbox && !unreadable {
        answer := Handle(inbox[m], v, w);
      }
      next := Next(Next(w, if m in inbox && !unreadable then Serve(m, v) else Spoil(m)), Reply(written));
      if written {
        outbox := outbox[m := answer];
      }
    }

    /** One pass over the inbox and the outbox. */
    method Pass(order: seq<Message>, replied: seq<Message>, verdicts: map<Message, Verdict>,
                unreadable: set<Message>, written: set<Message>, ghost w: World)
      returns (ghost moves: seq<Move>)
      requires Shows(w) && forall m :: m in order ==> m in verdicts
      modifies this
      ensures Shows(Run(w, moves)) && ByServer(moves)
      ensures inbox == old(inbox)
      ensures forall m :: m in order && m in inbox && m in written ==> m in outbox
      ensures forall m :: m in replied && m in outbox ==> m in inbox
    {
      moves := [];
      ghost var now := w;
      for i := 0 to |order|
        invariant Shows(now) && now == Run(w, moves) && ByServer(moves) && inbox == old(inbox)
        invariant forall j :: 0 <= j < i && order[j] in written ==> order[j] in outbox
      {
        var m := order[i];
        if m !in outbox {
          ghost var move := if m in inbox && m !in unreadable then Serve(m, verdicts[m]) else Spoil(m);
          RunTwice(w, moves, move, Reply(m in written));
          now := Answering(m, verdicts[m], m in unreadable, m in written, now);
          moves := moves + [move, Reply(m in written)];
        }
      }
      for i := 0 to |replied|
        invariant Shows(now) && now == Run(w, moves) && ByServer(moves) && inbox == old(inbox)
        invariant forall j :: 0 <= j < |order| && order[j] in inbox && order[j] in written ==> order[j] in outbox
        invariant forall j :: 0 <= j < i && replied[j] in outbox ==> replied[j] in inbox
      {
        var m := replied[i];
        RunAppend(w, moves, Sweep(m));
        now, moves := Next(now, Sweep(m)), moves + [Sweep(m)];
        if m !in inbox {
          outbox := outbox - {m};
        }
      }
    }
  }
}
