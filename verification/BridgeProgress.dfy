/** What the server's answers mean, and that an allowed client really launches: an admission
    that was answered is not lost, whatever the other parties do in between. */
module BridgeProgress {
  import opened Wrappers
  import opened BridgeProtocol
  import opened BridgeInvariant
  import opened BridgeSafety
  import BridgeServer

  /** The identity of the ticket was admitted already. */
  predicate AdmittedBefore(w: World, ticket: Ticket) {
    ticket in w.ids && w.ids[ticket] in w.admitted
  }

  /** Exactly when a request is allowed, told to wait or refused: with capacity and funds
      the first request of a ticket is allowed unless something fails; waiting admits
      nothing; and without a failure only a ticket admitted before is refused. */
  lemma AnswerMeans(w: World, ticket: Ticket, v: Verdict)
    requires Inv(w)
    ensures var (next, answer) := Handled(w, ticket, v);
            && (answer.Allowed? <==> v.capacity && v.funded && !v.fault && !AdmittedBefore(w, ticket))
            && (answer.Wait? <==> !v.capacity || (!v.funded && !AdmittedBefore(w, ticket)))
            && (answer.Allowed? ==> next.admitted == w.admitted + [answer.id])
            && (answer.Wait? ==> next.admitted == w.admitted)
            && (answer.Error? && !v.fault ==> AdmittedBefore(w, ticket) && next.admitted == w.admitted)
            && next.requests == w.requests && next.replies == w.replies && next.clients == w.clients
  {
    var named := Identified(w, ticket);
    assert AdmittedOnce(w) && IdsDistinct(w);
  }

  /** The client waits for the reply to m, and the request is there. */
  predicate Asking(w: World, ticket: Ticket, m: Message) {
    ticket in w.clients && w.clients[ticket] == Waiting(m) && m in w.requests
  }

  /** The client's allowed reply is being written or is there. */
  predicate Answered(w: World, ticket: Ticket, m: Message, id: Invocation) {
    && Asking(w, ticket, m)
    && (if m in w.replies then w.replies[m] == Allowed(id) && (w.pending.Some? ==> w.pending.value.0 != m)
        else w.pending == Some((m, Allowed(id))))
  }

  /** Serving the request of a client whose ticket is new allows it. */
  lemma ServeAllows(w: World, ticket: Ticket, m: Message) returns (id: Invocation)
    requires Inv(w) && Asking(w, ticket, m) && m !in w.replies && w.pending.None? && !AdmittedBefore(w, ticket)
    ensures var next := Next(w, Serve(m, Verdict(true, true, false)));
            Answered(next, ticket, m, id) && next.admitted == w.admitted + [id]
  {
    assert ClientBacked(w, ticket, w.clients[ticket]);
    assert w.requests[m] == ticket;
    AnswerMeans(w, ticket, Verdict(true, true, false));
    id := Handled(w, ticket, Verdict(true, true, false)).1.id;
  }

  /** The client itself acts, or the write of its reply fails. */
  predicate Disturbs(w: World, move: Move, ticket: Ticket, m: Message) {
    match move
    case Receive(t) => t == ticket
    case Finish(t) => t == ticket
    case GiveUp(t) => t == ticket
    case Reply(ok) => !ok && w.pending.Some? && w.pending.value.0 == m
    case _ => false
  }

  /** No other move takes the allowed reply away. */
  lemma StaysAnswered(w: World, move: Move, ticket: Ticket, m: Message, id: Invocation)
    requires Inv(w) && Answered(w, ticket, m, id) && !Disturbs(w, move, ticket, m)
    ensures Answered(Next(w, move), ticket, m, id)
  {
    assert ClientBacked(w, ticket, w.clients[ticket]);
    assert m in w.tickets && m < w.nextMessage;
    match move
    case Finish(t) =>
      if t in w.clients && w.clients[t].Read? {
        assert ClientBacked(w, t, w.clients[t]);
      }
    case _ =>
  }

  predicate Undisturbed(w: World, moves: seq<Move>, ticket: Ticket, m: Message) {
    moves == [] ||
    (&& Undisturbed(w, moves[..|moves| - 1], ticket, m)
     && !Disturbs(Run(w, moves[..|moves| - 1]), moves[|moves| - 1], ticket, m))
  }

  lemma {:induction false} RunStaysAnswered(w: World, moves: seq<Move>, ticket: Ticket, m: Message, id: Invocation)
    requires Inv(w) && Answered(w, ticket, m, id) && Undisturbed(w, moves, ticket, m)
    ensures Inv(Run(w, moves)) && Answered(Run(w, moves), ticket, m, id)
    decreases |moves|
  {
    if moves != [] {
      var init, last := moves[..|moves| - 1], moves[|moves| - 1];
      RunStaysAnswered(w, init, ticket, m, id);
      StaysAnswered(Run(w, init), last, ticket, m, id);
      NextKeeps(Run(w, init), last);
    }
  }

  /** A client that reads its allowed reply launches under the admitted identity. */
  lemma ReadsAndLaunches(w: World, ticket: Ticket, m: Message, id: Invocation)
    requires Answered(w, ticket, m, id) && m in w.replies
    ensures var done := Next(Next(w, Receive(ticket)), Finish(ticket));
            && ticket in done.clients && done.clients[ticket] == Launched(id)
            && (ticket, id) in done.launches && m !in done.requests && done.admitted == w.admitted
  {
    var read := Next(w, Receive(ticket));
    assert read.clients[ticket] == Read(m, Allowed(id));
    var done := Next(read, Finish(ticket));
    assert done.launches == w.launches + [(ticket, id)];
    assert done.launches[|w.launches|] == (ticket, id);
  }

  /** Whatever was done before, a client that is waiting with a new ticket launches once the
      server serves it with capacity and funds and the reply is written, however the other
      parties act in between, and once it reads the reply: under the identity that the
      ledger admitted for it at that serving. */
  lemma AllowedLaunches(before: seq<Move>, ticket: Ticket, m: Message, others: seq<Move>) returns (id: Invocation)
    requires var w := Run(EMPTY, before);
             Asking(w, ticket, m) && m !in w.replies && w.pending.None? && !AdmittedBefore(w, ticket)
    requires var served := Next(Run(EMPTY, before), Serve(m, Verdict(true, true, false)));
             Undisturbed(served, others, ticket, m) && m in Run(served, others).replies
    ensures var w := Run(EMPTY, before);
            var served := Next(w, Serve(m, Verdict(true, true, false)));
            var done := Next(Next(Run(served, others), Receive(ticket)), Finish(ticket));
            && served.admitted == w.admitted + [id]
            && ticket in done.clients && done.clients[ticket] == Launched(id) && (ticket, id) in done.launches
  {
    var w := Run(EMPTY, before);
    Reachable(before);
    id := ServeAllows(w, ticket, m);
    var served := Next(w, Serve(m, Verdict(true, true, false)));
    NextKeeps(w, Serve(m, Verdict(true, true, false)));
    RunStaysAnswered(served, others, ticket, m, id);
    ReadsAndLaunches(Run(served, others), ticket, m, id);
  }

  /** Serving, writing the reply, reading it and finishing, one after the other. */
  lemma ServedLaunches(before: seq<Move>, ticket: Ticket, m: Message) returns (id: Invocation)
    requires var w := Run(EMPTY, before);
             Asking(w, ticket, m) && m !in w.replies && w.pending.None? && !AdmittedBefore(w, ticket)
    ensures var w := Run(EMPTY, before);
            var done := Run(w, [Serve(m, Verdict(true, true, false)), Reply(true), Receive(ticket), Finish(ticket)]);
            && done.admitted == w.admitted + [id]
            && ticket in done.clients && done.clients[ticket] == Launched(id) && (ticket, id) in done.launches
  {
    var w, serve := Run(EMPTY, before), Serve(m, Verdict(true, true, false));
    Reachable(before);
    id := ServeAllows(w, ticket, m);
    var served := Next(w, serve);
    NextKeeps(w, serve);
    StaysAnswered(served, Reply(true), ticket, m, id);
    ReadsAndLaunches(Next(served, Reply(true)), ticket, m, id);
    assert [serve, Reply(true), Receive(ticket), Finish(ticket)]
        == ([] + [serve, Reply(true)]) + [Receive(ticket), Finish(ticket)];
    BridgeServer.RunTwice(w, [], serve, Reply(true));
    BridgeServer.RunTwice(w, [] + [serve, Reply(true)], Receive(ticket), Finish(ticket));
    assert Run(w, []) == w;
  }
}
