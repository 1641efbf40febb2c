/** The accounting bridge: clients ask for admission through request files, one server
    thread answers through reply files, and any reply write may fail. */
module BridgeProtocol {
  import opened Wrappers

  type Ticket = nat
  type Message = nat
  type Invocation = nat

  datatype Answer = Allowed(id: Invocation) | Wait | Error

  /** A client process: it asks once, reads one reply, and then launches or stops. */
  datatype Client =
    | Waiting(message: Message)
    | Read(message: Message, answer: Answer)
    | Launched(id: Invocation)
    | Stopped

  datatype World = World(
    requests: map<Message, Ticket>,
    replies: map<Message, Answer>,
    pending: Option<(Message, Answer)>,
    ids: map<Ticket, Invocation>,
    admitted: seq<Invocation>,
    clients: map<Ticket, Client>,
    launches: seq<(Ticket, Invocation)>,
    tickets: map<Message, Ticket>,
    nextMessage: nat,
    nextInvocation: nat)

  const EMPTY := World(map[], map[], None, map[], [], map[], [], map[], 0, 0)

  /** What the host decides while a request is handled: whether the fleet has capacity,
      whether the ledger lets this session in, and whether anything fails after that. */
  datatype Verdict = Verdict(capacity: bool, funded: bool, fault: bool)

  /** The identity of a ticket's invocation, generated once. */
  function Identified(w: World, ticket: Ticket): World {
    if ticket in w.ids then w
    else w.(ids := w.ids[ticket := w.nextInvocation], nextInvocation := w.nextInvocation + 1)
  }

  /** The ledger admits an identity once; a second attempt is an error. */
  function Handled(w: World, ticket: Ticket, v: Verdict): (World, Answer) {
    if !v.capacity then (w, Wait)
    else
      var named := Identified(w, ticket);
      var id := named.ids[ticket];
      if id in named.admitted then (named, Error)
      else if !v.funded then (named, Wait)
      else (named.(admitted := named.admitted + [id]), if v.fault then Error else Allowed(id))
  }

  function Handle(w: World, m: Message, v: Verdict): World {
    if w.pending.Some? || m !in w.requests || m in w.replies then w
    else
      var (next, answer) := Handled(w, w.requests[m], v);
      next.(pending := Some((m, answer)))
  }

  /** A request that cannot be read, or is gone by now, is answered with an error. */
  function Spoiled(w: World, m: Message): World {
    if w.pending.Some? || m in w.replies then w else w.(pending := Some((m, Error)))
  }

  function Write(w: World, ok: bool): World {
    match w.pending
    case None => w
    case Some((m, answer)) =>
      w.(pending := None, replies := if ok then w.replies[m := answer] else w.replies)
  }

  /** A reply is collected once its request is gone. */
  function Collect(w: World, m: Message): World {
    if m in w.requests then w else w.(replies := w.replies - {m})
  }

  function Ask(w: World, ticket: Ticket): World {
    w.(requests := w.requests[w.nextMessage := ticket],
       tickets := w.tickets[w.nextMessage := ticket],
       nextMessage := w.nextMessage + 1)
  }

  datatype Move =
    | Send(ticket: Ticket)
    | Duplicate(ticket: Ticket)
    | Serve(message: Message, verdict: Verdict)
    | Spoil(message: Message)
    | Reply(ok: bool)
    | Sweep(message: Message)
    | Receive(ticket: Ticket)
    | Finish(ticket: Ticket)
    | GiveUp(ticket: Ticket)

  function Next(w: World, move: Move): World {
    match move
    case Send(ticket) =>
      if ticket in w.clients then w else Ask(w, ticket).(clients := w.clients[ticket := Waiting(w.nextMessage)])
    case Duplicate(ticket) => Ask(w, ticket)
    case Serve(m, v) => Handle(w, m, v)
    case Spoil(m) => Spoiled(w, m)
    case Reply(ok) => Write(w, ok)
    case Sweep(m) => Collect(w, m)
    case Receive(ticket) =>
      if ticket in w.clients && w.clients[ticket].Waiting? && w.clients[ticket].message in w.replies
      then w.(clients := w.clients[ticket := Read(w.clients[ticket].message, w.replies[w.clients[ticket].message])])
      else w
    case Finish(ticket) =>
      if ticket !in w.clients || !w.clients[ticket].Read? then w
      else
        var gone := w.(requests := w.requests - {w.clients[ticket].message});
        var answer := w.clients[ticket].answer;
        if answer.Allowed?
        then gone.(clients := w.clients[ticket := Launched(answer.id)], launches := w.launches + [(ticket, answer.id)])
        else gone.(clients := w.clients[ticket := Stopped])
    case GiveUp(ticket) =>
      if ticket in w.clients && w.clients[ticket].Waiting? then w.(clients := w.clients[ticket := Stopped]) else w
  }

  function Run(w: World, moves: seq<Move>): World {
    if moves == [] then w else Next(Run(w, moves[..|moves| - 1]), moves[|moves| - 1])
  }

}

module BridgeInvariant {
  import opened Wrappers
  import opened BridgeProtocol

  /** The identity belongs to this ticket and was admitted. */
  predicate Backed(w: World, ticket: Ticket, id: Invocation) {
    ticket in w.ids && w.ids[ticket] == id && id in w.admitted
  }

  predicate AnswerBacked(w: World, m: Message, a: Answer) {
    a.Allowed? ==> m in w.tickets && Backed(w, w.tickets[m], a.id)
  }

  predicate IdsDistinct(w: World) {
    && (forall t :: t in w.ids ==> w.ids[t] < w.nextInvocation)
    && (forall s, t :: s in w.ids && t in w.ids && s != t ==> w.ids[s] != w.ids[t])
  }

  predicate AdmittedOnce(w: World) {
    && (forall i, j :: 0 <= i < j < |w.admitted| ==> w.admitted[i] != w.admitted[j])
    && (forall i :: 0 <= i < |w.admitted| ==> w.admitted[i] < w.nextInvocation)
  }

  predicate ClientBacked(w: World, ticket: Ticket, c: Client) {
    match c
    case Waiting(m) => m in w.tickets && w.tickets[m] == ticket
    case Read(m, answer) => m in w.tickets && w.tickets[m] == ticket && AnswerBacked(w, m, answer)
    case Launched(id) => Backed(w, ticket, id) && (ticket, id) in w.launches
    case Stopped => true
  }

  predicate LaunchesBacked(w: World) {
    && (forall i :: 0 <= i < |w.launches| ==>
          && w.launches[i].0 in w.clients
          && w.clients[w.launches[i].0] == Launched(w.launches[i].1)
          && Backed(w, w.launches[i].0, w.launches[i].1))
    && (forall i, j :: 0 <= i < j < |w.launches| ==> w.launches[i].0 != w.launches[j].0)
  }

  predicate FilesBacked(w: World) {
    && (forall m :: m in w.tickets ==> m < w.nextMessage)
    && (forall m :: m in w.requests ==> m in w.tickets && w.tickets[m] == w.requests[m])
    && (forall m :: m in w.replies ==> AnswerBacked(w, m, w.replies[m]))
    && (w.pending.Some? ==> AnswerBacked(w, w.pending.value.0, w.pending.value.1))
  }

  predicate Inv(w: World) {
    && IdsDistinct(w)
    && AdmittedOnce(w)
    && FilesBacked(w)
    && (forall t :: t in w.clients ==> ClientBacked(w, t, w.clients[t]))
    && LaunchesBacked(w)
  }
}

module BridgeSafety {
  import opened Wrappers
  import opened BridgeProtocol
  import opened BridgeInvariant

  /** What is known of identities, admissions and messages only grows. */
  predicate Grows(w: World, next: World) {
    && (forall t :: t in w.ids ==> t in next.ids && next.ids[t] == w.ids[t])
    && (forall id :: id in w.admitted ==> id in next.admitted)
    && (forall m :: m in w.tickets ==> m in next.tickets && next.tickets[m] == w.tickets[m])
    && (forall l :: l in w.launches ==> l in next.launches)
  }

  lemma GrowsBacks(w: World, next: World)
    requires Grows(w, next)
    ensures forall t, id :: Backed(w, t, id) ==> Backed(next, t, id)
    ensures forall m, a :: AnswerBacked(w, m, a) ==> AnswerBacked(next, m, a)
    ensures forall t, c :: ClientBacked(w, t, c) ==> ClientBacked(next, t, c)
  {
  }

  lemma IdentifiedKeeps(w: World, ticket: Ticket)
    requires Inv(w)
    ensures Inv(Identified(w, ticket)) && Grows(w, Identified(w, ticket))
    ensures ticket in Identified(w, ticket).ids
  {
    var next := Identified(w, ticket);
    if next != w {
      GrowsBacks(w, next);
    }
  }

  lemma AdmittedKeeps(w: World, ticket: Ticket)
    requires Inv(w) && ticket in w.ids && w.ids[ticket] !in w.admitted
    ensures var next := w.(admitted := w.admitted + [w.ids[ticket]]); Inv(next) && Grows(w, next)
  {
    var next := w.(admitted := w.admitted + [w.ids[ticket]]);
    GrowsBacks(w, next);
  }

  /** Handling a ticket: an allowed answer carries the identity just admitted. */
  lemma HandledKeeps(w: World, ticket: Ticket, v: Verdict)
    requires Inv(w)
    ensures var (next, answer) := Handled(w, ticket, v);
            && Inv(next) && Grows(w, next)
            && next.pending == w.pending && next.tickets == w.tickets
            && (answer.Allowed? ==> Backed(next, ticket, answer.id))
  {
    if v.capacity {
      IdentifiedKeeps(w, ticket);
      var named := Identified(w, ticket);
      if named.ids[ticket] !in named.admitted && v.funded {
        AdmittedKeeps(named, ticket);
        assert named.ids[ticket] in named.admitted + [named.ids[ticket]];
      }
    }
  }

  lemma PendingKeeps(w: World, m: Message, answer: Answer)
    requires Inv(w) && AnswerBacked(w, m, answer)
    ensures Inv(w.(pending := Some((m, answer)))) && Grows(w, w.(pending := Some((m, answer))))
  {
    GrowsBacks(w, w.(pending := Some((m, answer))));
  }

  lemma HandleKeeps(w: World, m: Message, v: Verdict)
    requires Inv(w)
    ensures Inv(Handle(w, m, v)) && Grows(w, Handle(w, m, v))
  {
    if !(w.pending.Some? || m !in w.requests || m in w.replies) {
      HandledKeeps(w, w.requests[m], v);
      var (next, answer) := Handled(w, w.requests[m], v);
      assert m in w.tickets && w.tickets[m] == w.requests[m];
      PendingKeeps(next, m, answer);
    }
  }

  lemma SpoiledKeeps(w: World, m: Message)
    requires Inv(w)
    ensures Inv(Spoiled(w, m)) && Grows(w, Spoiled(w, m))
  {
    PendingKeeps(w, m, Error);
  }

  lemma WriteKeeps(w: World, ok: bool)
    requires Inv(w)
    ensures Inv(Write(w, ok)) && Grows(w, Write(w, ok))
  {
    if w.pending.Some? {
      GrowsBacks(w, Write(w, ok));
    } else {
      assert Write(w, ok) == w;
    }
  }

  lemma ReceiveKeeps(w: World, ticket: Ticket)
    requires Inv(w)
    ensures Inv(Next(w, Receive(ticket))) && Grows(w, Next(w, Receive(ticket)))
  {
    GrowsBacks(w, Next(w, Receive(ticket)));
    if ticket in w.clients {
      assert ClientBacked(w, ticket, w.clients[ticket]);
    }
  }

  lemma GiveUpKeeps(w: World, ticket: Ticket)
    requires Inv(w)
    ensures Inv(Next(w, GiveUp(ticket))) && Grows(w, Next(w, GiveUp(ticket)))
  {
    GrowsBacks(w, Next(w, GiveUp(ticket)));
  }

  lemma SendKeeps(w: World, ticket: Ticket)
    requires Inv(w)
    ensures Inv(Next(w, Send(ticket))) && Grows(w, Next(w, Send(ticket)))
  {
    if ticket !in w.clients {
      AskKeeps(w, ticket);
      var asked := Ask(w, ticket);
      WaitKeeps(asked, ticket, w.nextMessage);
      assert Next(w, Send(ticket)) == asked.(clients := w.clients[ticket := Waiting(w.nextMessage)]);
    }
  }

  /** A new client waits for the reply to its message. */
  lemma WaitKeeps(w: World, ticket: Ticket, m: Message)
    requires Inv(w) && ticket !in w.clients && m in w.tickets && w.tickets[m] == ticket
    ensures var next := w.(clients := w.clients[ticket := Waiting(m)]); Inv(next) && Grows(w, next)
  {
    GrowsBacks(w, w.(clients := w.clients[ticket := Waiting(m)]));
  }

  lemma AskKeeps(w: World, ticket: Ticket)
    requires Inv(w)
    ensures Inv(Ask(w, ticket)) && Grows(w, Ask(w, ticket))
  {
    GrowsBacks(w, Ask(w, ticket));
  }

  /** A client that read an allowed answer launches. */
  lemma LaunchKeeps(w: World, ticket: Ticket, m: Message, id: Invocation)
    requires Inv(w) && ticket in w.clients && w.clients[ticket] == Read(m, Allowed(id))
    ensures var next := w.(requests := w.requests - {m}, clients := w.clients[ticket := Launched(id)],
                           launches := w.launches + [(ticket, id)]);
            Inv(next) && Grows(w, next)
  {
    var next := w.(requests := w.requests - {m}, clients := w.clients[ticket := Launched(id)],
                   launches := w.launches + [(ticket, id)]);
    assert ClientBacked(w, ticket, w.clients[ticket]);
    assert next.launches[|w.launches|] == (ticket, id);
    GrowsBacks(w, next);
  }

  /** A client that read another answer stops. */
  lemma StopKeeps(w: World, ticket: Ticket, m: Message)
    requires Inv(w) && ticket in w.clients && w.clients[ticket].Read?
    ensures var next := w.(requests := w.requests - {m}, clients := w.clients[ticket := Stopped]);
            Inv(next) && Grows(w, next)
  {
    GrowsBacks(w, w.(requests := w.requests - {m}, clients := w.clients[ticket := Stopped]));
  }

  lemma FinishKeeps(w: World, ticket: Ticket)
    requires Inv(w)
    ensures Inv(Next(w, Finish(ticket))) && Grows(w, Next(w, Finish(ticket)))
  {
    if ticket in w.clients && w.clients[ticket].Read? {
      var m, answer := w.clients[ticket].message, w.clients[ticket].answer;
      if answer.Allowed? {
        LaunchKeeps(w, ticket, m, answer.id);
      } else {
        StopKeeps(w, ticket, m);
      }
    }
  }

  /** Every move of clients, server and files keeps the invariant. */
  lemma NextKeeps(w: World, move: Move)
    requires Inv(w)
    ensures Inv(Next(w, move)) && Grows(w, Next(w, move))
  {
    match move
    case Send(ticket) => SendKeeps(w, ticket);
    case Duplicate(ticket) => AskKeeps(w, ticket);
    case Serve(m, v) => HandleKeeps(w, m, v);
    case Spoil(m) => SpoiledKeeps(w, m);
    case Finish(ticket) => FinishKeeps(w, ticket);
    case Reply(ok) => WriteKeeps(w, ok);
    case Sweep(m) => GrowsBacks(w, Collect(w, m));
    case Receive(ticket) => ReceiveKeeps(w, ticket);
    case GiveUp(ticket) => GiveUpKeeps(w, ticket);
  }

  lemma {:induction false} Reachable(moves: seq<Move>)
    ensures Inv(Run(EMPTY, moves))
    decreases |moves|
  {
    if moves != [] {
      Reachable(moves[..|moves| - 1]);
      NextKeeps(Run(EMPTY, moves[..|moves| - 1]), moves[|moves| - 1]);
    }
  }

  /** However requests are duplicated and reply writes fail, the ledger admits each
      ticket at most once. */
  lemma OneAdmission(moves: seq<Move>, ticket: Ticket, i: nat, j: nat)
    requires var w := Run(EMPTY, moves);
             && i < |w.admitted| && j < |w.admitted| && ticket in w.ids
             && w.ids[ticket] == w.admitted[i] && w.ids[ticket] == w.admitted[j]
    ensures i == j
  {
    Reachable(moves);
  }

  /** A client launches at most once, only under an identity that the ledger admitted
      for its ticket, and no two clients launch under the same one. */
  lemma LaunchesAdmitted(moves: seq<Move>, i: nat)
    requires i < |Run(EMPTY, moves).launches|
    ensures var w := Run(EMPTY, moves);
            && w.launches[i].1 in w.admitted
            && w.launches[i].0 in w.ids && w.ids[w.launches[i].0] == w.launches[i].1
            && forall j :: 0 <= j < |w.launches| && j != i ==>
                 w.launches[j].0 != w.launches[i].0 && w.launches[j].1 != w.launches[i].1
  {
    Reachable(moves);
    var w := Run(EMPTY, moves);
    forall j | 0 <= j < |w.launches| && j != i
      ensures w.launches[j].0 != w.launches[i].0 && w.launches[j].1 != w.launches[i].1
    {
      assert Backed(w, w.launches[j].0, w.launches[j].1) && Backed(w, w.launches[i].0, w.launches[i].1);
    }
  }
}
