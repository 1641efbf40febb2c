/** The reader protocol with lost answers, crashes and restarts: complete coverage and
    the final token together prove that every page reached the client. */
module AuditRuns {
  import opened Wrappers
  import opened AuditReader
  import opened AuditSections
  import opened AuditBatches

  /** The reader process (if it runs), its receipt file, and what reached the client:
      pages, and tokens. Every token generated so far is smaller than `issued`. */
  datatype World = World(
    reader: Option<Memory>,
    receipt: Option<Receipt>,
    received: set<nat>,
    known: set<Token>,
    issued: nat)

  /** What becomes of a request that delivers a page. */
  datatype Fate = Arrives | AnswerLost | DiesAfterReceipt | DiesBeforeReceipt

  datatype Move =
    | Ask(page: nat, token: Token, fate: Fate)
    | Crash
    | Restart(told: bool)

  /** The client presents tokens that it received, or asks for a replay. */
  predicate Presentable(w: World, token: Token) {
    token == Empty || token in w.known
  }

  function Next(w: World, move: Move, digest: int, n: nat): World {
    match move
    case Crash => w.(reader := None)
    case Restart(told) =>
      if w.reader.Some? then w
      else if w.receipt.Some? then w.(reader := Restored(w.receipt.value, digest, n))
      else
        var token := Token(w.issued);
        w.(reader := Some(Memory({}, token, None)), issued := w.issued + 1,
           known := if told then w.known + {token} else w.known)
    case Ask(page, token, fate) =>
      if w.reader.None? || !Presentable(w, token) then w
      else
        match PageFor(w.reader.value, n, page, token)
        case None => w
        case Some(p) =>
          var m := Delivered(w.reader.value, p, Token(w.issued));
          var spent := w.(issued := w.issued + 1);
          match fate
          case DiesBeforeReceipt => spent.(reader := None)
          case DiesAfterReceipt => spent.(reader := None, receipt := Some(ReceiptOf(m, digest, n)))
          case AnswerLost => spent.(reader := Some(m), receipt := Some(ReceiptOf(m, digest, n)))
          case Arrives =>
            spent.(reader := Some(m), receipt := Some(ReceiptOf(m, digest, n)),
                   received := w.received + {p}, known := w.known + {m.token})
  }

  function Run(w: World, moves: seq<Move>, digest: int, n: nat): World {
    if moves == [] then w
    else Next(Run(w, moves[..|moves| - 1], digest, n), moves[|moves| - 1], digest, n)
  }

  const BEGINNING := World(None, None, {}, {}, 0)

  // --------------------------------------------------------------- invariant

  /** The read pages are the first ones. */
  predicate IsPrefix(seen: set<nat>, n: nat) {
    forall i :: i in seen ==> i < n && forall j: nat :: j < i ==> j in seen
  }

  /** All read pages but the last reached the client; with the current token the last
      one did, too. */
  predicate Vouched(m: Memory, w: World, n: nat) {
    && IsPrefix(m.seen, n)
    && (m.last.None? ==> m.seen == {})
    && (m.last.Some? ==> m.last.value in m.seen)
    && (forall p :: p in m.seen && Some(p) != m.last ==> p in w.received)
    && (m.token in w.known ==> m.seen <= w.received)
    && m.token.Token? && m.token.value < w.issued
  }

  predicate Inv(w: World, digest: int, n: nat) {
    && (forall t :: t in w.known ==> t.Token? && t.value < w.issued)
    && (w.receipt.Some? ==>
          && Restored(w.receipt.value, digest, n).Some?
          && w.receipt.value == ReceiptOf(Restored(w.receipt.value, digest, n).value, digest, n)
          && Vouched(Restored(w.receipt.value, digest, n).value, w, n))
    && (w.reader.Some? ==> Vouched(w.reader.value, w, n))
    && (w.reader.Some? && w.receipt.Some? ==> Restored(w.receipt.value, digest, n) == w.reader)
    && (w.reader.Some? && w.receipt.None? ==> w.reader.value.seen == {})
  }

  /** A receipt restores what it was written from. */
  lemma ReceiptRoundTrip(m: Memory, digest: int, n: nat)
    requires IsPrefix(m.seen, n) && (m.last.Some? ==> m.last.value in m.seen)
    ensures Restored(ReceiptOf(m, digest, n), digest, n) == Some(m)
  {
    var read := Listed(m.seen, n);
    forall i: nat ensures i in read <==> i in m.seen {
      if i in read {
        var k :| 0 <= k < |read| && read[k] == i;
      }
    }
    assert PagesIn(read) == m.seen;
    assert Restored(ReceiptOf(m, digest, n), digest, n).Some?;
  }

  lemma UnreadExtends(seen: set<nat>, n: nat, p: nat)
    requires IsPrefix(seen, n) && p < n && (p in seen || p == NextUnread(seen, 0, n))
    ensures IsPrefix(seen + {p}, n)
  {
  }

  /** Delivering a page under a new token keeps everything vouched for. */
  lemma DeliveryVouched(w: World, m: Memory, n: nat, page: nat, token: Token, p: nat, w2: World)
    requires Vouched(m, w, n) && Presentable(w, token) && PageFor(m, n, page, token) == Some(p)
    requires forall t :: t in w.known ==> t.Token? && t.value < w.issued
    requires w2.issued == w.issued + 1
    requires (w2.received == w.received && w2.known == w.known)
             || (w2.received == w.received + {p} && w2.known == w.known + {Token(w.issued)})
    ensures Vouched(Delivered(m, p, Token(w.issued)), w2, n)
  {
    var next := Delivered(m, p, Token(w.issued));
    if token == Empty && m.last.None? {
      assert p == 0;
    }
    UnreadExtends(m.seen, n, p);
    forall q | q in next.seen && Some(q) != next.last ensures q in w2.received {
      assert q in m.seen && q != p;
    }
  }

  /** What was vouched for stays so when more reaches the client, except its token. */
  lemma StillVouched(m: Memory, w: World, w2: World, n: nat)
    requires Vouched(m, w, n) && w.received <= w2.received && w.issued <= w2.issued
    requires m.token in w2.known ==> m.token in w.known
    ensures Vouched(m, w2, n)
  {
  }

  lemma AskKeeps(w: World, page: nat, token: Token, fate: Fate, digest: int, n: nat)
    requires Inv(w, digest, n)
    ensures Inv(Next(w, Ask(page, token, fate), digest, n), digest, n)
  {
    var w2 := Next(w, Ask(page, token, fate), digest, n);
    if w.reader.Some? && Presentable(w, token) && PageFor(w.reader.value, n, page, token).Some? {
      var p := PageFor(w.reader.value, n, page, token).value;
      var m := Delivered(w.reader.value, p, Token(w.issued));
      DeliveryVouched(w, w.reader.value, n, page, token, p, w2);
      ReceiptRoundTrip(m, digest, n);
      if fate == DiesBeforeReceipt && w.receipt.Some? {
        StillVouched(Restored(w.receipt.value, digest, n).value, w, w2, n);
      }
    }
  }

  lemma RestartKeeps(w: World, told: bool, digest: int, n: nat)
    requires Inv(w, digest, n)
    ensures Inv(Next(w, Restart(told), digest, n), digest, n)
  {
  }

  /** In every reachable state, whatever was lost or crashed, what is read is a prefix of
      the pages and all of it but the last page certainly reached the client. */
  lemma {:induction false} Reachable(moves: seq<Move>, digest: int, n: nat)
    ensures Inv(Run(BEGINNING, moves, digest, n), digest, n)
    decreases |moves|
  {
    if moves != [] {
      var w := Run(BEGINNING, moves[..|moves| - 1], digest, n);
      Reachable(moves[..|moves| - 1], digest, n);
      match moves[|moves| - 1]
      case Crash =>
      case Restart(told) => RestartKeeps(w, told, digest, n);
      case Ask(page, token, fate) => AskKeeps(w, page, token, fate, digest, n);
    }
  }

  // ---------------------------------------------------------------- coverage

  /** Complete coverage and the final token: every page reached the client. */
  lemma CoverageProves(w: World, digest: int, n: nat)
    requires Inv(w, digest, n) && w.receipt.Some?
    ensures CoverageOf(w.receipt, digest, n).Some?
    ensures var proof := CoverageOf(w.receipt, digest, n).value;
            proof.missing == [] && proof.lastToken.Some? && proof.lastToken.value in w.known ==>
              forall i: nat :: i < n ==> i in w.received
  {
    var r := w.receipt.value;
    var m := Restored(r, digest, n).value;
    var proof := CoverageOf(w.receipt, digest, n).value;
    if proof.missing == [] && proof.lastToken.value in w.known {
      forall i: nat | i < n ensures i in w.received {
        assert i !in proof.missing;
        assert i in r.read && i in m.seen;
      }
    }
  }

  /** The pages that reached the client, in order. */
  function Got(pages: seq<seq<Section>>, received: set<nat>): seq<seq<Section>> {
    if pages == [] then []
    else
      Got(pages[..|pages| - 1], received) + (if |pages| - 1 in received then [pages[|pages| - 1]] else [])
  }

  lemma {:induction false} GotAll(pages: seq<seq<Section>>, received: set<nat>)
    requires forall i: nat :: i < |pages| ==> i in received
    ensures Got(pages, received) == pages
    decreases |pages|
  {
    if pages != [] {
      GotAll(pages[..|pages| - 1], received);
    }
  }

  /** The list of commits that comes with every page. */
  function CommitsGot(batch: Batch, received: set<nat>): Option<seq<string>> {
    if received == {} then None else Some(Shas(batch))
  }

  /** End to end: over every history of requests, lost answers, crashes and restarts, a
      client whose receipt covers all pages and who holds its last token can rebuild the
      whole batch from what it received. */
  lemma CompleteInspection(batch: Batch, pages: seq<seq<Section>>, moves: seq<Move>, digest: int)
    requires Flatten(pages) == Sections(Fields(batch)) && pages != [] && DistinctShas(batch)
    requires var w := Run(BEGINNING, moves, digest, |pages|);
             var proof := CoverageOf(w.receipt, digest, |pages|);
             && proof.Some? && proof.value.missing == []
             && proof.value.lastToken.Some? && proof.value.lastToken.value in w.known
    ensures var w := Run(BEGINNING, moves, digest, |pages|);
            && CommitsGot(batch, w.received).Some?
            && RebuildBatch(CommitsGot(batch, w.received).value, Rebuild(Flatten(Got(pages, w.received)))) == batch
  {
    var w := Run(BEGINNING, moves, digest, |pages|);
    Reachable(moves, digest, |pages|);
    CoverageProves(w, digest, |pages|);
    assert 0 in w.received;
    GotAll(pages, w.received);
    RebuildSections(Fields(batch));
    RebuildWhole(batch);
  }
}
