/** The page reader: it delivers pages in order, remembers them durably, and asks the
    client to present the token that came with the previous page. */
module AuditReader {
  import opened Wrappers

  /** Tokens are compared only; the empty token asks for a replay. */
  datatype Token = Empty | Token(value: nat)

  /** What the reader remembers. */
  datatype Memory = Memory(seen: set<nat>, token: Token, last: Option<nat>)

  /** The durable receipt. */
  datatype Receipt = Receipt(digest: int, pages: nat, read: seq<nat>, lastToken: Token, lastPage: Option<nat>)

  function Listed(seen: set<nat>, n: nat): (read: seq<nat>)
    ensures forall k :: 0 <= k < |read| ==> read[k] < n && read[k] in seen
    ensures forall i, j :: 0 <= i < j < |read| ==> read[i] < read[j]
    ensures forall i :: i in seen && i < n ==> i in read
  {
    if n == 0 then []
    else if n - 1 in seen then Listed(seen, n - 1) + [n - 1]
    else Listed(seen, n - 1)
  }

  /** The pages below n that are not in this list. */
  function Missing(read: seq<nat>, n: nat): (missing: seq<nat>)
    ensures forall i: nat :: i in missing <==> i < n && i !in read
  {
    if n == 0 then []
    else if n - 1 in read then Missing(read, n - 1)
    else Missing(read, n - 1) + [n - 1]
  }

  function PagesIn(read: seq<nat>): (pages: set<nat>)
    ensures forall i: nat :: i in pages <==> i in read
  {
    set i | i in read
  }

  predicate Increasing(read: seq<nat>) {
    forall i, j :: 0 <= i < j < |read| ==> read[i] < read[j]
  }

  /** The first page from here on that was not read, or n. */
  function NextUnread(seen: set<nat>, from: nat, n: nat): (next: nat)
    requires from <= n
    ensures from <= next <= n
    ensures forall i :: from <= i < next ==> i in seen
    ensures next < n ==> next !in seen
    decreases n - from
  {
    if from == n || from !in seen then from else NextUnread(seen, from + 1, n)
  }

  /** The page that a request delivers; None when the request is refused. */
  function PageFor(m: Memory, n: nat, page: nat, token: Token): Option<nat> {
    if page >= n then None
    else if token != Empty && token != m.token then None
    else
      var chosen := if token == Empty then m.last.GetOr(0) else page;
      if chosen !in m.seen && chosen != NextUnread(m.seen, 0, n) then None else Some(chosen)
  }

  function Delivered(m: Memory, page: nat, next: Token): Memory {
    Memory(m.seen + {page}, next, Some(page))
  }

  /** The retained receipt, when it belongs to this input and is well formed. */
  function Restored(r: Receipt, digest: int, n: nat): Option<Memory> {
    if r.digest != digest || r.pages != n then None
    else if (exists i :: 0 <= i < |r.read| && r.read[i] >= n) || !Increasing(r.read) then None
    else if r.lastPage.Some? && r.lastPage.value !in r.read then None
    else Some(Memory(PagesIn(r.read), r.lastToken, r.lastPage))
  }

  function ReceiptOf(m: Memory, digest: int, n: nat): Receipt {
    Receipt(digest, n, Listed(m.seen, n), m.token, m.last)
  }

  /** What is read according to a receipt, and what is still missing. */
  datatype Coverage = Coverage(read: seq<nat>, missing: seq<nat>, lastToken: Option<Token>)

  /** None when the receipt is invalid; without a receipt nothing was delivered. */
  function CoverageOf(r: Option<Receipt>, digest: int, n: nat): Option<Coverage> {
    match r
    case None => Some(Coverage([], Missing([], n), None))
    case Some(r) =>
      if Restored(r, digest, n).None? || (r.read != [] && r.lastToken == Empty) then None
      else Some(Coverage(r.read, Missing(r.read, n), Some(r.lastToken)))
  }

  class Reader {
    const digest: int
    const pages: nat
    var seen: set<nat>
    var token: Token
    var last: Option<nat>
    var receipt: Option<Receipt>

    function View(): Memory
      reads this
    {
      Memory(seen, token, last)
    }

    /** Starts with the retained receipt, or afresh without one. */
    constructor (digest: int, pages: nat, retained: Option<Receipt>, token: Token)
      requires retained.Some? ==> Restored(retained.value, digest, pages).Some?
      ensures this.digest == digest && this.pages == pages && receipt == retained
      ensures View() == if retained.None? then Memory({}, token, None)
                        else Restored(retained.value, digest, pages).value
    {
      this.digest, this.pages, receipt := digest, pages, retained;
      if retained.None? {
        seen, last := {}, None;
        this.token := token;
      } else {
        seen, last := PagesIn(retained.value.read), retained.value.lastPage;
        this.token := retained.value.lastToken;
      }
    }

    /** The next page in order, or the number of pages. */
    method FirstUnread() returns (next: nat)
      ensures next == NextUnread(seen, 0, pages)
    {
      next := 0;
      while next < pages && next in seen
        invariant next <= pages && NextUnread(seen, 0, pages) == NextUnread(seen, next, pages)
      {
        next := next + 1;
      }
    }

    /** Delivers one page. The receipt is replaced before the answer is sent; when that
        fails the process ends and only the old receipt remains. */
    method Request(page: nat, presented: Token, generated: Token, written: bool) returns (delivered: Option<nat>)
      modifies this
      ensures delivered.Some? <==> PageFor(old(View()), pages, page, presented).Some? && written
      ensures delivered.Some? ==>
                && delivered == PageFor(old(View()), pages, page, presented)
                && View() == Delivered(old(View()), delivered.value, generated)
                && receipt == Some(ReceiptOf(View(), digest, pages))
      ensures delivered.None? ==> receipt == old(receipt)
      ensures PageFor(old(View()), pages, page, presented).None? ==> View() == old(View())
    {
      if page >= pages {
        return None;
      }
      if presented != Empty && presented != token {
        return None;
      }
      var chosen := page;
      if presented == Empty {
        chosen := if last.Some? then last.value else 0;
      }
      var next := FirstUnread();
      if chosen !in seen && chosen != next {
        return None;
      }
      seen, last, token := seen + {chosen}, Some(chosen), generated;
      if !written {
        return None;
      }
      receipt := Some(Receipt(digest, pages, Listed(seen, pages), token, last));
      return Some(chosen);
    }
  }

  /** Starts the reader; a retained receipt that does not fit the batch is an error. */
  method Open(digest: int, pages: nat, retained: Option<Receipt>, token: Token) returns (reader: Option<Reader>)
    ensures reader.Some? <==> retained.None? || Restored(retained.value, digest, pages).Some?
    ensures reader.Some? ==>
              && fresh(reader.value)
              && reader.value.digest == digest && reader.value.pages == pages && reader.value.receipt == retained
              && reader.value.View() == if retained.None? then Memory({}, token, None)
                                        else Restored(retained.value, digest, pages).value
  {
    if retained.Some? && Restored(retained.value, digest, pages).None? {
      return None;
    }
    var made := new Reader(digest, pages, retained, token);
    reader := Some(made);
  }
}
