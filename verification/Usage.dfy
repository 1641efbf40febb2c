/** Joining usage journals along a resume chain: every provider response is charged
    once, to the first admitted session that recorded it. */
module Usage {
  import opened Wrappers
  import opened Ledger
  import opened Receipts

  /** A response is known by its provider session and its message. */
  type Key = (string, string)

  datatype Item = Item(key: Key, cost: Option<real>, complete: bool)

  datatype Journal = Journal(items: seq<Item>, closed: bool, inflight: bool)

  /** The journals that the host finds, by invocation. */
  type Journals = map<string, Journal>

  function Find(journals: Journals, id: string): Option<Journal> {
    if id in journals then Some(journals[id]) else None
  }

  function KeysOf(items: seq<Item>): (keys: set<Key>)
    ensures forall i :: 0 <= i < |items| ==> items[i].key in keys
    ensures forall k :: k in keys ==> exists i :: 0 <= i < |items| && items[i].key == k
  {
    set i | 0 <= i < |items| :: items[i].key
  }

  function Recorded(journals: Journals, id: string): set<Key> {
    if id in journals then KeysOf(journals[id].items) else {}
  }

  predicate Resumed(s: Session) {
    s.resume.Some? && s.resume.value != ""
  }

  /** An earlier session of the provider session that s resumes. */
  predicate Linked(prior: Session, s: Session)
    requires Resumed(s)
  {
    prior.bridge.Some? && (prior.resume == s.resume || s.resume.value in prior.totals)
  }

  /** The responses that earlier linked sessions among the first i recorded. */
  function SeenBefore(ss: seq<Session>, s: Session, i: nat, journals: Journals): set<Key>
    requires i <= |ss| && Resumed(s)
  {
    if i == 0 then {}
    else
      SeenBefore(ss, s, i - 1, journals)
      + if Linked(ss[i - 1], s) then Recorded(journals, ss[i - 1].id) else {}
  }

  function Seen(ss: seq<Session>, k: nat, journals: Journals): set<Key>
    requires k < |ss|
  {
    if Resumed(ss[k]) then SeenBefore(ss, ss[k], k, journals) else {}
  }

  function Unseen(items: seq<Item>, seen: set<Key>): (rest: seq<Item>)
    ensures forall x :: x in rest <==> x in items && x.key !in seen
  {
    if items == [] then []
    else
      var n := |items| - 1;
      Unseen(items[..n], seen) + (if items[n].key in seen then [] else [items[n]])
  }

  /** The responses charged to session k. */
  function Charged(ss: seq<Session>, k: nat, journals: Journals): seq<Item>
    requires k < |ss|
  {
    if ss[k].id in journals then Unseen(journals[ss[k].id].items, Seen(ss, k, journals)) else []
  }

  function Priced(items: seq<Item>): real {
    if items == [] then 0.0 else Priced(items[..|items| - 1]) + items[|items| - 1].cost.GetOr(0.0)
  }

  /** The price is the sum of the prices of all responses, wherever they stand. */
  lemma {:induction false} PricedSum(items: seq<Item>, i: nat)
    requires i < |items|
    ensures Priced(items) == Priced(items[..i] + items[i + 1..]) + items[i].cost.GetOr(0.0)
    ensures Priced([]) == 0.0
    decreases |items|
  {
    var n := |items| - 1;
    if i < n {
      PricedSum(items[..n], i);
      var rest := items[..i] + items[i + 1..];
      assert rest[..n - 1] == items[..n][..i] + items[..n][i + 1..];
    } else {
      assert items[..i] + items[i + 1..] == items[..n];
    }
  }

  datatype Found = Found(items: seq<Item>, cost: real, complete: bool)

  /** The checkpoints are journals that were looked up before. */
  predicate Cached(checkpoints: map<string, Option<Journal>>, journals: Journals) {
    forall id :: id in checkpoints ==> checkpoints[id] == Find(journals, id)
  }

  /** The evidence about one session; journals that it looks up are kept for the next. */
  method Evidence(ss: seq<Session>, k: nat, journals: Journals, known: map<string, Option<Journal>>)
    returns (found: Option<Found>, checkpoints: map<string, Option<Journal>>)
    requires k < |ss| && UniqueIds(ss) && Cached(known, journals)
    ensures Cached(checkpoints, journals)
    ensures forall id :: id in known ==> id in checkpoints
    ensures found.None? <==> ss[k].id !in journals
    ensures found.Some? ==>
              && found.value.items == Charged(ss, k, journals)
              && found.value.cost == Priced(found.value.items)
              && (found.value.complete <==>
                    && found.value.items != []
                    && journals[ss[k].id].closed && !journals[ss[k].id].inflight
                    && forall x :: x in found.value.items ==> x.complete && x.cost.Some?)
  {
    var s := ss[k];
    checkpoints := known;
    if s.id !in checkpoints {
      checkpoints := checkpoints[s.id := Find(journals, s.id)];
    }
    if checkpoints[s.id].None? {
      return None, checkpoints;
    }
    var value := checkpoints[s.id].value;
    var seen: set<Key> := {};
    if Resumed(s) {
      var i := 0;
      while i < |ss| && ss[i].id != s.id
        invariant i <= k && seen == SeenBefore(ss, s, i, journals)
        invariant Cached(checkpoints, journals) && forall id :: id in known ==> id in checkpoints
      {
        if Linked(ss[i], s) {
          if ss[i].id !in checkpoints {
            checkpoints := checkpoints[ss[i].id := Find(journals, ss[i].id)];
          }
          if checkpoints[ss[i].id].Some? {
            seen := seen + KeysOf(checkpoints[ss[i].id].value.items);
          }
        }
        i := i + 1;
      }
      assert i == k;
    }
    var items := Unseen(value.items, seen);
    var complete := items != [] && value.closed && !value.inflight
                    && forall x :: x in items ==> x.complete && x.cost.Some?;
    return Some(Found(items, Priced(items), complete)), checkpoints;
  }

  // ------------------------------------------------------------------ chains

  /** The sessions of provider p: a creator, then sessions that resume it, all with a
      bridge, and no others. */
  predicate Chain(ss: seq<Session>, chain: seq<nat>, p: string) {
    && p != "" && chain != []
    && (forall a :: 0 <= a < |chain| ==> chain[a] < |ss| && ss[chain[a]].bridge.Some?)
    && (forall a, b :: 0 <= a < b < |chain| ==> chain[a] < chain[b])
    && p in ss[chain[0]].totals && !Resumed(ss[chain[0]])
    && (forall a :: 0 < a < |chain| ==> ss[chain[a]].resume == Some(p))
    && (forall i :: 0 <= i < |ss| && ss[i].bridge.Some? && (ss[i].resume == Some(p) || p in ss[i].totals) ==>
        i in chain)
  }

  lemma {:induction false} SeenMeans(ss: seq<Session>, s: Session, i: nat, journals: Journals, key: Key)
    requires i <= |ss| && Resumed(s)
    ensures key in SeenBefore(ss, s, i, journals) <==>
            exists j :: 0 <= j < i && Linked(ss[j], s) && key in Recorded(journals, ss[j].id)
  {
    if i > 0 {
      SeenMeans(ss, s, i - 1, journals, key);
      if Linked(ss[i - 1], s) && key in Recorded(journals, ss[i - 1].id) {
        assert key in SeenBefore(ss, s, i, journals);
      }
    }
  }

  lemma UnseenKeys(items: seq<Item>, seen: set<Key>, key: Key)
    ensures key in KeysOf(Unseen(items, seen)) <==> key in KeysOf(items) && key !in seen
  {
    var rest := Unseen(items, seen);
    if key in KeysOf(items) && key !in seen {
      var i :| 0 <= i < |items| && items[i].key == key;
      assert items[i] in rest;
      var j :| 0 <= j < |rest| && rest[j] == items[i];
    }
    if key in KeysOf(rest) {
      var j :| 0 <= j < |rest| && rest[j].key == key;
      assert rest[j] in rest && rest[j] in items;
      var i :| 0 <= i < |items| && items[i] == rest[j];
    }
  }

  lemma OrderReflects(chain: seq<nat>, a: nat, b: nat)
    requires a < |chain| && b < |chain| && chain[a] < chain[b]
    requires forall i, j :: 0 <= i < j < |chain| ==> chain[i] < chain[j]
    ensures a < b
  {
  }

  /** What earlier sessions of the chain recorded is what a later one has seen. */
  lemma SeenOnChain(ss: seq<Session>, chain: seq<nat>, p: string, journals: Journals, b: nat, key: Key)
    requires Chain(ss, chain, p) && b < |chain|
    ensures key in Seen(ss, chain[b], journals) <==>
            exists a :: 0 <= a < b && key in Recorded(journals, ss[chain[a]].id)
  {
    if b > 0 {
      var k := chain[b];
      SeenMeans(ss, ss[k], k, journals, key);
      if j :| 0 <= j < k && Linked(ss[j], ss[k]) && key in Recorded(journals, ss[j].id) {
        assert j in chain;
        var a :| 0 <= a < |chain| && chain[a] == j;
        OrderReflects(chain, a, b);
      }
      if a :| 0 <= a < b && key in Recorded(journals, ss[chain[a]].id) {
        assert Linked(ss[chain[a]], ss[k]);
      }
    }
  }

  /** Charge once: a response is charged to a session of the chain exactly when that
      session recorded it and none before it did. */
  lemma ChargedToFirst(ss: seq<Session>, chain: seq<nat>, p: string, journals: Journals, b: nat, key: Key)
    requires Chain(ss, chain, p) && b < |chain|
    ensures key in KeysOf(Charged(ss, chain[b], journals)) <==>
            && key in Recorded(journals, ss[chain[b]].id)
            && forall a :: 0 <= a < b ==> key !in Recorded(journals, ss[chain[a]].id)
  {
    SeenOnChain(ss, chain, p, journals, b, key);
    if ss[chain[b]].id in journals {
      UnseenKeys(journals[ss[chain[b]].id].items, Seen(ss, chain[b], journals), key);
    }
  }

  /** No response is charged to two sessions of the chain. */
  lemma ChargesDisjoint(ss: seq<Session>, chain: seq<nat>, p: string, journals: Journals, a: nat, b: nat)
    requires Chain(ss, chain, p) && a < b < |chain|
    ensures KeysOf(Charged(ss, chain[a], journals)) !! KeysOf(Charged(ss, chain[b], journals))
  {
    forall key | key in KeysOf(Charged(ss, chain[a], journals))
      ensures key !in KeysOf(Charged(ss, chain[b], journals))
    {
      ChargedToFirst(ss, chain, p, journals, a, key);
      ChargedToFirst(ss, chain, p, journals, b, key);
    }
  }

  /** Every recorded response is charged to some session of the chain. */
  lemma {:induction false} EverythingCharged(ss: seq<Session>, chain: seq<nat>, p: string, journals: Journals,
                                             b: nat, key: Key)
    returns (a: nat)
    requires Chain(ss, chain, p) && b < |chain| && key in Recorded(journals, ss[chain[b]].id)
    ensures a <= b && key in KeysOf(Charged(ss, chain[a], journals))
  {
    if c :| 0 <= c < b && key in Recorded(journals, ss[chain[c]].id) {
      a := EverythingCharged(ss, chain, p, journals, c, key);
    } else {
      a := b;
      ChargedToFirst(ss, chain, p, journals, b, key);
    }
  }
}
