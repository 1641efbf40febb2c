/** Spreading session costs over time: exact sums however divisions are rounded, and
    windows that partition. */
module Allocation {
  import opened Wrappers

  type Key = (string, string)

  datatype Response = Response(key: Key, cost: Option<real>, at: real)

  /** What the accounting knows of one session: its cost if it is settled, else what is
      certain so far, the responses of its journal, and its recorded interval. */
  datatype Conversation = Conversation(
    id: string,
    settled: bool,
    live: bool,
    charge: real,
    lower: real,
    responses: seq<Response>,
    started: real,
    finished: real)

  /** 0 completed, 1 live, 2 stopped but not settled. */
  datatype Kind = Completed | Live | StoppedOpen

  datatype Accrual = Accrual(id: string, start: real, finish: real, cost: real, kind: Kind)

  function KindOf(c: Conversation): Kind {
    if c.settled then Completed else if c.live then Live else StoppedOpen
  }

  function Max2(a: real, b: real): real {
    if a >= b then a else b
  }

  function PricedTotal(items: seq<Response>): real {
    if items == [] then 0.0 else PricedTotal(items[..|items| - 1]) + items[|items| - 1].cost.GetOr(0.0)
  }

  /** The cost that is spread: the settled one, or the largest that is certain. */
  function Value(c: Conversation, total: real): real {
    if c.settled then c.charge else Max2(Max2(c.charge, total), c.lower)
  }

  function SumCosts(rows: seq<Accrual>): real {
    if rows == [] then 0.0 else SumCosts(rows[..|rows| - 1]) + rows[|rows| - 1].cost
  }

  predicate Of(rows: seq<Accrual>, c: Conversation) {
    forall i :: 0 <= i < |rows| ==> rows[i].id == c.id && rows[i].kind == KindOf(c) && rows[i].start <= rows[i].finish
  }

  lemma SumAppend(rows: seq<Accrual>, row: Accrual)
    ensures SumCosts(rows + [row]) == SumCosts(rows) + row.cost
  {
    assert (rows + [row])[..|rows|] == rows;
  }

  lemma {:induction false} SumConcat(a: seq<Accrual>, b: seq<Accrual>)
    ensures SumCosts(a + b) == SumCosts(a) + SumCosts(b)
    decreases |b|
  {
    if b == [] {
      assert a + b == a;
    } else {
      assert (a + b)[..|a| + |b| - 1] == a + b[..|b| - 1];
      SumConcat(a, b[..|b| - 1]);
    }
  }

  /** Gives each response its part of the value. Every part but the last is rounded
      somehow; the last one takes what is left. */
  method Allocate(c: Conversation, priced: seq<Response>, value: real, total: real, rounded: real -> real)
    returns (rows: seq<Accrual>)
    requires priced != [] && total > 0.0
    ensures Allocates(rows, c, priced, value, total, rounded) && Of(rows, c) && SumCosts(rows) == value
  {
    rows := [];
    var given := 0.0;
    for i := 0 to |priced| - 1
      invariant |rows| == i && Of(rows, c) && SumCosts(rows) == given
      invariant forall j :: 0 <= j < i ==>
                  rows[j].start == priced[j].at && rows[j].cost == PartOf(value, priced[j], total, rounded)
    {
      var part := PartOf(value, priced[i], total, rounded);
      var row := Accrual(c.id, priced[i].at, priced[i].at, part, KindOf(c));
      SumAppend(rows, row);
      given := given + part;
      rows := rows + [row];
    }
    var last := Accrual(c.id, priced[|priced| - 1].at, priced[|priced| - 1].at, value - given, KindOf(c));
    SumAppend(rows, last);
    rows := rows + [last];
  }

  /** One row for each response at its own time, each but the last rounded. */
  predicate Allocates(rows: seq<Accrual>, c: Conversation, priced: seq<Response>, value: real, total: real,
                      rounded: real -> real)
    requires total > 0.0
  {
    && |rows| == |priced|
    && (forall i :: 0 <= i < |rows| ==> rows[i].start == priced[i].at)
    && (forall i :: 0 <= i < |rows| - 1 ==> rows[i].cost == PartOf(value, priced[i], total, rounded))
  }

  /** The rounded share of one response. */
  function PartOf(value: real, item: Response, total: real, rounded: real -> real): real
    requires total > 0.0
  {
    rounded(Proportion(value, item, total))
  }

  /** A response's share of the value, in proportion to its price. */
  function Proportion(value: real, item: Response, total: real): real
    requires total > 0.0
  {
    value * item.cost.GetOr(0.0) / total
  }

  function KeysOf(responses: seq<Response>): (keys: set<Key>)
    ensures forall i :: 0 <= i < |responses| ==> responses[i].key in keys
    ensures forall key :: key in keys ==> exists i :: 0 <= i < |responses| && responses[i].key == key
  {
    set i | 0 <= i < |responses| :: responses[i].key
  }

  /** The responses of a journal that no earlier session used, each once. */
  function Unused(responses: seq<Response>, used: set<Key>): seq<Response> {
    if responses == [] then []
    else
      var n := |responses| - 1;
      var init := Unused(responses[..n], used);
      if responses[n].key in used + KeysOf(responses[..n]) then init else init + [responses[n]]
  }

  /** A response is taken exactly when its key is not used and nothing before it in the
      journal has the same key. */
  lemma {:induction false} UnusedIsFirst(responses: seq<Response>, used: set<Key>, x: Response)
    ensures x in Unused(responses, used) <==> Taken(responses, used, x)
    decreases |responses|
  {
    if responses != [] {
      var n := |responses| - 1;
      UnusedIsFirst(responses[..n], used, x);
      NewKeyIsFirst(responses, used, n);
      FirstSplit(responses, used, x);
    }
  }

  /** Some response of the journal is this one, and the first with its key. */
  predicate Taken(responses: seq<Response>, used: set<Key>, x: Response) {
    exists i :: 0 <= i < |responses| && x == responses[i] && IsFirst(responses, used, i)
  }

  lemma FirstSplit(responses: seq<Response>, used: set<Key>, x: Response)
    requires responses != []
    ensures var n := |responses| - 1;
            Taken(responses, used, x) <==>
              Taken(responses[..n], used, x) || (x == responses[n] && IsFirst(responses, used, n))
  {
    var n := |responses| - 1;
    if Taken(responses, used, x) {
      var i :| 0 <= i < |responses| && x == responses[i] && IsFirst(responses, used, i);
      if i < n {
        FirstInPrefix(responses, used, n, i);
        assert responses[..n][i] == x;
      }
    }
    if Taken(responses[..n], used, x) {
      var i :| 0 <= i < n && x == responses[..n][i] && IsFirst(responses[..n], used, i);
      FirstInPrefix(responses, used, n, i);
      assert responses[i] == x;
    }
  }

  /** No new key is lost. */
  lemma {:induction false} UnusedKeys(responses: seq<Response>, used: set<Key>)
    ensures KeysOf(Unused(responses, used)) == KeysOf(responses) - used
    decreases |responses|
  {
    if responses != [] {
      var n := |responses| - 1;
      var init := Unused(responses[..n], used);
      UnusedKeys(responses[..n], used);
      KeysAppend(responses[..n], responses[n]);
      KeysAppend(init, responses[n]);
      assert responses[..n] + [responses[n]] == responses;
    }
  }

  /** No key is taken twice. */
  lemma {:induction false} UnusedDistinct(responses: seq<Response>, used: set<Key>, i: nat, j: nat)
    requires i < j < |Unused(responses, used)|
    ensures Unused(responses, used)[i].key != Unused(responses, used)[j].key
    decreases |responses|
  {
    var n := |responses| - 1;
    var init := Unused(responses[..n], used);
    if j < |init| {
      UnusedDistinct(responses[..n], used, i, j);
    } else {
      UnusedKeys(responses[..n], used);
      assert init[i].key in KeysOf(init);
    }
  }

  lemma KeysAppend(responses: seq<Response>, x: Response)
    ensures KeysOf(responses + [x]) == KeysOf(responses) + {x.key}
  {
    var all := responses + [x];
    forall key ensures key in KeysOf(all) <==> key in KeysOf(responses) + {x.key} {
      if key in KeysOf(all) {
        var i :| 0 <= i < |all| && all[i].key == key;
      }
      if key in KeysOf(responses) {
        var i :| 0 <= i < |responses| && responses[i].key == key;
        assert all[i].key == key;
      }
      assert all[|responses|].key == x.key;
    }
  }

  predicate IsFirst(responses: seq<Response>, used: set<Key>, i: nat)
    requires i < |responses|
  {
    responses[i].key !in used && forall j :: 0 <= j < i ==> responses[j].key != responses[i].key
  }

  lemma FirstInPrefix(responses: seq<Response>, used: set<Key>, n: nat, i: nat)
    requires i < n <= |responses|
    ensures IsFirst(responses, used, i) == IsFirst(responses[..n], used, i)
  {
    assert forall j :: 0 <= j <= i ==> responses[..n][j] == responses[j];
  }

  lemma NewKeyIsFirst(responses: seq<Response>, used: set<Key>, n: nat)
    requires n < |responses|
    ensures IsFirst(responses, used, n) <==> responses[n].key !in used + KeysOf(responses[..n])
  {
    assert forall j :: 0 <= j < n ==> responses[..n][j] == responses[j];
  }

  /** Takes the unused responses of a journal, and marks all of them as used. */
  method Claim(responses: seq<Response>, used: set<Key>) returns (items: seq<Response>, seen: set<Key>)
    ensures items == Unused(responses, used)
    ensures seen == used + KeysOf(responses)
  {
    items, seen := [], used;
    for i := 0 to |responses|
      invariant items == Unused(responses[..i], used)
      invariant seen == used + KeysOf(responses[..i])
    {
      assert responses[..i + 1] == responses[..i] + [responses[i]];
      KeysAppend(responses[..i], responses[i]);
      if responses[i].key !in seen {
        items := items + [responses[i]];
      }
      seen := seen + {responses[i].key};
    }
    assert responses[..|responses|] == responses;
  }

  function WithCost(items: seq<Response>): (priced: seq<Response>)
    ensures forall i :: 0 <= i < |priced| ==> priced[i] in items && priced[i].cost.Some?
  {
    if items == [] then []
    else
      var n := |items| - 1;
      WithCost(items[..n]) + (if items[n].cost.Some? then [items[n]] else [])
  }

  lemma {:induction false} PricedOnly(items: seq<Response>)
    ensures PricedTotal(WithCost(items)) == PricedTotal(items)
    decreases |items|
  {
    if items != [] {
      var n := |items| - 1;
      PricedOnly(items[..n]);
      var init := WithCost(items[..n]);
      if items[n].cost.Some? {
        assert (init + [items[n]])[..|init|] == init;
      } else {
        assert init + [] == init;
      }
    }
  }

  /** The rows of one conversation: its responses at their times, or without a priced
      response one row over its whole interval. */
  predicate Spreads(rows: seq<Accrual>, c: Conversation, items: seq<Response>, rounded: real -> real) {
    var total := PricedTotal(items);
    var value := Value(c, total);
    && Of(rows, c)
    && SumCosts(rows) == value
    && if total > 0.0 then Allocates(rows, c, WithCost(items), value, total, rounded)
       else if value > 0.0 then rows == [Accrual(c.id, c.started, Max2(c.started, c.finished), value, KindOf(c))]
       else rows == []
  }

  /** Every part happens to be exact. */
  predicate ExactParts(priced: seq<Response>, value: real, total: real, rounded: real -> real)
    requires total > 0.0
  {
    forall i :: 0 <= i < |priced| ==>
      PartOf(value, priced[i], total, rounded) == Proportion(value, priced[i], total)
  }

  /** This part of the value is to the value as the price is to the total. */
  predicate InProportion(part: real, price: real, value: real, total: real) {
    part * total == value * price
  }

  lemma ProportionFits(value: real, item: Response, total: real)
    requires total > 0.0
    ensures InProportion(Proportion(value, item, total), item.cost.GetOr(0.0), value, total)
  {
  }

  lemma {:induction false} SharesAdd(a: real, b: real, c: real, d: real, value: real, total: real)
    requires InProportion(a, c, value, total) && InProportion(b, d, value, total)
    ensures InProportion(a + b, c + d, value, total)
  {
  }

  lemma {:induction false} ShareLeft(a: real, b: real, c: real, d: real, value: real, total: real)
    requires InProportion(a, c, value, total) && a + b == value && c + d == total
    ensures InProportion(b, d, value, total)
  {
    assert value * total == a * total + b * total;
    assert value * total == value * c + value * d;
  }

  /** The first n rows are in proportion. */
  predicate ProportionalTo(rows: seq<Accrual>, priced: seq<Response>, value: real, total: real, n: nat) {
    && n <= |rows| && n <= |priced|
    && forall i :: 0 <= i < n ==> InProportion(rows[i].cost, priced[i].cost.GetOr(0.0), value, total)
  }

  lemma {:induction false} PrefixShares(rows: seq<Accrual>, priced: seq<Response>, value: real, total: real, n: nat)
    requires ProportionalTo(rows, priced, value, total, n)
    ensures InProportion(SumCosts(rows[..n]), PricedTotal(priced[..n]), value, total)
  {
    if n > 0 {
      PrefixShares(rows, priced, value, total, n - 1);
      assert rows[..n][..n - 1] == rows[..n - 1] && priced[..n][..n - 1] == priced[..n - 1];
      SharesAdd(SumCosts(rows[..n - 1]), rows[n - 1].cost, PricedTotal(priced[..n - 1]),
                priced[n - 1].cost.GetOr(0.0), value, total);
    }
  }

  lemma {:induction false} LastRow(rows: seq<Accrual>, priced: seq<Response>, value: real, total: real)
    requires |rows| == |priced| && rows != [] && ProportionalTo(rows, priced, value, total, |rows| - 1)
    requires SumCosts(rows) == value && PricedTotal(priced) == total
    ensures InProportion(rows[|rows| - 1].cost, priced[|rows| - 1].cost.GetOr(0.0), value, total)
  {
    var n := |rows| - 1;
    PrefixShares(rows, priced, value, total, n);
    ShareLeft(SumCosts(rows[..n]), rows[n].cost, PricedTotal(priced[..n]), priced[n].cost.GetOr(0.0), value, total);
  }

  lemma {:induction false} AllButLast(rows: seq<Accrual>, c: Conversation, priced: seq<Response>, value: real,
                                      total: real, rounded: real -> real)
    requires total > 0.0 && rows != [] && Allocates(rows, c, priced, value, total, rounded)
    requires ExactParts(priced, value, total, rounded)
    ensures ProportionalTo(rows, priced, value, total, |rows| - 1)
  {
    forall i | 0 <= i < |rows| - 1 ensures InProportion(rows[i].cost, priced[i].cost.GetOr(0.0), value, total) {
      ProportionFits(value, priced[i], total);
    }
  }

  /** Apart from rounding every response, the last one included, gets its part of the value
      in proportion to its price, at its own time. */
  lemma {:induction false} ProportionalRows(rows: seq<Accrual>, c: Conversation, items: seq<Response>,
                                            rounded: real -> real, i: nat)
    requires Spreads(rows, c, items, rounded) && PricedTotal(items) > 0.0 && i < |rows|
    requires ExactParts(WithCost(items), Value(c, PricedTotal(items)), PricedTotal(items), rounded)
    ensures |rows| == |WithCost(items)| && rows[i].start == WithCost(items)[i].at
    ensures InProportion(rows[i].cost, WithCost(items)[i].cost.GetOr(0.0), Value(c, PricedTotal(items)),
                         PricedTotal(items))
  {
    var total := PricedTotal(items);
    AllButLast(rows, c, WithCost(items), Value(c, total), total, rounded);
    if i == |rows| - 1 {
      PricedOnly(items);
      LastRow(rows, WithCost(items), Value(c, total), total);
    }
  }

  /** The value of a conversation, priced by its unused responses. */
  function Worth(c: Conversation, used: set<Key>): real {
    Value(c, PricedTotal(Unused(c.responses, used)))
  }

  /** The accruals of one conversation; a negative value is an error. */
  method Spread(c: Conversation, used: set<Key>, rounded: real -> real)
    returns (rows: Option<seq<Accrual>>, seen: set<Key>)
    ensures seen == used + KeysOf(c.responses)
    ensures rows.None? <==> Worth(c, used) < 0.0
    ensures rows.Some? ==> Spreads(rows.value, c, Unused(c.responses, used), rounded)
  {
    var items;
    items, seen := Claim(c.responses, used);
    var priced := WithCost(items);
    PricedOnly(items);
    var total := PricedTotal(priced);
    var value := Value(c, total);
    var made: seq<Accrual> := [];
    if total > 0.0 {
      made := Allocate(c, priced, value, total, rounded);
    } else if value > 0.0 {
      var row := Accrual(c.id, c.started, Max2(c.started, c.finished), value, KindOf(c));
      SumAppend([], row);
      made := [row];
      assert [] + [row] == [row];
    }
    rows := if value < 0.0 then None else Some(made);
  }

  /** The keys of all responses of these conversations. */
  function UsedBy(cs: seq<Conversation>): set<Key> {
    if cs == [] then {} else UsedBy(cs[..|cs| - 1]) + KeysOf(cs[|cs| - 1].responses)
  }

  /** The responses that conversation i claims after all earlier ones. */
  function Claimed(cs: seq<Conversation>, i: nat): seq<Response>
    requires i < |cs|
  {
    Unused(cs[i].responses, UsedBy(cs[..i]))
  }

  function ValueOf(cs: seq<Conversation>, i: nat): real
    requires i < |cs|
  {
    Worth(cs[i], UsedBy(cs[..i]))
  }

  lemma {:induction false} UsedByMeans(cs: seq<Conversation>, key: Key)
    ensures key in UsedBy(cs) <==> exists i :: 0 <= i < |cs| && key in KeysOf(cs[i].responses)
    decreases |cs|
  {
    if cs != [] {
      var n := |cs| - 1;
      UsedByMeans(cs[..n], key);
      assert forall i :: 0 <= i < n ==> cs[..n][i] == cs[i];
    }
  }

  /** Every recorded response is claimed by the first conversation that recorded its key,
      and by no other. */
  lemma ClaimedOnce(cs: seq<Conversation>, i: nat, key: Key)
    requires i < |cs|
    ensures key in KeysOf(Claimed(cs, i)) <==>
            && key in KeysOf(cs[i].responses)
            && forall j :: 0 <= j < i ==> key !in KeysOf(cs[j].responses)
  {
    UnusedKeys(cs[i].responses, UsedBy(cs[..i]));
    UsedByMeans(cs[..i], key);
    assert forall j :: 0 <= j < i ==> cs[..i][j] == cs[j];
  }

  function Joined(parts: seq<seq<Accrual>>): seq<Accrual> {
    if parts == [] then [] else Joined(parts[..|parts| - 1]) + parts[|parts| - 1]
  }

  /** Each conversation has its own rows. */
  predicate SpreadAll(parts: seq<seq<Accrual>>, cs: seq<Conversation>, rounded: real -> real) {
    && |parts| == |cs|
    && forall i :: 0 <= i < |cs| ==> Spreads(parts[i], cs[i], Claimed(cs, i), rounded)
  }

  lemma PrefixClaims(cs: seq<Conversation>, k: nat, i: nat)
    requires i < k <= |cs|
    ensures Claimed(cs[..k], i) == Claimed(cs, i) && ValueOf(cs[..k], i) == ValueOf(cs, i)
  {
    assert cs[..k][..i] == cs[..i];
  }

  lemma SpreadOneMore(parts: seq<seq<Accrual>>, cs: seq<Conversation>, k: nat, part: seq<Accrual>,
                      rounded: real -> real)
    requires k < |cs| && SpreadAll(parts, cs[..k], rounded) && Spreads(part, cs[k], Claimed(cs, k), rounded)
    ensures SpreadAll(parts + [part], cs[..k + 1], rounded)
    ensures Joined(parts + [part]) == Joined(parts) + part
  {
    assert (parts + [part])[..k] == parts;
    forall i | 0 <= i < k + 1
      ensures Spreads((parts + [part])[i], cs[..k + 1][i], Claimed(cs[..k + 1], i), rounded)
    {
      PrefixClaims(cs, k + 1, i);
      if i < k {
        PrefixClaims(cs, k, i);
      }
    }
  }

  /** One of the first k conversations has a negative value. */
  predicate SomeNegative(cs: seq<Conversation>, k: nat)
    requires k <= |cs|
  {
    exists i :: 0 <= i < k && ValueOf(cs, i) < 0.0
  }

  lemma OneMoreNegative(cs: seq<Conversation>, k: nat)
    requires k < |cs|
    ensures SomeNegative(cs, k + 1) <==> SomeNegative(cs, k) || Worth(cs[k], UsedBy(cs[..k])) < 0.0
    ensures SomeNegative(cs, k + 1) ==> SomeNegative(cs, |cs|)
  {
    var worth := ValueOf(cs, k);
    if worth < 0.0 {
      assert SomeNegative(cs, k + 1);
    }
  }

  /** All conversations, in the order of their start. It fails exactly when the value of
      some conversation is negative; otherwise the rows are those of each conversation
      in turn, from the responses that no earlier one used. */
  method Prepare(cs: seq<Conversation>, rounded: real -> real)
    returns (accruals: Option<seq<Accrual>>, parts: seq<seq<Accrual>>)
    ensures accruals.None? <==> SomeNegative(cs, |cs|)
    ensures accruals.Some? ==> SpreadAll(parts, cs, rounded) && accruals.value == Joined(parts)
  {
    var rows: seq<Accrual> := [];
    var seen: set<Key> := {};
    parts := [];
    for k := 0 to |cs|
      invariant seen == UsedBy(cs[..k])
      invariant SpreadAll(parts, cs[..k], rounded) && rows == Joined(parts)
      invariant !SomeNegative(cs, k)
    {
      assert cs[..k + 1][..k] == cs[..k];
      var made, now := Spread(cs[k], seen, rounded);
      OneMoreNegative(cs, k);
      if made.None? {
        return None, parts;
      }
      SpreadOneMore(parts, cs, k, made.value, rounded);
      rows, parts, seen := rows + made.value, parts + [made.value], now;
    }
    assert cs[..|cs|] == cs;
    accruals := Some(rows);
  }

  function TotalValue(cs: seq<Conversation>): real {
    if cs == [] then 0.0 else TotalValue(cs[..|cs| - 1]) + ValueOf(cs, |cs| - 1)
  }

  /** The accruals of all conversations add up to their values. */
  lemma {:induction false} AccrualsAddUp(parts: seq<seq<Accrual>>, cs: seq<Conversation>, rounded: real -> real)
    requires SpreadAll(parts, cs, rounded)
    ensures SumCosts(Joined(parts)) == TotalValue(cs)
    decreases |cs|
  {
    if cs != [] {
      var n := |cs| - 1;
      forall i | 0 <= i < n ensures Spreads(parts[..n][i], cs[..n][i], Claimed(cs[..n], i), rounded) {
        PrefixClaims(cs, n, i);
      }
      AccrualsAddUp(parts[..n], cs[..n], rounded);
      SumConcat(Joined(parts[..n]), parts[n]);
      assert Spreads(parts[n], cs[n], Claimed(cs, n), rounded);
    }
  }

  // ----------------------------------------------------------------- windows

  function Min2(a: real, b: real): real {
    if a <= b then a else b
  }

  /** The part of a cost over `whole` that belongs to `overlap`. */
  function PerTime(cost: real, overlap: real, whole: real): real
    requires whole != 0.0
  {
    cost * overlap / whole
  }

  /** The part of an accrual that falls into a window. */
  function Share(row: Accrual, since: real, now: real): real {
    if !(row.finish >= since && row.start <= now) then 0.0
    else if row.start == row.finish then row.cost
    else PerTime(row.cost, Max2(0.0, Min2(row.finish, now) - Max2(row.start, since)), row.finish - row.start)
  }

  /** The part that counts for one kind, or for all. */
  function Part(row: Accrual, since: real, now: real, kind: Option<Kind>): real {
    if kind == None || kind == Some(row.kind) then Share(row, since, now) else 0.0
  }

  function Windowed(rows: seq<Accrual>, since: real, now: real, kind: Option<Kind>): real {
    if rows == [] then 0.0
    else Windowed(rows[..|rows| - 1], since, now, kind) + Part(rows[|rows| - 1], since, now, kind)
  }

  lemma WindowedAppend(rows: seq<Accrual>, i: nat, since: real, now: real, kind: Option<Kind>)
    requires i < |rows|
    ensures Windowed(rows[..i + 1], since, now, kind) == Windowed(rows[..i], since, now, kind)
            + Part(rows[i], since, now, kind)
  {
    assert rows[..i + 1][..i] == rows[..i];
  }

  /** The part of one selected row that falls into the window. */
  method Overlapping(row: Accrual, since: real, now: real) returns (part: real)
    requires row.finish >= since && row.start <= now
    ensures part == Share(row, since, now)
  {
    part := 0.0;
    if row.start == row.finish {
      if since <= row.start <= now {
        part := row.cost;
      }
    } else {
      part := PerTime(row.cost, Max2(0.0, Min2(row.finish, now) - Max2(row.start, since)), row.finish - row.start);
    }
  }

  /** What accrued in a window, for one kind or for all. */
  method Accrued(rows: seq<Accrual>, since: real, now: real, kind: Option<Kind>) returns (total: real)
    ensures total == Windowed(rows, since, now, kind)
  {
    total := 0.0;
    for i := 0 to |rows|
      invariant total == Windowed(rows[..i], since, now, kind)
    {
      WindowedAppend(rows, i, since, now, kind);
      if rows[i].finish >= since && rows[i].start <= now && (kind == None || kind == Some(rows[i].kind)) {
        var part := Overlapping(rows[i], since, now);
        total := total + part;
      }
    }
    assert rows[..|rows|] == rows;
  }

  lemma PartsPartition(row: Accrual, since: real, now: real)
    ensures Part(row, since, now, Some(Completed)) + Part(row, since, now, Some(Live))
            + Part(row, since, now, Some(StoppedOpen))
         == Part(row, since, now, None)
  {
    var share := Share(row, since, now);
    match row.kind
    case Completed => assert Part(row, since, now, Some(Completed)) == share;
    case Live => assert Part(row, since, now, Some(Live)) == share;
    case StoppedOpen => assert Part(row, since, now, Some(StoppedOpen)) == share;
  }

  /** Completed, live and stopped accruals add up to the undivided total of any window. */
  lemma {:induction false} KindsPartition(rows: seq<Accrual>, since: real, now: real)
    ensures Windowed(rows, since, now, Some(Completed)) + Windowed(rows, since, now, Some(Live))
            + Windowed(rows, since, now, Some(StoppedOpen))
         == Windowed(rows, since, now, None)
    decreases |rows|
  {
    if rows != [] {
      KindsPartition(rows[..|rows| - 1], since, now);
      PartsPartition(rows[|rows| - 1], since, now);
    }
  }

  lemma WholeShare(row: Accrual, since: real, now: real)
    requires since <= row.start <= row.finish <= now
    ensures Share(row, since, now) == row.cost
  {
    if row.start != row.finish {
      var d := row.finish - row.start;
      assert Max2(0.0, Min2(row.finish, now) - Max2(row.start, since)) == d;
      WholeTime(row.cost, d);
    }
  }

  lemma WholeTime(cost: real, d: real)
    requires d != 0.0
    ensures PerTime(cost, d, d) == cost
  {
  }

  /** A window that covers every accrual recovers the sum of all session costs. */
  lemma {:induction false} WholeWindow(rows: seq<Accrual>, since: real, now: real)
    requires forall i :: 0 <= i < |rows| ==> since <= rows[i].start <= rows[i].finish <= now
    ensures Windowed(rows, since, now, None) == SumCosts(rows)
    decreases |rows|
  {
    if rows != [] {
      WholeWindow(rows[..|rows| - 1], since, now);
      WholeShare(rows[|rows| - 1], since, now);
    }
  }
}
