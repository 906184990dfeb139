/** The aggregated book that `GET /orderbook` returns. */
module Snapshot {
  import opened Orders
  import opened BookSpec
  import opened OrderHeaps
  import opened Engine

  datatype PriceLevel = PriceLevel(price: real, quantity: int)

  predicate Ahead(side: Side, p: real, p': real) { if side.Buy? then p > p' else p < p' }

  /** What rests at price `p`. */
  function DepthAt(q: seq<Resting>, p: real): int {
    if q == [] then 0 else (if q[0].price == p then q[0].remaining else 0) + DepthAt(q[1..], p)
  }

  function Total(ls: seq<PriceLevel>): int { if ls == [] then 0 else ls[0].quantity + Total(ls[1..]) }

  ghost predicate Ranked(side: Side, ls: seq<PriceLevel>) {
    forall i, j :: 0 <= i < j < |ls| ==> Ahead(side, ls[i].price, ls[j].price)
  }

  function LevelPrices(ls: seq<PriceLevel>): set<real> { set i | 0 <= i < |ls| :: ls[i].price }

  /** Levels from the best price on, one for each resting price, each with all that rests there. */
  ghost predicate IsSnapshot(side: Side, q: seq<Resting>, ls: seq<PriceLevel>) {
    && Ranked(side, ls) && (forall p :: p in LevelPrices(ls) <==> p in Prices(q))
    && forall i :: 0 <= i < |ls| ==> ls[i].quantity == DepthAt(q, ls[i].price) > 0
  }

  // ---------- The same orders in another order ----------

  /** What rests at price `p` among the orders themselves. */
  ghost function RestingAt(os: seq<Order>, p: real): int
    reads os
  {
    if os == [] then 0
    else RestingAt(os[..|os| - 1], p)
         + (if os[|os| - 1].price == p then os[|os| - 1].remaining else 0)
  }

  lemma {:induction false} RestingSplit(a: seq<Order>, b: seq<Order>, p: real)
    ensures RestingAt(a + b, p) == RestingAt(a, p) + RestingAt(b, p)
  {
    if b == [] {
      assert a + b == a;
    } else {
      RestingSplit(a, b[..|b| - 1], p);
      assert (a + b)[..|a + b| - 1] == a + b[..|b| - 1];
    }
  }

  /** The sum does not depend on the order in which the orders are listed. */
  lemma {:induction false} RestingPermuted(a: seq<Order>, b: seq<Order>, p: real)
    requires multiset(a) == multiset(b)
    ensures RestingAt(a, p) == RestingAt(b, p)
    decreases |a|
  {
    assert |a| == |multiset(a)| && |b| == |multiset(b)|;
    if a != [] {
      var x, a' := a[|a| - 1], a[..|a| - 1];
      assert a == a' + [x];
      assert x in multiset(b);
      var k :| 0 <= k < |b| && b[k] == x;
      RestingWithout(b, k, p);
      assert multiset(a') == multiset(a) - multiset{x};
      RestingPermuted(a', b[..k] + b[k + 1..], p);
    }
  }

  lemma RestingWithout(b: seq<Order>, k: nat, p: real)
    requires k < |b|
    ensures multiset(b[..k] + b[k + 1..]) == multiset(b) - multiset{b[k]}
    ensures RestingAt(b, p) == RestingAt(b[..k] + b[k + 1..], p) + if b[k].price == p then b[k].remaining else 0
  {
    var x, u, v := b[k], b[..k], b[k + 1..];
    assert b == u + ([x] + v);
    RestingSplit(u, [x] + v, p);
    RestingSplit([x], v, p);
    RestingSplit(u, v, p);
    assert [x][..0] == [];
  }

  ghost predicate Distinct(a: seq<Order>) {
    forall i, j :: 0 <= i < j < |a| ==> a[i] != a[j]
  }

  lemma {:induction false} DistinctCount(a: seq<Order>, x: Order)
    requires Distinct(a)
    ensures multiset(a)[x] == if x in a then 1 else 0
  {
    if a != [] {
      DistinctCount(a[1..], x);
      assert a == [a[0]] + a[1..];
      assert forall j :: 0 < j < |a| ==> a[0] != a[j];
    }
  }

  lemma DistinctPermuted(a: seq<Order>, b: seq<Order>)
    requires Distinct(a) && Distinct(b)
    requires (forall i :: 0 <= i < |a| ==> a[i] in b) && (forall i :: 0 <= i < |b| ==> b[i] in a)
    ensures multiset(a) == multiset(b)
  {
    forall x: Order ensures multiset(a)[x] == multiset(b)[x] {
      DistinctCount(a, x);
      DistinctCount(b, x);
    }
  }

  /** What rests in a heap at price `p` is what rests there by priority. */
  lemma HeapDepth(h: OrderHeap, p: real)
    requires h.Valid()
    ensures RestingAt(h.elems, p) == DepthAt(h.contents, p)
  {
    assert forall i, j :: 0 <= i < j < |h.queue| ==> Less(h.side, h.queue[i], h.queue[j]);
    assert forall i :: 0 <= i < |h.queue| ==> h.queue[i] in h.members;
    DistinctPermuted(h.elems, h.queue);
    RestingPermuted(h.elems, h.queue, p);
    RestingMirrors(h.queue, h.contents, p);
  }

  lemma {:induction false} RestingMirrors(os: seq<Order>, c: seq<Resting>, p: real)
    requires Mirrors(c, os)
    ensures RestingAt(os, p) == DepthAt(c, p)
  {
    if os != [] {
      RestingSplit(os[..1], os[1..], p);
      assert os == os[..1] + os[1..] && os[..1][..0] == [];
      RestingMirrors(os[1..], c[1..], p);
    }
  }

  // ---------- Building the levels ----------

  function InsertLevel(side: Side, x: PriceLevel, ls: seq<PriceLevel>): seq<PriceLevel> {
    if ls == [] || Ahead(side, x.price, ls[0].price) then [x] + ls else [ls[0]] + InsertLevel(side, x, ls[1..])
  }

  lemma {:induction false} InsertLevelMembers(side: Side, x: PriceLevel, ls: seq<PriceLevel>)
    ensures forall l :: l in InsertLevel(side, x, ls) <==> l == x || l in ls
  {
    if ls == [] || Ahead(side, x.price, ls[0].price) {
    } else {
      InsertLevelMembers(side, x, ls[1..]);
      assert ls == [ls[0]] + ls[1..];
    }
  }

  lemma {:induction false} InsertLevelRanked(side: Side, x: PriceLevel, ls: seq<PriceLevel>)
    requires Ranked(side, ls) && x.price !in LevelPrices(ls)
    ensures Ranked(side, InsertLevel(side, x, ls))
  {
    if ls == [] {
    } else if Ahead(side, x.price, ls[0].price) {
      assert forall j :: 0 < j < |ls| ==> Ahead(side, ls[0].price, ls[j].price);
    } else {
      assert ls[0].price in LevelPrices(ls);
      var t := InsertLevel(side, x, ls[1..]);
      assert forall i :: 0 <= i < |ls[1..]| ==> ls[1..][i] == ls[i + 1];
      assert LevelPrices(ls[1..]) <= LevelPrices(ls);
      InsertLevelRanked(side, x, ls[1..]);
      InsertLevelMembers(side, x, ls[1..]);
      forall j | 0 <= j < |t| ensures Ahead(side, ls[0].price, t[j].price) {
        assert t[j] in t;
        assert t[j] == x || t[j] in ls[1..];
      }
    }
  }

  /** Add up the heap by price. */
  method Aggregate(h: OrderHeap) returns (m: map<real, int>)
    requires h.Valid()
    ensures forall p :: p in m <==> p in Prices(h.contents)
    ensures forall p :: p in m ==> m[p] == DepthAt(h.contents, p)
  {
    m := map[];
    for i := 0 to |h.elems|
      invariant forall p :: p in m <==> exists k :: 0 <= k < i && h.elems[k].price == p
      invariant forall p :: p in m ==> m[p] == RestingAt(h.elems[..i], p)
      invariant forall p :: p !in m ==> RestingAt(h.elems[..i], p) == 0
    {
      var o := h.elems[i];
      assert h.elems[..i + 1][..i] == h.elems[..i];
      m := m[o.price := (if o.price in m then m[o.price] else 0) + o.remaining];
    }
    assert h.elems[..|h.elems|] == h.elems;
    forall p | p in m ensures m[p] == DepthAt(h.contents, p) {
      HeapDepth(h, p);
    }
    SamePrices(h);
    assert forall p :: p in m <==> p in OrderPrices(h.elems);
  }

  ghost function OrderPrices(os: seq<Order>): set<real> { set i | 0 <= i < |os| :: os[i].price }

  lemma SamePrices(h: OrderHeap)
    requires h.Valid()
    ensures OrderPrices(h.elems) == Prices(h.contents)
  {
  }

  /** List the map, in whatever order it yields its entries, with the best price first. */
  method Arrange(side: Side, m: map<real, int>) returns (ls: seq<PriceLevel>)
    ensures Ranked(side, ls) && forall p :: p in LevelPrices(ls) <==> p in m
    ensures forall i :: 0 <= i < |ls| ==> ls[i].price in m && ls[i].quantity == m[ls[i].price]
  {
    ls := [];
    var items := m.Items;
    while items != {}
      invariant items <= m.Items && Ranked(side, ls)
      invariant forall p :: p in LevelPrices(ls) <==> p in m && (p, m[p]) !in items
      invariant forall l :: l in ls ==> l.price in m && l.quantity == m[l.price]
      decreases items
    {
      var item :| item in items;
      items := items - {item};
      var x := PriceLevel(item.0, item.1);
      InsertLevelRanked(side, x, ls);
      InsertLevelMembers(side, x, ls);
      PricesOf(side, x, ls);
      ls := InsertLevel(side, x, ls);
    }
  }

  lemma PricesOf(side: Side, x: PriceLevel, ls: seq<PriceLevel>)
    ensures LevelPrices(InsertLevel(side, x, ls)) == LevelPrices(ls) + {x.price}
  {
    var t := InsertLevel(side, x, ls);
    InsertLevelMembers(side, x, ls);
    assert forall l :: l in t ==> l.price in LevelPrices(t);
    assert x in t && x.price in LevelPrices(t);
    forall i | 0 <= i < |ls| ensures ls[i].price in LevelPrices(t) {
      assert ls[i] in t;
    }
    forall i | 0 <= i < |t| ensures t[i].price in LevelPrices(ls) + {x.price} {
      assert t[i] in t;
    }
  }

  /** One side of the snapshot, for a side on which everything that rests is positive. */
  method Levels(h: OrderHeap) returns (ls: seq<PriceLevel>)
    requires h.Valid() && forall i :: 0 <= i < |h.contents| ==> 0 < h.contents[i].remaining
    ensures IsSnapshot(h.side, h.contents, ls) && Total(ls) == Depth(h.contents)
  {
    var m := Aggregate(h);
    ls := Arrange(h.side, m);
    forall i | 0 <= i < |ls| ensures ls[i].quantity == DepthAt(h.contents, ls[i].price) > 0 {
      PositiveDepth(h.contents, ls[i].price);
    }
    TotalIsDepth(h.side, h.contents, ls);
  }

  /** The snapshot of the whole book. */
  method Of(ob: Orderbook, ghost now: int) returns (bids: seq<PriceLevel>, asks: seq<PriceLevel>)
    requires ob.Coherent() && Good(ob.Abs(), now)
    ensures IsSnapshot(Buy, ob.Abs().bids, bids) && Total(bids) == Depth(ob.Abs().bids)
    ensures IsSnapshot(Sell, ob.Abs().asks, asks) && Total(asks) == Depth(ob.Abs().asks)
    ensures forall i, j :: 0 <= i < j < |bids| ==> bids[i].price > bids[j].price
    ensures forall i, j :: 0 <= i < j < |asks| ==> asks[i].price < asks[j].price
  {
    bids := Levels(ob.bids);
    asks := Levels(ob.asks);
  }

  lemma {:induction false} PositiveDepth(q: seq<Resting>, p: real)
    requires forall i :: 0 <= i < |q| ==> 0 < q[i].remaining
    ensures DepthAt(q, p) >= 0 && (p in Prices(q) ==> DepthAt(q, p) > 0)
  {
    if q != [] {
      PositiveDepth(q[1..], p);
      assert forall i :: 0 < i < |q| ==> q[i] == q[1..][i - 1];
    }
  }

  // ---------- Nothing is counted twice or left out ----------

  /** The queue without what rests at price `p`. */
  function Off(q: seq<Resting>, p: real): seq<Resting> {
    if q == [] then [] else (if q[0].price == p then [] else [q[0]]) + Off(q[1..], p)
  }

  lemma {:induction false} OffDepth(q: seq<Resting>, p: real)
    ensures Depth(q) == DepthAt(q, p) + Depth(Off(q, p))
    ensures forall p' :: p' != p ==> DepthAt(Off(q, p), p') == DepthAt(q, p')
    ensures Prices(Off(q, p)) == Prices(q) - {p}
  {
    if q != [] {
      OffDepth(q[1..], p);
      var t := Off(q[1..], p);
      assert [] + t == t && ([q[0]] + t)[1..] == t;
      PricesCons(q[0], q[1..]);
      PricesCons(q[0], t);
      assert q == [q[0]] + q[1..];
    }
  }

  lemma PricesCons(x: Resting, q: seq<Resting>)
    ensures Prices([x] + q) == {x.price} + Prices(q)
  {
    var t := [x] + q;
    assert t[0] == x && forall i :: 0 <= i < |q| ==> q[i] == t[i + 1];
  }

  /** The levels of a snapshot add up to the depth of the side. */
  lemma {:induction false} TotalIsDepth(side: Side, q: seq<Resting>, ls: seq<PriceLevel>)
    requires Ranked(side, ls) && forall p :: p in LevelPrices(ls) <==> p in Prices(q)
    requires forall i :: 0 <= i < |ls| ==> ls[i].quantity == DepthAt(q, ls[i].price)
    ensures Total(ls) == Depth(q)
    decreases |ls|
  {
    assert forall i :: 0 <= i < |q| ==> q[i].price in Prices(q);
    if ls != [] {
      var p, t := ls[0].price, ls[1..];
      OffDepth(q, p);
      assert forall i :: 0 <= i < |t| ==> t[i] == ls[i + 1] && t[i].price != p;
      assert forall i :: 0 < i < |ls| ==> ls[i] == t[i - 1];
      assert forall p' :: p' in LevelPrices(t) <==> p' in Prices(Off(q, p));
      TotalIsDepth(side, Off(q, p), t);
    }
  }
}
