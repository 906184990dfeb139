/** The grammar of the replies to an order message. */
module Replies {
  import opened Options
  import opened Orders
  import opened BookSpec

  /** Each fill is positive and brings what remains down by exactly its quantity, ending at `left`. */
  ghost predicate Telescopes(quantity: int, fills: seq<Body>, left: int) {
    if fills == [] then left == quantity
    else
      && fills[0].Fill? && 0 < fills[0].qty && 0 <= fills[0].remaining == quantity - fills[0].qty
      && Telescopes(fills[0].remaining, fills[1..], left)
  }

  /** The side of the book that an order message trades with. */
  function Facing(b: Book, m: Request): seq<Resting> { if m.side == "buy" then b.asks else b.bids }

  /** The price is beyond what a limit order accepts. */
  predicate Beyond(m: Request, p: real) { if m.side == "buy" then p > m.price else p < m.price }

  /** The fills are with the orders it faces, best first, at their prices, and all but the last use them up; a limit
      order never does worse than its limit. */
  ghost predicate AtMakerPrices(m: Request, q: seq<Resting>, fills: seq<Body>) {
    && |fills| <= |q|
    && forall i :: 0 <= i < |fills| ==>
         && fills[i].Fill? && fills[i].price == q[i].price && fills[i].qty <= q[i].remaining
         && (i < |fills| - 1 ==> fills[i].qty == q[i].remaining)
         && (m.kind == "limit" ==> !Beyond(m, fills[i].price))
  }

  /** What it would still have traded with is gone: a market order leaves something unfilled only when nothing is
      left on the side it faces, a limit order only when all that is left there is beyond its limit. */
  ghost predicate Exhausts(m: Request, q: seq<Resting>, left: int) {
    left > 0 ==>
      if m.kind == "market" then q == []
      else forall i :: 0 <= i < |q| ==> Beyond(m, q[i].price)
  }

  lemma {:induction false} WalkTelescopes(side: Side, kind: Kind, limit: real, want: int, q: seq<Resting>, now: int)
    requires GoodSide(side.Opposite(), q, now) && 0 <= want
    ensures var out := Walk(side, kind, limit, want, q);
            && Telescopes(want, Fills(out.trades), out.left)
            && forall i :: 0 <= i < |out.trades| ==> Crosses(side, kind, limit, out.trades[i].maker.price)
    decreases |q|, want
  {
    if want > 0 && q != [] && Crosses(side, kind, limit, q[0].price) {
      var t := FirstTrade(want, q);
      AfterTradeGood(side.Opposite(), q, t.qty, now);
      WalkTelescopes(side, kind, limit, t.remaining, AfterTrade(q, t.qty), now);
      var rest := Walk(side, kind, limit, t.remaining, AfterTrade(q, t.qty));
      assert Fills([t] + rest.trades) == [FillOf(t)] + Fills(rest.trades);
    }
  }

  /** A letter, a digit, a dash or a slash, by its ASCII code. */
  predicate IdCode(c: char) {
    var n := c as int; 65 <= n <= 90 || 97 <= n <= 122 || 48 <= n <= 57 || n == 45 || n == 47
  }

  ghost predicate WellNamed(m: Request) {
    && 1 <= |m.id| <= 64 && (forall i :: 0 <= i < |m.id| ==> IdCode(m.id[i]))
    && m.side in {"buy", "sell"} && m.kind in {"limit", "market"}
  }

  /** What the API contract asks of an order message. */
  ghost predicate WellFormed(m: Request) {
    WellNamed(m) && m.quantity > 0 && (m.kind == "limit" ==> m.price > 0.0)
  }

  /** The first thing wrong with an order message. */
  ghost function Fault(b: Book, m: Request): Reason
    requires !WellFormed(m) || Rests(b, m.id)
  {
    if !WellNamed(m) then InvalidOrder
    else if m.quantity <= 0 then InvalidQuantity
    else if !WellFormed(m) then InvalidPrice
    else DuplicateOrderId
  }

  lemma RefusedExactly(b: Book, m: Request)
    ensures Refused(b, m).Some? <==> !WellFormed(m) || Rests(b, m.id)
    ensures Refused(b, m).Some? ==> Refused(b, m).value == Fault(b, m)
  {
    OwnedExactly(b, "", m.id);
    assert forall i :: 0 <= i < |m.id| ==> (IdChar(m.id[i]) <==> IdCode(m.id[i]));
  }

  /** The fills, what remains after them, and the book they leave. */
  ghost predicate Answers(b: Book, m: Request, b': Book, replies: seq<Body>, fills: seq<Body>, left: int) {
    && replies == [Ack] + fills + (if m.kind == "market" && left > 0 then [Reject(NoLiquidity)] else [])
    && Telescopes(m.quantity, fills, left) && AtMakerPrices(m, Facing(b, m), fills) && Exhausts(m, Facing(b', m), left)
  }

  /** An order message that is malformed or whose id is in use is answered by one reject that says why; any other
      by an ack, fills that telescope down from its quantity at the prices of the best orders it faces, as far as
      there are any it accepts, and a no-liquidity reject exactly when it is a market order with something left. */
  lemma ResponseGrammar(b: Book, session: string, m: Request, stamp: int, now: int)
    requires Good(b, now)
    ensures var r := Submit(b, session, m, stamp);
            if !WellFormed(m) || Rests(b, m.id)
            then r.replies == [Reject(Fault(b, m))] && r.book == b
            else exists fills, left :: Answers(b, m, r.book, r.replies, fills, left)
  {
    RefusedExactly(b, m);
    if Refused(b, m).None? {
      var out, q, r := Matched(b, m), Facing(b, m), Submit(b, session, m, stamp);
      Accepted(b, session, m, stamp);
      WalkTelescopes(SideOf(m), KindOf(m), m.price, m.quantity, q, now);
      FillsAtMakers(b, m, now);
      LeavesNothing(b, session, m, stamp, now);
      assert r.replies == [Ack] + Fills(out.trades)
                          + (if m.kind == "market" && out.left > 0 then [Reject(NoLiquidity)] else []);
      assert Answers(b, m, r.book, r.replies, Fills(out.trades), out.left);
    }
  }

  lemma FillsAtMakers(b: Book, m: Request, now: int)
    requires Good(b, now) && Refused(b, m).None?
    ensures AtMakerPrices(m, Facing(b, m), Fills(Matched(b, m).trades))
  {
    var trades, q := Matched(b, m).trades, Facing(b, m);
    WalkTelescopes(SideOf(m), KindOf(m), m.price, m.quantity, q, now);
    forall i | 0 <= i < |trades|
      ensures |trades| <= |q| && trades[i].maker == q[i] && trades[i].qty <= q[i].remaining
      ensures i < |trades| - 1 ==> trades[i].qty == q[i].remaining
    {
      TradesInOrder(SideOf(m), KindOf(m), m.price, m.quantity, q, i);
      if i < |trades| - 1 {
        TradesInOrder(SideOf(m), KindOf(m), m.price, m.quantity, q, i + 1);
      }
    }
  }

  /** What an accepted order leaves on the side it faced. */
  lemma LeavesNothing(b: Book, session: string, m: Request, stamp: int, now: int)
    requires Good(b, now) && Refused(b, m).None?
    ensures Exhausts(m, Facing(Submit(b, session, m, stamp).book, m), Matched(b, m).left)
  {
    var out := Matched(b, m);
    Accepted(b, session, m, stamp);
    assert Facing(Submit(b, session, m, stamp).book, m) == out.queue;
    if out.left > 0 {
      WalkStops(SideOf(m), KindOf(m), m.price, m.quantity, Facing(b, m));
      forall i | 0 <= i < |out.queue| ensures m.kind == "limit" && Beyond(m, out.queue[i].price) {
        assert out.queue[i].price in Prices(out.queue);
      }
      assert out.queue != [] ==> Beyond(m, out.queue[0].price);
    }
  }
}
