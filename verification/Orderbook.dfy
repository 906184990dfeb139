/** The order book and the sessions that drive it, proved to do what `BookSpec` says. */
module Engine {
  import opened Options
  import opened Orders
  import opened BookSpec
  import opened OrderHeaps
  import opened Clocks

  function Bodies(ms: seq<Message>): seq<Body> {
    seq(|ms|, i requires 0 <= i < |ms| => ms[i].body)
  }

  /** All about order `id`, with timestamps strictly increasing, later than `lo` and no later than `hi`. */
  ghost predicate Stamped(ms: seq<Message>, id: string, lo: int, hi: int) {
    && (forall i :: 0 <= i < |ms| ==> ms[i].id == id && lo < ms[i].timestamp <= hi)
    && (forall i, j :: 0 <= i < j < |ms| ==> ms[i].timestamp < ms[j].timestamp)
  }

  ghost function BestPrice(q: seq<Resting>): Option<real> {
    if q == [] then None else Some(q[0].price)
  }

  /** At most one more message, stamped after `t1` and at `t2`. */
  ghost predicate Follows(tail: seq<Message>, id: string, t1: int, t2: int) {
    (tail == [] && t2 == t1) || (|tail| == 1 && tail[0].id == id && t1 < tail[0].timestamp == t2)
  }

  /** An acknowledgement, fills and a possible refusal, each later than the one before. */
  lemma Sequence(ack: Message, fills: seq<Message>, tail: seq<Message>, t0: int, t1: int, t2: int)
    requires t0 < ack.timestamp <= t1 && Stamped(fills, ack.id, ack.timestamp, t1)
    requires Follows(tail, ack.id, t1, t2)
    ensures Stamped([ack] + fills + tail, ack.id, t0, t2)
    ensures Bodies([ack] + fills + tail) == [ack.body] + Bodies(fills) + Bodies(tail)
  {
  }

  /** Together they are what the specification says to an order it accepts. */
  lemma Answered(b: Book, session: string, m: Request, ack: Message, fills: seq<Message>, tail: seq<Message>,
                 t0: int, t1: int, t2: int)
    requires Refused(b, m).None? && ack.body == Ack && ack.id == m.id && t0 < ack.timestamp <= t1
    requires Stamped(fills, m.id, ack.timestamp, t1) && Follows(tail, m.id, t1, t2)
    requires Bodies(fills) == Fills(Matched(b, m).trades) && Bodies(tail) == Leftover(KindOf(m), Matched(b, m).left)
    ensures Stamped([ack] + fills + tail, m.id, t0, t2) && ([ack] + fills + tail)[0] == ack
    ensures Bodies([ack] + fills + tail) == Submit(b, session, m, ack.timestamp).replies
  {
    Sequence(ack, fills, tail, t0, t1, t2);
    Accepted(b, session, m, ack.timestamp);
  }

  /** An incoming order that is being matched: what it wants, and at what price. */
  datatype Taker = Taker(id: string, side: Side, kind: Kind, limit: real) {
    predicate Trades(want: int, q: seq<Resting>) {
      want > 0 && q != [] && Crosses(side, kind, limit, q[0].price)
    }
  }

  /** A match under way: the fills report the trades done, and these together with what the walk
      still does from here make up the whole walk. */
  ghost predicate Matching(all: Outcome, t: Taker, done: seq<Trade>, want: int, q: seq<Resting>,
                           fills: seq<Message>, lo: int, now: int)
  {
    var rest := Walk(t.side, t.kind, t.limit, want, q);
    && all == Outcome(done + rest.trades, rest.queue, rest.left)
    && Bodies(fills) == Fills(done) && Stamped(fills, t.id, lo, now) && lo <= now
  }

  lemma StampedAppend(ms: seq<Message>, m: Message, id: string, lo: int, hi: int)
    requires Stamped(ms, id, lo, hi) && lo <= hi < m.timestamp && m.id == id
    ensures Stamped(ms + [m], id, lo, m.timestamp)
  {
  }

  lemma BodiesAppend(ms: seq<Message>, m: Message, done: seq<Trade>, t: Trade)
    requires Bodies(ms) == Fills(done) && m.body == FillOf(t)
    ensures Bodies(ms + [m]) == Fills(done + [t])
  {
    assert Bodies(ms + [m]) == Bodies(ms) + [m.body];
    assert Fills(done + [t]) == Fills(done) + [FillOf(t)];
  }

  lemma Regroup(done: seq<Trade>, f: Trade, rest: seq<Trade>)
    ensures done + ([f] + rest) == done + [f] + rest
  {
  }

  lemma MatchingStep(all: Outcome, t: Taker, done: seq<Trade>, want: int, q: seq<Resting>,
                     fills: seq<Message>, lo: int, now: int, fill: Message)
    requires Matching(all, t, done, want, q, fills, lo, now) && t.Trades(want, q)
    requires fill.body == FillOf(FirstTrade(want, q)) && fill.id == t.id && fill.timestamp > now
    ensures var f := FirstTrade(want, q);
            && Matching(all, t, done + [f], f.remaining, AfterTrade(q, f.qty), fills + [fill], lo, fill.timestamp)
            && (|AfterTrade(q, f.qty)| < |q| || (|AfterTrade(q, f.qty)| == |q| && f.remaining == 0))
  {
    var f := FirstTrade(want, q);
    BodiesAppend(fills, fill, done, f);
    StampedAppend(fills, fill, t.id, lo, now);
    var rest := Walk(t.side, t.kind, t.limit, f.remaining, AfterTrade(q, f.qty));
    assert Walk(t.side, t.kind, t.limit, want, q) == Outcome([f] + rest.trades, rest.queue, rest.left);
    Regroup(done, f, rest.trades);
  }

  lemma MatchingEnd(all: Outcome, t: Taker, done: seq<Trade>, want: int, q: seq<Resting>,
                    fills: seq<Message>, lo: int, now: int)
    requires Matching(all, t, done, want, q, fills, lo, now) && !t.Trades(want, q)
    ensures all == Outcome(done, q, want)
    ensures Bodies(fills) == Fills(all.trades) && Stamped(fills, t.id, lo, now) && lo <= now
  {
  }

  function TakerOf(order: Order): Taker { Taker(order.id, order.side, order.kind, order.price) }

  /** How far a match that began on `book` at time `lo` has got: the trades done and the opposite side as they
      leave it; `all` is what the whole walk comes to. */
  datatype Progress = Progress(t: Taker, book: Book, lo: int, all: Outcome, done: seq<Trade>, queue: seq<Resting>) {
    ghost predicate Stands(t: Taker, want: int, b: Book, fills: seq<Message>, now: int) {
      && this.t == t && b == book.With(t.side.Opposite(), queue)
      && Matching(all, t, done, want, queue, fills, lo, now)
    }

    predicate Follows(m: Progress) { t == m.t && book == m.book && lo == m.lo && all == m.all }
  }

  ghost function Begin(t: Taker, want: int, b: Book, now: int): (m: Progress)
    ensures m.Stands(t, want, b, [], now)
  {
    var q := b.On(t.side.Opposite());
    Progress(t, b, now, Walk(t.side, t.kind, t.limit, want, q), [], q)
  }

  ghost function OrderIds(os: seq<Order>): set<string> { set i | 0 <= i < |os| :: os[i].id }

  lemma OrderIdsAppend(os: seq<Order>, o: Order)
    ensures OrderIds(os + [o]) == OrderIds(os) + {o.id}
  {
    var t := os + [o];
    assert t[|os|] == o && forall i :: 0 <= i < |os| ==> t[i] == os[i];
  }

  lemma OrderIdsPrefix(os: seq<Order>, i: nat)
    requires i < |os|
    ensures OrderIds(os[..i + 1]) == OrderIds(os[..i]) + {os[i].id}
  {
  }

  /** The map holds exactly the given orders, each under its own id. */
  ghost predicate ById(m: map<string, Order>, all: set<Order>) {
    && (forall id :: id in m ==> m[id].id == id && m[id] in all)
    && (forall o :: o in all ==> o.id in m && m[o.id] == o)
  }

  lemma ByIdRemove(m: map<string, Order>, all: set<Order>, x: Order)
    requires ById(m, all) && x in all
    ensures ById(m - {x.id}, all - {x})
  {
  }

  lemma ByIdAdd(m: map<string, Order>, all: set<Order>, x: Order)
    requires ById(m, all) && x.id !in m
    ensures ById(m[x.id := x], all + {x})
  {
  }

  class Orderbook {
    const bids: OrderHeap
    const asks: OrderHeap
    var orders: map<string, Order>

    constructor ()
      ensures Coherent() && Abs() == EmptyBook && fresh(bids) && fresh(asks)
    {
      bids := new OrderHeap(Buy);
      asks := new OrderHeap(Sell);
      orders := map[];
    }

    function Heap(side: Side): OrderHeap { if side.Buy? then bids else asks }

    ghost function Members(): set<Order>
      reads bids, asks
    {
      bids.members + asks.members
    }

    /** Both heaps are ordered and indexed, and the map holds exactly their orders by id. */
    ghost predicate Coherent()
      reads this, bids, asks, bids.members, asks.members
    {
      HeapsOk() && ById(orders, Members())
    }

    ghost predicate HeapsOk()
      reads this, bids, asks, bids.members, asks.members
    {
      bids.side.Buy? && asks.side.Sell? && bids.Valid() && bids.Beside(asks)
    }

    ghost function Abs(): Book
      reads bids, asks
    {
      Book(bids.contents, asks.contents)
    }

    /** Trade `qty` with the best bid and drop it when it is used up. */
    method TakeBid(qty: int)
      requires Coherent() && bids.elems != []
      modifies `orders, bids, bids.members
      ensures Coherent() && bids.members <= old(bids.members)
      ensures old(bids.contents) != [] && Abs() == Book(AfterTrade(old(bids.contents), qty), old(asks.contents))
    {
      var best := bids.TakeBest(qty, asks);
      if best.remaining == 0 {
        ByIdRemove(orders, old(Members()), best);
        orders := orders - {best.id};
        assert Members() == old(Members()) - {best};
      }
    }

    /** Trade `qty` with the best ask and drop it when it is used up. */
    method TakeAsk(qty: int)
      requires Coherent() && asks.elems != []
      modifies `orders, asks, asks.members
      ensures Coherent() && asks.members <= old(asks.members)
      ensures old(asks.contents) != [] && Abs() == Book(old(bids.contents), AfterTrade(old(asks.contents), qty))
    {
      var best := asks.TakeBest(qty, bids);
      if best.remaining == 0 {
        ByIdRemove(orders, old(Members()), best);
        orders := orders - {best.id};
        assert Members() == old(Members()) - {best};
      }
    }

    /** The best price on a side, if anything rests there. */
    function Best(side: Side): (price: Option<real>)
      requires Coherent()
      reads this, bids, asks, bids.members, asks.members
      ensures price == BestPrice(Abs().On(side))
    {
      var h := Heap(side);
      h.Head();
      if |h.elems| > 0 then Some(h.elems[0].price) else None
    }

    /** Take the next fill off the incoming order and report it. */
    method Report(order: Order, clock: Clock) returns (fill: Message)
      requires Coherent() && order !in Members() && Abs().On(order.side.Opposite()) != []
      modifies order`remaining, clock
      ensures Coherent() && old(clock.last) < clock.last
      ensures var t := FirstTrade(old(order.remaining), Abs().On(order.side.Opposite()));
              order.remaining == t.remaining && fill == Message(FillOf(t), order.id, clock.last)
    {
      var h := Heap(order.side.Opposite());
      h.Head();
      var best := h.elems[0];
      var qty := Min(order.remaining, best.remaining);
      order.remaining := order.remaining - qty;
      var reading: int := *;
      var ts := clock.Now(reading);
      fill := Message(Fill(qty, best.price, order.remaining), order.id, ts);
    }

    /** Trade `qty` with the best order of a side. */
    method Take(side: Side, qty: int)
      requires Coherent() && Abs().On(side) != []
      modifies `orders, bids, asks, Members()
      ensures Coherent() && Members() <= old(Members())
      ensures Abs() == old(Abs()).With(side, AfterTrade(old(Abs()).On(side), qty))
    {
      if side.Buy? {
        bids.Head();
        TakeBid(qty);
      } else {
        asks.Head();
        TakeAsk(qty);
      }
    }

    /** One execution of the incoming order against the best opposite order. */
    method Execute(order: Order, clock: Clock) returns (fill: Message)
      requires Coherent() && order !in Members() && Abs().On(order.side.Opposite()) != []
      modifies `orders, bids, asks, Members(), order`remaining, clock
      ensures Coherent() && Members() <= old(Members()) && old(clock.last) < clock.last
      ensures var q := old(Abs()).On(order.side.Opposite());
              var t := FirstTrade(old(order.remaining), q);
              && Abs() == old(Abs()).With(order.side.Opposite(), AfterTrade(q, t.qty))
              && order.remaining == t.remaining && fill == Message(FillOf(t), order.id, clock.last)
    {
      fill := Report(order, clock);
      Take(order.side.Opposite(), fill.body.qty);
    }

    /** One round of matching: the execution, and what it makes of the match under way. */
    method Round(order: Order, clock: Clock, fills: seq<Message>, ghost m: Progress)
      returns (more: seq<Message>, ghost m': Progress)
      requires Coherent() && order !in Members() && TakerOf(order).Trades(order.remaining, m.queue)
      requires m.Stands(TakerOf(order), order.remaining, Abs(), fills, clock.last)
      modifies `orders, bids, asks, Members(), order`remaining, clock
      ensures Coherent() && Members() <= old(Members())
      ensures m'.Stands(TakerOf(order), order.remaining, Abs(), more, clock.last)
      ensures m'.Follows(m) && (|m'.queue| < |m.queue| || (|m'.queue| == |m.queue| && order.remaining == 0))
    {
      ghost var want, now := order.remaining, clock.last;
      ghost var first := FirstTrade(want, m.queue);
      var fill := Execute(order, clock);
      MatchingStep(m.all, m.t, m.done, want, m.queue, fills, m.lo, now, fill);
      more := fills + [fill];
      m' := m.(done := m.done + [first], queue := AfterTrade(m.queue, first.qty));
    }

    /** Fill the incoming order against the opposite side as far as prices allow. */
    method Match(order: Order, clock: Clock) returns (fills: seq<Message>)
      requires Coherent() && order !in Members()
      modifies `orders, bids, asks, Members(), order`remaining, clock
      ensures Coherent() && Members() <= old(Members())
      ensures var opp := order.side.Opposite();
              var out := Walk(order.side, order.kind, order.price, old(order.remaining), old(Abs()).On(opp));
              && Abs() == old(Abs()).With(opp, out.queue)
              && order.remaining == out.left
              && Bodies(fills) == Fills(out.trades)
      ensures Stamped(fills, order.id, old(clock.last), clock.last) && old(clock.last) <= clock.last
    {
      fills := [];
      ghost var begun := Begin(TakerOf(order), order.remaining, Abs(), clock.last);
      ghost var m := begun;
      var best := Best(order.side.Opposite());
      while order.remaining > 0 && best.Some? && Crosses(order.side, order.kind, order.price, best.value)
        invariant Coherent() && Members() <= old(Members()) && best == BestPrice(m.queue)
        invariant m.Stands(TakerOf(order), order.remaining, Abs(), fills, clock.last) && m.Follows(begun)
        decreases |m.queue|, order.remaining
      {
        fills, m := Round(order, clock, fills, m);
        best := Best(order.side.Opposite());
      }
      MatchingEnd(m.all, m.t, m.done, order.remaining, m.queue, fills, m.lo, clock.last);
    }

    method RestBid(order: Order)
      requires HeapsOk() && order.side.Buy? && order.kind.Limit? && order !in Members()
      requires forall o :: o in Members() ==> o.enteredAt != order.enteredAt
      modifies bids, bids.members`index, order`index
      ensures HeapsOk() && Members() == old(Members()) + {order}
      ensures Abs() == Book(Insert(Buy, AsResting(order, order.remaining), old(bids.contents)), old(asks.contents))
    {
      bids.Enter(order, asks);
    }

    method RestAsk(order: Order)
      requires HeapsOk() && order.side.Sell? && order.kind.Limit? && order !in Members()
      requires forall o :: o in Members() ==> o.enteredAt != order.enteredAt
      modifies asks, asks.members`index, order`index
      ensures HeapsOk() && Members() == old(Members()) + {order}
      ensures Abs() == Book(old(bids.contents), Insert(Sell, AsResting(order, order.remaining), old(asks.contents)))
    {
      asks.Enter(order, bids);
    }

    /** Put what is left of a limit order on the book. */
    method Rest(order: Order)
      requires Coherent() && order !in Members() && order.id !in orders && order.kind.Limit?
      requires forall o :: o in Members() ==> o.enteredAt != order.enteredAt
      modifies `orders, bids, asks, Members()`index, order`index
      ensures Coherent() && Abs() == BookSpec.Rest(old(Abs()), AsResting(order, order.remaining))
      ensures Members() == old(Members()) + {order}
    {
      ByIdAdd(orders, Members(), order);
      orders := orders[order.id := order];
      if order.side.Buy? {
        RestBid(order);
      } else {
        RestAsk(order);
      }
    }

    method RemoveBid(order: Order)
      requires HeapsOk() && order in bids.members && forall o :: o in Members() && o != order ==> o.id != order.id
      modifies bids, bids.members`index
      ensures HeapsOk() && Members() == old(Members()) - {order}
      ensures Abs() == Book(Drop(old(bids.contents), {order.id}), old(asks.contents))
    {
      if 0 <= order.index < |bids.elems| {
        bids.Withdraw(order, asks);
      }
    }

    method RemoveAsk(order: Order)
      requires HeapsOk() && order in asks.members && forall o :: o in Members() && o != order ==> o.id != order.id
      modifies asks, asks.members`index
      ensures HeapsOk() && Members() == old(Members()) - {order}
      ensures Abs() == Book(old(bids.contents), Drop(old(asks.contents), {order.id}))
    {
      if 0 <= order.index < |asks.elems| {
        asks.Withdraw(order, bids);
      }
    }

    /** Take the order out of its heap. */
    method Extract(order: Order)
      requires HeapsOk() && order in Heap(order.side).members
      requires forall o :: o in Members() && o != order ==> o.id != order.id
      requires var other := Heap(order.side.Opposite()).contents; Drop(other, {order.id}) == other
      modifies bids, asks, Members()`index
      ensures HeapsOk() && Members() == old(Members()) - {order} && Abs() == DropBoth(old(Abs()), {order.id})
    {
      if order.side.Buy? {
        RemoveBid(order);
      } else {
        RemoveAsk(order);
      }
    }

    /** Take the named order, if there is one, out of the map and out of its heap. */
    method Remove(id: string)
      requires Coherent()
      modifies `orders, bids, asks, Members()`index
      ensures Coherent() && Members() <= old(Members()) && orders == old(orders) - {id}
      ensures Abs() == DropBoth(old(Abs()), {id})
    {
      MapIsBook();
      if id !in orders {
        DropNone(bids.contents, {id});
        DropNone(asks.contents, {id});
        assert orders - {id} == orders;
        return;
      }
      var order := orders[id];
      OneSide(order);
      ByIdRemove(orders, Members(), order);
      orders := orders - {id};
      Extract(order);
    }

    /** An order on the book is on its own side, and its id is not on the other. */
    lemma OneSide(order: Order)
      requires Coherent() && order in Members()
      ensures order in Heap(order.side).members
      ensures Drop(Heap(order.side.Opposite()).contents, {order.id}) == Heap(order.side.Opposite()).contents
    {
      var h := Heap(order.side.Opposite());
      forall i | 0 <= i < |h.contents| ensures h.contents[i].id != order.id {
        assert h.queue[i] in Members();
      }
      DropNone(h.contents, {order.id});
    }

    /** The map and the book hold the same orders, entered by the same sessions. */
    lemma MapIsBook()
      requires Coherent()
      ensures BookIds(Abs()) == orders.Keys
      ensures forall s :: Owned(Abs(), s) == set id | id in orders && orders[id].session == s
    {
    }

    /** Nothing on a good book entered after `now`. */
    lemma EnteredBy(now: int)
      requires Coherent() && Good(Abs(), now)
      ensures forall o :: o in Members() ==> o.enteredAt <= now
    {
    }

    /** The session's orders, in whatever order the map yields them. */
    method SessionOrders(session: string) returns (found: seq<Order>)
      requires Coherent()
      ensures OrderIds(found) == Owned(Abs(), session)
    {
      found := [];
      var keys := orders.Keys;
      while keys != {}
        invariant keys <= orders.Keys
        invariant forall id :: id in OrderIds(found) <==> id in orders.Keys - keys && orders[id].session == session
        decreases keys
      {
        var id :| id in keys;
        keys := keys - {id};
        if orders[id].session == session {
          assert orders[id].id == id;
          OrderIdsAppend(found, orders[id]);
          found := found + [orders[id]];
        }
      }
      MapIsBook();
    }

    method RemoveAll(toRemove: seq<Order>)
      requires Coherent()
      modifies `orders, bids, asks, Members()`index
      ensures Coherent() && Abs() == DropBoth(old(Abs()), OrderIds(toRemove)) && Members() <= old(Members())
    {
      DropBothNone(Abs());
      assert OrderIds(toRemove[..0]) == {};
      for i := 0 to |toRemove|
        invariant Coherent() && Members() <= old(Members())
        invariant Abs() == DropBoth(old(Abs()), OrderIds(toRemove[..i]))
      {
        Remove(toRemove[i].id);
        DropBothDrop(old(Abs()), OrderIds(toRemove[..i]), {toRemove[i].id});
        OrderIdsPrefix(toRemove, i);
      }
      assert toRemove[..|toRemove|] == toRemove;
    }

    /** Remove everything the session has on the book. */
    method CancelSession(session: string)
      requires Coherent()
      modifies `orders, bids, asks, Members()`index
      ensures Coherent() && Abs() == BookSpec.CancelSession(old(Abs()), session) && Members() <= old(Members())
    {
      var toRemove := SessionOrders(session);
      RemoveAll(toRemove);
    }
  }

  /** The book is coherent, and good as of what the clock says. */
  ghost predicate BookReady(ob: Orderbook, clock: Clock)
    reads ob, ob.bids, ob.asks, ob.bids.members, ob.asks.members, clock
  {
    ob.Coherent() && Good(ob.Abs(), clock.last)
  }

  /** One client connection. What it sends back is returned in the order it is sent. */
  class Session {
    const id: string
    const ob: Orderbook
    const clock: Clock

    constructor (id: string, ob: Orderbook, clock: Clock)
      ensures this.id == id && this.ob == ob && this.clock == clock
    {
      this.id, this.ob, this.clock := id, ob, clock;
    }

    ghost predicate Ready()
      reads ob, ob.bids, ob.asks, ob.bids.members, ob.asks.members, clock
    {
      BookReady(ob, clock)
    }

    method Stamp() returns (ts: int)
      requires Ready()
      modifies clock
      ensures Ready() && old(clock.last) < ts == clock.last
    {
      ghost var before := clock.last;
      var reading: int := *;
      ts := clock.Now(reading);
      GoodLater(ob.Abs(), before, ts);
    }

    method Reply(orderId: string, body: Body) returns (sent: seq<Message>)
      requires Ready()
      modifies clock
      ensures Ready() && old(clock.last) < clock.last
      ensures sent == [Message(body, orderId, clock.last)]
    {
      var ts := Stamp();
      sent := [Message(body, orderId, ts)];
    }

    method RemoveOwn(orderId: string)
      requires Ready()
      modifies ob`orders, ob.bids, ob.asks, ob.Members()`index
      ensures Ready() && ob.Abs() == DropBoth(old(ob.Abs()), {orderId}) && ob.Members() <= old(ob.Members())
    {
      DropBothGood(ob.Abs(), {orderId}, clock.last);
      ob.Remove(orderId);
    }

    method HandleCancel(orderId: string) returns (sent: seq<Message>)
      requires Ready()
      modifies ob`orders, ob.bids, ob.asks, ob.Members()`index, clock
      ensures Ready() && old(clock.last) < clock.last && ob.Members() <= old(ob.Members())
      ensures var (book, reply) := Cancel(old(ob.Abs()), id, orderId);
              ob.Abs() == book && sent == [Message(reply, orderId, clock.last)]
    {
      ob.MapIsBook();
      if orderId !in ob.orders {
        sent := Reply(orderId, Reject(UnknownOrder));
      } else if ob.orders[orderId].session != id {
        sent := Reply(orderId, Reject(Unauthorized));
      } else {
        RemoveOwn(orderId);
        sent := Reply(orderId, CancelAck);
      }
    }

    /** Make an order of the message, stamped later than everything on the book. */
    method Enlist(m: Request) returns (order: Order)
      requires Ready() && Refused(ob.Abs(), m).None?
      modifies clock
      ensures ob.Coherent() && fresh(order) && order !in ob.Members() && order.id !in ob.orders
      ensures forall o :: o in ob.Members() ==> o.enteredAt < order.enteredAt
      ensures order.id == m.id && order.side == SideOf(m) && order.kind == KindOf(m) && order.price == m.price
      ensures order.quantity == order.remaining == m.quantity && order.session == id
      ensures order.enteredAt == clock.last > old(clock.last)
    {
      ob.MapIsBook();
      ob.EnteredBy(clock.last);
      var reading: int := *;
      var ts := clock.Now(reading);
      order := new Order(m, id, ts);
    }

    /** Deal with what matching left over: a market order is refused the rest, a limit order rests. */
    method Settle(order: Order) returns (tail: seq<Message>)
      requires ob.Coherent() && order !in ob.Members() && order.id !in ob.orders
      requires forall o :: o in ob.Members() ==> o.enteredAt < order.enteredAt
      modifies ob`orders, ob.bids, ob.asks, ob.Members()`index, order`index, clock
      ensures ob.Coherent() && ob.Members() <= old(ob.Members()) + {order}
      ensures Follows(tail, order.id, old(clock.last), clock.last)
      ensures Bodies(tail) == Leftover(order.kind, order.remaining)
      ensures ob.Abs() == if order.kind.Limit? && order.remaining > 0
                          then Rest(old(ob.Abs()), AsResting(order, order.remaining)) else old(ob.Abs())
    {
      tail := [];
      if order.kind.Market? && order.remaining > 0 {
        var reading: int := *;
        var ts := clock.Now(reading);
        tail := [Message(Reject(NoLiquidity), order.id, ts)];
      } else if order.remaining > 0 {
        ob.Rest(order);
      }
    }

    /** Match an order that was just entered and deal with the rest of it. */
    method Complete(order: Order) returns (fills: seq<Message>, tail: seq<Message>, ghost matched: int)
      requires ob.Coherent() && order !in ob.Members() && order.id !in ob.orders
      requires forall o :: o in ob.Members() ==> o.enteredAt < order.enteredAt
      modifies ob`orders, ob.bids, ob.asks, ob.Members(), order`remaining, order`index, clock
      ensures ob.Coherent() && ob.Members() <= old(ob.Members()) + {order}
      ensures old(clock.last) <= matched
      ensures Stamped(fills, order.id, old(clock.last), matched) && Follows(tail, order.id, matched, clock.last)
      ensures var opp := order.side.Opposite();
              var out := Walk(order.side, order.kind, order.price, old(order.remaining), old(ob.Abs()).On(opp));
              var traded := old(ob.Abs()).With(opp, out.queue);
              && ob.Abs() == (if order.kind.Limit? && out.left > 0
                              then Rest(traded, AsResting(order, out.left)) else traded)
              && Bodies(fills) == Fills(out.trades) && Bodies(tail) == Leftover(order.kind, out.left)
    {
      ob.MapIsBook();
      fills := ob.Match(order, clock);
      matched := clock.last;
      StillUnknown(order, old(ob.Members()));
      tail := Settle(order);
    }

    /** Matching brings no id onto the book. */
    lemma StillUnknown(order: Order, before: set<Order>)
      requires ob.Coherent() && ob.Members() <= before && forall o :: o in before ==> o.id != order.id
      ensures order.id !in ob.orders
    {
    }

    /** An order message whose fields are in order and whose id is not in use. */
    method Accept(m: Request) returns (sent: seq<Message>)
      requires Ready() && Refused(ob.Abs(), m).None?
      modifies ob`orders, ob.bids, ob.asks, ob.Members(), clock
      ensures ob.Coherent() && sent != [] && Stamped(sent, m.id, old(clock.last), clock.last)
      ensures fresh(ob.Members() - old(ob.Members()))
      ensures var r := Submit(old(ob.Abs()), id, m, sent[0].timestamp);
              ob.Abs() == r.book && Bodies(sent) == r.replies
    {
      ghost var b, t0 := ob.Abs(), clock.last;
      var order := Enlist(m);
      var ack := Message(Ack, m.id, order.enteredAt);
      var fills, tail, t1 := Complete(order);
      sent := [ack] + fills + tail;
      Accepted(b, id, m, order.enteredAt);
      Answered(b, id, m, ack, fills, tail, t0, t1, clock.last);
    }

    method HandleOrder(m: Request) returns (sent: seq<Message>)
      requires Ready()
      modifies ob`orders, ob.bids, ob.asks, ob.Members(), clock
      ensures Ready() && sent != [] && Stamped(sent, m.id, old(clock.last), clock.last)
      ensures fresh(ob.Members() - old(ob.Members()))
      ensures var r := Submit(old(ob.Abs()), id, m, sent[0].timestamp);
              ob.Abs() == r.book && Bodies(sent) == r.replies
    {
      ob.MapIsBook();
      if Malformed(m).Some? {
        sent := Reply(m.id, Reject(Malformed(m).value));
      } else if m.id in ob.orders {
        sent := Reply(m.id, Reject(DuplicateOrderId));
      } else {
        ghost var b, before := ob.Abs(), clock.last;
        sent := Accept(m);
        SubmitGood(b, id, m, sent[0].timestamp, before);
        GoodLater(ob.Abs(), sent[0].timestamp, clock.last);
      }
    }

    /** Dispatch on the type of a message. */
    method Receive(kind: string, m: Request) returns (sent: seq<Message>)
      requires Ready()
      modifies ob`orders, ob.bids, ob.asks, ob.Members(), clock
      ensures Ready() && sent != [] && Stamped(sent, m.id, old(clock.last), clock.last)
      ensures fresh(ob.Members() - old(ob.Members()))
      ensures var b := old(ob.Abs());
              match kind
              case "order" =>
                var r := Submit(b, id, m, sent[0].timestamp);
                ob.Abs() == r.book && Bodies(sent) == r.replies
              case "cancel" => ob.Abs() == Cancel(b, id, m.id).0 && Bodies(sent) == [Cancel(b, id, m.id).1]
              case _ => ob.Abs() == b && Bodies(sent) == [Reject(UnknownType)]
    {
      match kind
      case "order" => sent := HandleOrder(m);
      case "cancel" => sent := HandleCancel(m.id);
      case _ => sent := Reply(m.id, Reject(UnknownType));
    }

    /** The connection is gone: everything the session has on the book is cancelled. */
    method Close()
      requires Ready()
      modifies ob`orders, ob.bids, ob.asks, ob.Members()`index
      ensures Ready() && ob.Abs() == CancelSession(old(ob.Abs()), id) && ob.Members() <= old(ob.Members())
    {
      DropBothGood(ob.Abs(), Owned(ob.Abs(), id), clock.last);
      ob.CancelSession(id);
    }
  }
}
