/** The simple specification of the matching engine: each side of the book is a list in
    priority order, and an incoming order walks greedily down the opposite list. */
module BookSpec {
  import opened Options
  import opened Orders

  datatype Book = Book(bids: seq<Resting>, asks: seq<Resting>) {
    function On(s: Side): seq<Resting> { if s.Buy? then bids else asks }
    function With(s: Side, q: seq<Resting>): Book {
      if s.Buy? then Book(q, asks) else Book(bids, q)
    }
  }

  const EmptyBook := Book([], [])

  // ---------- Operations ----------

  /** One execution: the resting order as it stood, the amount, and what the incoming order still wants. */
  datatype Trade = Trade(maker: Resting, qty: int, remaining: int)

  /** The first trade of an order that wants `want` with queue `q`. */
  function FirstTrade(want: int, q: seq<Resting>): Trade
    requires q != []
  {
    var qty := Min(want, q[0].remaining);
    Trade(q[0], qty, want - qty)
  }

  datatype Outcome = Outcome(trades: seq<Trade>, queue: seq<Resting>, left: int)

  /** Trade with the head of the queue as long as it crosses. */
  function Walk(side: Side, kind: Kind, limit: real, want: int, q: seq<Resting>): Outcome
    decreases |q|, if want > 0 then want else 0
  {
    if want <= 0 || q == [] || !Crosses(side, kind, limit, q[0].price) then Outcome([], q, want)
    else
      var t := FirstTrade(want, q);
      var rest := Walk(side, kind, limit, t.remaining, AfterTrade(q, t.qty));
      Outcome([t] + rest.trades, rest.queue, rest.left)
  }

  /** The queue once its head has given up `qty`: a head with nothing left is removed. */
  function AfterTrade(q: seq<Resting>, qty: int): seq<Resting>
    requires q != []
  {
    if q[0].remaining == qty then q[1..]
    else [q[0].(remaining := q[0].remaining - qty)] + q[1..]
  }

  /** Enter `x` behind everything that has priority over it. */
  function Insert(side: Side, x: Resting, q: seq<Resting>): seq<Resting> {
    if q == [] || Before(side, x, q[0]) then [x] + q else [q[0]] + Insert(side, x, q[1..])
  }

  /** The queue without the orders named in `ids`. */
  function Drop(q: seq<Resting>, ids: set<string>): seq<Resting> {
    if q == [] then [] else (if q[0].id in ids then [] else [q[0]]) + Drop(q[1..], ids)
  }

  function DropBoth(b: Book, ids: set<string>): Book {
    Book(Drop(b.bids, ids), Drop(b.asks, ids))
  }

  function Ids(q: seq<Resting>): set<string> { set i | 0 <= i < |q| :: q[i].id }

  function Prices(q: seq<Resting>): set<real> { set i | 0 <= i < |q| :: q[i].price }

  function BookIds(b: Book): set<string> { Ids(b.bids) + Ids(b.asks) }

  function SessionIds(q: seq<Resting>, session: string): set<string> {
    set i | 0 <= i < |q| && q[i].session == session :: q[i].id
  }

  function Owned(b: Book, session: string): set<string> {
    SessionIds(b.bids, session) + SessionIds(b.asks, session)
  }

  /** What one order message does: the new book, the replies, the trades and the unfilled amount. */
  datatype Submitted = Submitted(book: Book, replies: seq<Body>, trades: seq<Trade>, accepted: int, unfilled: int)

  function Refused(b: Book, m: Request): Option<Reason> {
    if Malformed(m).Some? then Malformed(m)
    else if m.id in BookIds(b) then Some(DuplicateOrderId)
    else None
  }

  function Matched(b: Book, m: Request): Outcome {
    Walk(SideOf(m), KindOf(m), m.price, m.quantity, b.On(SideOf(m).Opposite()))
  }

  function Fills(trades: seq<Trade>): seq<Body> {
    seq(|trades|, i requires 0 <= i < |trades| => FillOf(trades[i]))
  }

  /** Fills happen at the price of the resting order. */
  function FillOf(t: Trade): Body { Fill(t.qty, t.maker.price, t.remaining) }

  function Submit(b: Book, session: string, m: Request, stamp: int): Submitted {
    if Refused(b, m).Some? then Submitted(b, [Reject(Refused(b, m).value)], [], 0, 0)
    else
      var out := Matched(b, m);
      var traded := b.With(SideOf(m).Opposite(), out.queue);
      var replies := [Ack] + Fills(out.trades);
      if out.left <= 0 then Submitted(traded, replies, out.trades, m.quantity, 0)
      else if KindOf(m).Market? then
        Submitted(traded, replies + [Reject(NoLiquidity)], out.trades, m.quantity, out.left)
      else
        Submitted(Rest(traded, NewResting(m, session, stamp, out.left)), replies, out.trades, m.quantity, 0)
  }

  /** A market order is refused what it could not fill. */
  function Leftover(kind: Kind, left: int): seq<Body> {
    if kind.Market? && left > 0 then [Reject(NoLiquidity)] else []
  }

  /** The three ways an accepted order ends, in one formula. */
  lemma Accepted(b: Book, session: string, m: Request, stamp: int)
    requires Refused(b, m).None?
    ensures var out := Matched(b, m);
            var traded := b.With(SideOf(m).Opposite(), out.queue);
            var r := Submit(b, session, m, stamp);
            && r.book == (if KindOf(m).Limit? && out.left > 0
                          then Rest(traded, NewResting(m, session, stamp, out.left)) else traded)
            && r.replies == [Ack] + Fills(out.trades)
                            + Leftover(KindOf(m), out.left)
            && r.trades == out.trades && r.accepted == m.quantity
            && r.unfilled == if KindOf(m).Market? && out.left > 0 then out.left else 0
  {
  }

  function NewResting(m: Request, session: string, stamp: int, left: int): Resting {
    Resting(m.id, SideOf(m), m.price, m.quantity, left, stamp, session)
  }

  function Rest(b: Book, x: Resting): Book {
    b.With(x.side, Insert(x.side, x, b.On(x.side)))
  }

  /** A cancel names an order; only the session that entered it may remove it. */
  function Cancel(b: Book, session: string, id: string): (Book, Body) {
    if id !in BookIds(b) then (b, Reject(UnknownOrder))
    else if id !in Owned(b, session) then (b, Reject(Unauthorized))
    else (DropBoth(b, {id}), CancelAck)
  }

  function CancelSession(b: Book, session: string): Book {
    DropBoth(b, Owned(b, session))
  }

  /** All that rests in a queue. */
  function Depth(q: seq<Resting>): int { if q == [] then 0 else q[0].remaining + Depth(q[1..]) }

  // ---------- Well-formed books ----------

  ghost predicate Sorted(side: Side, q: seq<Resting>) {
    forall i, j :: 0 <= i < j < |q| ==> Before(side, q[i], q[j])
  }

  ghost predicate UniqueIds(q: seq<Resting>) {
    forall i, j :: 0 <= i < j < |q| ==> q[i].id != q[j].id
  }

  ghost predicate GoodOrder(side: Side, r: Resting, now: int) {
    r.side == side && r.price > 0.0 && 0 < r.remaining <= r.quantity && r.enteredAt <= now && ValidId(r.id)
  }

  /** A side of the book, as far as matching depends on it. */
  ghost predicate Queue(side: Side, q: seq<Resting>) {
    Sorted(side, q) && forall i :: 0 <= i < |q| ==> 0 < q[i].remaining
  }

  ghost predicate GoodSide(side: Side, q: seq<Resting>, now: int) {
    && Sorted(side, q) && UniqueIds(q)
    && (forall i :: 0 <= i < |q| ==> GoodOrder(side, q[i], now))
  }

  ghost predicate Uncrossed(b: Book) {
    forall p, p' :: p in Prices(b.bids) && p' in Prices(b.asks) ==> p < p'
  }

  /** Every order on the book entered no later than `now`. */
  ghost predicate Good(b: Book, now: int) {
    && GoodSide(Buy, b.bids, now) && GoodSide(Sell, b.asks, now)
    && Ids(b.bids) !! Ids(b.asks)
    && Uncrossed(b)
  }

  // ---------- The walk ----------

  lemma AfterTradeGood(side: Side, q: seq<Resting>, qty: int, now: int)
    requires GoodSide(side, q, now) && q != [] && 0 < qty <= q[0].remaining
    ensures GoodSide(side, AfterTrade(q, qty), now)
    ensures Ids(AfterTrade(q, qty)) <= Ids(q) && Prices(AfterTrade(q, qty)) <= Prices(q)
  {
  }

  /** The residual queue is good, and every order left in it was there before, at the same price and time. */
  lemma {:induction false} WalkGood(side: Side, kind: Kind, limit: real, want: int, q: seq<Resting>, now: int)
    requires GoodSide(side.Opposite(), q, now) && 0 <= want
    ensures var out := Walk(side, kind, limit, want, q);
            && GoodSide(side.Opposite(), out.queue, now)
            && 0 <= out.left <= want
            && Ids(out.queue) <= Ids(q)
            && Prices(out.queue) <= Prices(q)
    decreases |q|, want
  {
    if want > 0 && q != [] && Crosses(side, kind, limit, q[0].price) {
      var t := FirstTrade(want, q);
      AfterTradeGood(side.Opposite(), q, t.qty, now);
      WalkGood(side, kind, limit, t.remaining, AfterTrade(q, t.qty), now);
      assert Walk(side, kind, limit, want, q).queue == Walk(side, kind, limit, t.remaining, AfterTrade(q, t.qty)).queue;
    }
  }

  lemma AfterTradeQueue(side: Side, q: seq<Resting>, qty: int)
    requires Queue(side, q) && q != [] && 0 < qty <= q[0].remaining
    ensures Queue(side, AfterTrade(q, qty))
  {
  }

  /** A walk that leaves something wanted stopped because nothing that rests crosses any more. */
  lemma {:induction false} WalkStops(side: Side, kind: Kind, limit: real, want: int, q: seq<Resting>)
    requires Queue(side.Opposite(), q)
    requires Walk(side, kind, limit, want, q).left > 0
    ensures forall p :: p in Prices(Walk(side, kind, limit, want, q).queue) ==> !Crosses(side, kind, limit, p)
    decreases |q|, if want > 0 then want else 0
  {
    if want > 0 && q != [] && Crosses(side, kind, limit, q[0].price) {
      var t := FirstTrade(want, q);
      AfterTradeQueue(side.Opposite(), q, t.qty);
      WalkStops(side, kind, limit, t.remaining, AfterTrade(q, t.qty));
    } else {
      NothingCrosses(side, kind, limit, q);
    }
  }

  /** If the best order does not cross, no order does. */
  lemma NothingCrosses(side: Side, kind: Kind, limit: real, q: seq<Resting>)
    requires Sorted(side.Opposite(), q) && (q != [] ==> !Crosses(side, kind, limit, q[0].price))
    ensures forall p :: p in Prices(q) ==> !Crosses(side, kind, limit, p)
  {
    assert forall i :: 0 < i < |q| ==> Before(side.Opposite(), q[0], q[i]);
  }

  /** The trades of a walk are with the orders of the queue, one after the other, all but the last used up. */
  lemma {:induction false} TradesInOrder(side: Side, kind: Kind, limit: real, want: int, q: seq<Resting>, k: nat)
    requires k < |Walk(side, kind, limit, want, q).trades| && forall i :: 0 <= i < |q| ==> 0 < q[i].remaining
    ensures var trades := Walk(side, kind, limit, want, q).trades;
            && |trades| <= |q| && trades[k].maker == q[k] && 0 < trades[k].qty <= q[k].remaining
            && (forall i :: 0 <= i < k ==> trades[i].qty == q[i].remaining)
    decreases |q|
  {
    var t := FirstTrade(want, q);
    var rest := Walk(side, kind, limit, t.remaining, AfterTrade(q, t.qty)).trades;
    var trades := Walk(side, kind, limit, want, q).trades;
    assert trades == [t] + rest;
    if rest != [] {
      assert AfterTrade(q, t.qty) == q[1..];
      TradesInOrder(side, kind, limit, t.remaining, q[1..], if k == 0 then 0 else k - 1);
      assert forall i :: 0 < i < k ==> trades[i] == rest[i - 1] && q[i] == q[1..][i - 1];
    }
  }

  // ---------- Insertion and removal ----------

  lemma {:induction false} InsertMembers(side: Side, x: Resting, q: seq<Resting>)
    ensures multiset(Insert(side, x, q)) == multiset(q) + multiset{x}
  {
    if q == [] || Before(side, x, q[0]) {
    } else {
      InsertMembers(side, x, q[1..]);
      assert q == [q[0]] + q[1..];
    }
  }

  lemma {:induction false} InsertSorted(side: Side, x: Resting, q: seq<Resting>)
    requires Sorted(side, q) && forall i :: 0 <= i < |q| ==> q[i].enteredAt != x.enteredAt
    ensures Sorted(side, Insert(side, x, q))
  {
    if q == [] {
    } else if Before(side, x, q[0]) {
      forall j | 0 < j < |q| ensures Before(side, x, q[j]) {
        assert Before(side, q[0], q[j]);
      }
    } else {
      var t := Insert(side, x, q[1..]);
      InsertSorted(side, x, q[1..]);
      InsertMembers(side, x, q[1..]);
      forall j | 0 <= j < |t| ensures Before(side, q[0], t[j]) {
        assert t[j] in multiset(t);
        assert t[j] == x || t[j] in q[1..];
      }
    }
  }

  lemma {:induction false} InsertUnique(side: Side, x: Resting, q: seq<Resting>)
    requires UniqueIds(q) && x.id !in Ids(q)
    ensures UniqueIds(Insert(side, x, q))
    ensures Ids(Insert(side, x, q)) == Ids(q) + {x.id}
  {
    if q == [] || Before(side, x, q[0]) {
      IdsCons(x, q);
    } else {
      IdsCons(q[0], q[1..]);
      assert q == [q[0]] + q[1..];
      InsertUnique(side, x, q[1..]);
      var t := Insert(side, x, q[1..]);
      IdsCons(q[0], t);
      assert forall j :: 0 <= j < |t| ==> t[j].id in Ids(t);
      assert q[0].id !in Ids(q[1..]);
    }
  }

  lemma IdsCons(x: Resting, q: seq<Resting>)
    ensures Ids([x] + q) == {x.id} + Ids(q)
  {
    var t := [x] + q;
    assert t[0] == x;
    assert forall i :: 0 <= i < |q| ==> q[i] == t[i + 1];
  }

  lemma InsertGood(side: Side, x: Resting, q: seq<Resting>, now: int)
    requires GoodSide(side, q, now) && GoodOrder(side, x, now)
    requires x.id !in Ids(q) && forall i :: 0 <= i < |q| ==> q[i].enteredAt != x.enteredAt
    ensures GoodSide(side, Insert(side, x, q), now)
    ensures Ids(Insert(side, x, q)) == Ids(q) + {x.id}
  {
    InsertSorted(side, x, q);
    InsertUnique(side, x, q);
    InsertMembers(side, x, q);
    var t := Insert(side, x, q);
    forall i | 0 <= i < |t| ensures GoodOrder(side, t[i], now) {
      assert t[i] in multiset(t);
    }
  }

  lemma InsertPrices(side: Side, x: Resting, q: seq<Resting>)
    ensures Prices(Insert(side, x, q)) <= Prices(q) + {x.price}
  {
    InsertMembers(side, x, q);
    var t := Insert(side, x, q);
    forall i | 0 <= i < |t| ensures t[i].price in Prices(q) + {x.price} {
      assert t[i] in multiset(t);
      assert t[i] == x || t[i] in q;
    }
  }

  /** `Drop` keeps exactly the orders not named, in the same order of priority. */
  lemma {:induction false} DropMembers(q: seq<Resting>, ids: set<string>)
    ensures forall r :: r in Drop(q, ids) <==> r in q && r.id !in ids
    ensures Ids(Drop(q, ids)) == Ids(q) - ids && Prices(Drop(q, ids)) <= Prices(q)
  {
    if q != [] {
      DropMembers(q[1..], ids);
      assert q == [q[0]] + q[1..];
      IdsMembers(q);
      IdsMembers(Drop(q, ids));
    }
  }

  lemma {:induction false} DropNone(q: seq<Resting>, ids: set<string>)
    requires ids !! Ids(q)
    ensures Drop(q, ids) == q
  {
    if q != [] {
      assert forall i :: 0 <= i < |q[1..]| ==> q[1..][i] == q[i + 1];
      DropNone(q[1..], ids);
      assert q[0].id in Ids(q);
    }
  }

  lemma {:induction false} DropDrop(q: seq<Resting>, a: set<string>, b: set<string>)
    ensures Drop(Drop(q, a), b) == Drop(q, a + b)
  {
    if q != [] {
      DropDrop(q[1..], a, b);
      var t := Drop(q[1..], a);
      assert Drop(q, a) == if q[0].id in a then t else [q[0]] + t;
      assert ([q[0]] + t)[1..] == t;
    }
  }

  lemma DropBothNone(b: Book)
    ensures DropBoth(b, {}) == b
  {
    DropNone(b.bids, {});
    DropNone(b.asks, {});
  }

  lemma DropBothDrop(b: Book, x: set<string>, y: set<string>)
    ensures DropBoth(DropBoth(b, x), y) == DropBoth(b, x + y)
  {
    DropDrop(b.bids, x, y);
    DropDrop(b.asks, x, y);
  }

  lemma IdsMembers(q: seq<Resting>)
    ensures forall r :: r in q ==> r.id in Ids(q)
    ensures forall id :: id in Ids(q) ==> exists r :: r in q && r.id == id
  {
  }

  lemma {:induction false} DropGood(side: Side, q: seq<Resting>, ids: set<string>, now: int)
    requires GoodSide(side, q, now)
    ensures GoodSide(side, Drop(q, ids), now)
  {
    if q != [] {
      DropGood(side, q[1..], ids, now);
      DropMembers(q[1..], ids);
      var t := Drop(q[1..], ids);
      forall j | 0 <= j < |t| ensures Before(side, q[0], t[j]) && q[0].id != t[j].id {
        assert t[j] in t;
        var k :| 0 <= k < |q[1..]| && q[1..][k] == t[j];
        assert q[k + 1] == t[j];
      }
    }
  }

  // ---------- The operations keep the book good ----------

  lemma WalkUncrossed(b: Book, m: Request, now: int)
    requires Good(b, now) && 0 < m.quantity
    ensures Good(b.With(SideOf(m).Opposite(), Matched(b, m).queue), now)
    ensures 0 <= Matched(b, m).left <= m.quantity
  {
    var opp := SideOf(m).Opposite();
    WalkGood(SideOf(m), KindOf(m), m.price, m.quantity, b.On(opp), now);
  }

  lemma SubmitGood(b: Book, session: string, m: Request, stamp: int, now: int)
    requires Good(b, now) && now < stamp
    ensures Good(Submit(b, session, m, stamp).book, stamp)
  {
    if Refused(b, m).None? {
      var side := SideOf(m);
      var out := Matched(b, m);
      var traded := b.With(side.Opposite(), out.queue);
      WalkUncrossed(b, m, now);
      if out.left > 0 && KindOf(m).Limit? {
        WalkStops(side, KindOf(m), m.price, m.quantity, b.On(side.Opposite()));
        WalkGood(side, KindOf(m), m.price, m.quantity, b.On(side.Opposite()), now);
        var x := NewResting(m, session, stamp, out.left);
        assert x.id !in Ids(traded.On(side));
        InsertGood(side, x, traded.On(side), stamp);
        InsertMembers(side, x, traded.On(side));
        RestUncrossed(traded, x);
      }
    }
  }

  lemma RestUncrossed(b: Book, x: Resting)
    requires Uncrossed(b)
    requires forall p :: p in Prices(b.On(x.side.Opposite())) ==> !Crosses(x.side, Limit, x.price, p)
    ensures Uncrossed(Rest(b, x))
  {
    InsertPrices(x.side, x, b.On(x.side));
    var c := Rest(b, x);
    forall p, p' | p in Prices(c.bids) && p' in Prices(c.asks) ensures p < p' {
      assert x.side.Buy? ==> !Crosses(x.side, Limit, x.price, p');
      assert x.side.Sell? ==> !Crosses(x.side, Limit, x.price, p);
    }
  }

  lemma DropBothGood(b: Book, ids: set<string>, now: int)
    requires Good(b, now)
    ensures Good(DropBoth(b, ids), now)
  {
    DropGood(Buy, b.bids, ids, now);
    DropGood(Sell, b.asks, ids, now);
    DropMembers(b.bids, ids);
    DropMembers(b.asks, ids);
  }

  lemma GoodLater(b: Book, now: int, later: int)
    requires Good(b, now) && now <= later
    ensures Good(b, later)
  {
  }

  // ---------- Cancelling ----------

  /** Two orders on a good book with the same id are the same order. */
  lemma IdIsUnique(b: Book, now: int, s: Side, s': Side, r: Resting, r': Resting)
    requires Good(b, now) && r in b.On(s) && r' in b.On(s') && r.id == r'.id
    ensures s == s' && r == r'
  {
    IdsMembers(b.bids);
    IdsMembers(b.asks);
    var i :| 0 <= i < |b.On(s)| && b.On(s)[i] == r;
    var j :| 0 <= j < |b.On(s')| && b.On(s')[j] == r';
  }

  lemma OwnedMembers(b: Book, session: string, id: string)
    requires id in Owned(b, session)
    ensures exists s, r :: r in b.On(s) && r.id == id && r.session == session
  {
    if id in SessionIds(b.bids, session) {
      var i :| 0 <= i < |b.bids| && b.bids[i].session == session && b.bids[i].id == id;
      assert b.bids[i] in b.On(Buy);
    } else {
      var i :| 0 <= i < |b.asks| && b.asks[i].session == session && b.asks[i].id == id;
      assert b.asks[i] in b.On(Sell);
    }
  }

  /** A cancel takes away exactly the named order, and only when the session itself entered it. */
  lemma CancelExact(b: Book, now: int, session: string, id: string, s: Side, r: Resting)
    requires Good(b, now)
    ensures var (b', reply) := Cancel(b, session, id);
            && (r in b'.On(s) <==> r in b.On(s) && !(reply == CancelAck && r.id == id))
            && (reply == CancelAck && r in b.On(s) && r.id == id ==> r.session == session)
            && (reply != CancelAck ==> b' == b)
  {
    DropMembers(b.bids, {id});
    DropMembers(b.asks, {id});
    if id in Owned(b, session) && r in b.On(s) && r.id == id {
      OwnedMembers(b, session, id);
      var s', r' :| r' in b.On(s') && r'.id == id && r'.session == session;
      IdIsUnique(b, now, s, s', r, r');
    }
  }

  /** Going away takes exactly the session's own orders along. */
  lemma CancelSessionExact(b: Book, now: int, session: string, s: Side, r: Resting)
    requires Good(b, now)
    ensures r in CancelSession(b, session).On(s) <==> r in b.On(s) && r.session != session
  {
    var ids := Owned(b, session);
    DropMembers(b.bids, ids);
    DropMembers(b.asks, ids);
    if r in b.On(s) && r.id in ids {
      OwnedMembers(b, session, r.id);
      var s', r' :| r' in b.On(s') && r'.id == r.id && r'.session == session;
      IdIsUnique(b, now, s, s', r, r');
    }
    if r in b.On(s) && r.session == session {
      var i :| 0 <= i < |b.On(s)| && b.On(s)[i] == r;
      assert b.On(s)[i].id in SessionIds(b.On(s), session);
    }
  }

  ghost predicate Rests(b: Book, id: string) {
    exists s, r :: r in b.On(s) && r.id == id
  }

  ghost predicate RestsFor(b: Book, id: string, session: string) {
    exists s, r :: r in b.On(s) && r.id == id && r.session == session
  }

  lemma OwnedExactly(b: Book, session: string, id: string)
    ensures id in BookIds(b) <==> Rests(b, id)
    ensures id in Owned(b, session) <==> RestsFor(b, id, session)
  {
    if id in BookIds(b) {
      IdsMembers(b.bids);
      IdsMembers(b.asks);
      if id in Ids(b.bids) {
        var r :| r in b.bids && r.id == id;
        assert r in b.On(Buy);
      } else {
        var r :| r in b.asks && r.id == id;
        assert r in b.On(Sell);
      }
    }
    if id in Owned(b, session) {
      OwnedMembers(b, session, id);
    }
    forall s, r | r in b.On(s) ensures r.id in BookIds(b) && r.id in Owned(b, r.session) {
      var i :| 0 <= i < |b.On(s)| && b.On(s)[i] == r;
      assert r.id in Ids(b.On(s)) && r.id in SessionIds(b.On(s), r.session);
    }
  }

  /** A cancel is answered by what rests under the id: nothing, an order of another session, or one's own. */
  lemma CancelReply(b: Book, now: int, session: string, id: string)
    requires Good(b, now)
    ensures var reply := Cancel(b, session, id).1;
            && (reply == Reject(UnknownOrder) <==> !Rests(b, id))
            && (reply == Reject(Unauthorized) <==>
                  exists s, r :: r in b.On(s) && r.id == id && r.session != session)
            && (reply == CancelAck <==> RestsFor(b, id, session))
  {
    OwnedExactly(b, session, id);
    forall s, r, s', r' | r in b.On(s) && r' in b.On(s') && r.id == r'.id == id ensures r == r' {
      IdIsUnique(b, now, s, s', r, r');
    }
  }
}
