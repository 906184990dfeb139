/** Whole runs of the engine: clients connect, send orders and cancels, and go away, in any order. */
module EngineRuns {
  import opened Options
  import opened Orders
  import opened BookSpec
  import Clocks
  import opened Decimals

  /** Where every accepted unit of quantity went. */
  datatype Ledger = Ledger(accepted: int, traded: int, cancelled: int, unfilled: int)

  /** `issued` holds every session id ever given out, `arrivals` the entry times of the accepted orders
      in the order in which they got hold of the book. */
  datatype State = State(book: Book, last: nat, open: set<string>, issued: set<string>,
                         arrivals: seq<int>, ledger: Ledger)

  const Initial := State(EmptyBook, 0, {}, {}, [], Ledger(0, 0, 0, 0))

  datatype Event =
    | Connect(addr: string, reading: int)
    | NewOrder(session: string, m: Request, reading: int)
    | CancelOrder(session: string, id: string)
    | Disconnect(session: string)

  function SessionId(addr: string, stamp: nat): string { addr + "/" + Decimal(stamp) }

  function Traded(trades: seq<Trade>): int {
    if trades == [] then 0 else trades[0].qty + Traded(trades[1..])
  }

  /** What rests of the orders named in `ids`. */
  function RestingOf(q: seq<Resting>, ids: set<string>): int {
    if q == [] then 0 else (if q[0].id in ids then q[0].remaining else 0) + RestingOf(q[1..], ids)
  }

  function BookDepth(b: Book): int { Depth(b.bids) + Depth(b.asks) }

  /** Remove the named orders and book them as cancelled. */
  function Strike(s: State, ids: set<string>): State {
    var gone := RestingOf(s.book.bids, ids) + RestingOf(s.book.asks, ids);
    s.(book := DropBoth(s.book, ids), ledger := s.ledger.(cancelled := s.ledger.cancelled + gone))
  }

  function Enter(s: State, session: string, m: Request, stamp: nat): State {
    var r := Submit(s.book, session, m, stamp);
    var l := s.ledger;
    State(r.book, stamp, s.open, s.issued,
          if Refused(s.book, m).None? then s.arrivals + [stamp] else s.arrivals,
          Ledger(l.accepted + r.accepted, l.traded + Traded(r.trades), l.cancelled, l.unfilled + r.unfilled))
  }

  /** Messages are read only while their session is open. */
  function Step(s: State, e: Event): State {
    match e
    case Connect(addr, reading) =>
      var stamp := Clocks.Tick(s.last, reading);
      var id := SessionId(addr, stamp);
      s.(last := stamp, open := s.open + {id}, issued := s.issued + {id})
    case NewOrder(session, m, reading) =>
      if session in s.open then Enter(s, session, m, Clocks.Tick(s.last, reading)) else s
    case CancelOrder(session, id) =>
      if session in s.open && Cancel(s.book, session, id).1 == CancelAck then Strike(s, {id}) else s
    case Disconnect(session) =>
      if session in s.open
      then Strike(s, Owned(s.book, session)).(open := s.open - {session})
      else s
  }

  /** A run: the states passed through, from the empty engine, one event at a time. */
  ghost predicate IsRun(states: seq<State>, events: seq<Event>) {
    && |states| == |events| + 1 && states[0] == Initial
    && forall i {:trigger events[i]} :: 0 <= i < |events| ==> states[i + 1] == Step(states[i], events[i])
  }

  /** The event a message of a session amounts to. One of an unknown type is none. */
  function EventOf(session: string, kind: string, m: Request, reading: int): seq<Event> {
    match kind
    case "order" => [NewOrder(session, m, reading)]
    case "cancel" => [CancelOrder(session, m.id)]
    case _ => []
  }

  function RepliesTo(b: Book, session: string, kind: string, m: Request, stamp: int): seq<Body> {
    match kind
    case "order" => Submit(b, session, m, stamp).replies
    case "cancel" => [Cancel(b, session, m.id).1]
    case _ => [Reject(UnknownType)]
  }

  /** A message sent to a session, about an order. */
  datatype Letter = Letter(to: string, id: string, body: Body)

  function Letters(to: string, id: string, bodies: seq<Body>): seq<Letter> {
    seq(|bodies|, i requires 0 <= i < |bodies| => Letter(to, id, bodies[i]))
  }

  /** Everything the engine sends, to whichever session, when an event is handled. */
  function Sent(s: State, e: Event): seq<Letter> {
    match e
    case NewOrder(session, m, reading) =>
      if session in s.open
      then Letters(session, m.id, Submit(s.book, session, m, Clocks.Tick(s.last, reading)).replies) else []
    case CancelOrder(session, id) =>
      if session in s.open then Letters(session, id, [Cancel(s.book, session, id).1]) else []
    case _ => []
  }

  /** What a cancel or a disconnect leaves on the book is what `Cancel` and `CancelSession` specify. */
  lemma StrikeIsCancel(s: State, session: string, id: string)
    ensures Cancel(s.book, session, id).1 == CancelAck ==> Strike(s, {id}).book == Cancel(s.book, session, id).0
    ensures Strike(s, Owned(s.book, session)).book == CancelSession(s.book, session)
  {
  }

  // ---------- The invariant ----------

  ghost predicate Queued(s: State, q: seq<Resting>) {
    forall i :: 0 <= i < |q| ==> q[i].enteredAt in s.arrivals && q[i].session in s.open
  }

  ghost predicate Named(s: State, id: string) {
    exists addr, t: nat :: t <= s.last && id == SessionId(addr, t)
  }

  ghost predicate Balanced(s: State) {
    s.ledger.accepted == 2 * s.ledger.traded + BookDepth(s.book) + s.ledger.cancelled + s.ledger.unfilled
  }

  ghost predicate Arrived(s: State) {
    && (forall i :: 0 <= i < |s.arrivals| ==> s.arrivals[i] <= s.last)
    && (forall i, j :: 0 <= i < j < |s.arrivals| ==> s.arrivals[i] < s.arrivals[j])
  }

  ghost predicate Inv(s: State) {
    && Good(s.book, s.last) && Arrived(s) && Balanced(s)
    && Queued(s, s.book.bids) && Queued(s, s.book.asks)
    && s.open <= s.issued && (forall id :: id in s.issued ==> Named(s, id))
  }

  // ---------- Quantity ----------

  lemma {:induction false} DepthInsert(side: Side, x: Resting, q: seq<Resting>)
    ensures Depth(Insert(side, x, q)) == Depth(q) + x.remaining
  {
    if q == [] || Before(side, x, q[0]) {
      assert ([x] + q)[1..] == q;
    } else {
      DepthInsert(side, x, q[1..]);
      assert ([q[0]] + Insert(side, x, q[1..]))[1..] == Insert(side, x, q[1..]);
    }
  }

  lemma {:induction false} DepthDrop(q: seq<Resting>, ids: set<string>)
    ensures Depth(Drop(q, ids)) + RestingOf(q, ids) == Depth(q)
  {
    if q != [] {
      DepthDrop(q[1..], ids);
      var t := Drop(q[1..], ids);
      assert ([q[0]] + t)[1..] == t && [] + t == t;
    }
  }

  /** A walk takes from the queue what it gives to the incoming order. */
  lemma {:induction false} DepthWalk(side: Side, kind: Kind, limit: real, want: int, q: seq<Resting>)
    ensures var out := Walk(side, kind, limit, want, q);
            && Depth(out.queue) + Traded(out.trades) == Depth(q)
            && out.left + Traded(out.trades) == want
    decreases |q|, if want > 0 then want else 0
  {
    if want > 0 && q != [] && Crosses(side, kind, limit, q[0].price) {
      var t := FirstTrade(want, q);
      var rest := AfterTrade(q, t.qty);
      DepthWalk(side, kind, limit, t.remaining, rest);
      assert q[0].remaining != t.qty ==> rest[1..] == q[1..];
      var trades := Walk(side, kind, limit, t.remaining, rest).trades;
      assert ([t] + trades)[1..] == trades;
    }
  }

  lemma EnterBalanced(s: State, session: string, m: Request, stamp: nat)
    requires Balanced(s) && Good(s.book, s.last)
    ensures Balanced(Enter(s, session, m, stamp))
  {
    if Refused(s.book, m).None? {
      WalkUncrossed(s.book, m, s.last);
      Accepted(s.book, session, m, stamp);
      var out := Matched(s.book, m);
      DepthWalk(SideOf(m), KindOf(m), m.price, m.quantity, s.book.On(SideOf(m).Opposite()));
      DepthInsert(SideOf(m), NewResting(m, session, stamp, out.left), s.book.On(SideOf(m)));
    }
  }

  lemma StrikeInv(s: State, ids: set<string>)
    requires Inv(s)
    ensures Inv(Strike(s, ids))
  {
    DropBothGood(s.book, ids, s.last);
    DepthDrop(s.book.bids, ids);
    DepthDrop(s.book.asks, ids);
    DropQueued(s, s.book.bids, ids);
    DropQueued(s, s.book.asks, ids);
    StillNamed(s, Strike(s, ids));
  }

  lemma DropQueued(s: State, q: seq<Resting>, ids: set<string>)
    requires Queued(s, q)
    ensures Queued(s, Drop(q, ids))
  {
  }

  // ---------- Every run ----------

  /** The sides of the book after an order was accepted hold orders of this run. */
  lemma EnterQueued(s: State, session: string, m: Request, stamp: nat)
    requires Queued(s, s.book.bids) && Queued(s, s.book.asks) && session in s.open && Refused(s.book, m).None?
    ensures var s' := Enter(s, session, m, stamp); Queued(s', s'.book.bids) && Queued(s', s'.book.asks)
  {
    var s' := Enter(s, session, m, stamp);
    Accepted(s.book, session, m, stamp);
    var out := Matched(s.book, m);
    WalkQueued(s, SideOf(m), KindOf(m), m.price, m.quantity, s.book.On(SideOf(m).Opposite()));
    assert s'.arrivals[|s.arrivals|] == stamp;
    assert Queued(s', s.book.On(SideOf(m))) && Queued(s', out.queue);
    InsertQueued(s', NewResting(m, session, stamp, out.left), s.book.On(SideOf(m)));
  }

  /** Session ids, once given out, stay accounted for. */
  lemma StillNamed(s: State, s': State)
    requires s.issued == s'.issued && s.last <= s'.last && forall id :: id in s.issued ==> Named(s, id)
    ensures forall id :: id in s'.issued ==> Named(s', id)
  {
    forall id | id in s'.issued ensures Named(s', id) {
      assert Named(s, id);
    }
  }

  lemma EnterArrived(s: State, session: string, m: Request, stamp: nat)
    requires Arrived(s) && s.last < stamp
    ensures Arrived(Enter(s, session, m, stamp))
  {
  }

  lemma EnterInv(s: State, session: string, m: Request, stamp: nat)
    requires Inv(s) && session in s.open && s.last < stamp
    ensures Inv(Enter(s, session, m, stamp))
  {
    SubmitGood(s.book, session, m, stamp, s.last);
    EnterBalanced(s, session, m, stamp);
    EnterArrived(s, session, m, stamp);
    StillNamed(s, Enter(s, session, m, stamp));
    if Refused(s.book, m).None? {
      EnterQueued(s, session, m, stamp);
    }
  }

  lemma {:induction false} WalkQueued(s: State, side: Side, kind: Kind, limit: real, want: int, q: seq<Resting>)
    requires Queued(s, q)
    ensures Queued(s, Walk(side, kind, limit, want, q).queue)
    decreases |q|, if want > 0 then want else 0
  {
    if want > 0 && q != [] && Crosses(side, kind, limit, q[0].price) {
      var t := FirstTrade(want, q);
      WalkQueued(s, side, kind, limit, t.remaining, AfterTrade(q, t.qty));
    }
  }

  lemma InsertQueued(s: State, x: Resting, q: seq<Resting>)
    requires Queued(s, q) && x.enteredAt in s.arrivals && x.session in s.open
    ensures Queued(s, Insert(x.side, x, q))
  {
  }

  lemma StepInv(s: State, e: Event)
    requires Inv(s)
    ensures Inv(Step(s, e))
  {
    match e
    case Connect(addr, reading) =>
      var stamp := Clocks.Tick(s.last, reading);
      var s' := Step(s, e);
      GoodLater(s.book, s.last, stamp);
      assert forall id :: Named(s, id) ==> Named(s', id);
      assert Named(s', SessionId(addr, stamp));
    case NewOrder(session, m, reading) =>
      if session in s.open {
        EnterInv(s, session, m, Clocks.Tick(s.last, reading));
      }
    case CancelOrder(session, id) =>
      StrikeInv(s, {id});
    case Disconnect(session) =>
      if session in s.open {
        StrikeInv(s, Owned(s.book, session));
        DropOwned(s.book.bids, Owned(s.book, session), session);
        DropOwned(s.book.asks, Owned(s.book, session), session);
        CloseInv(Strike(s, Owned(s.book, session)), session);
      }
  }

  lemma DropOwned(q: seq<Resting>, ids: set<string>, session: string)
    requires SessionIds(q, session) <= ids
    ensures forall i :: 0 <= i < |Drop(q, ids)| ==> Drop(q, ids)[i].session != session
  {
  }

  lemma DropStays(s: State, q: seq<Resting>, session: string)
    requires Queued(s, q) && forall i :: 0 <= i < |q| ==> q[i].session != session
    ensures Queued(s.(open := s.open - {session}), q)
  {
  }

  lemma CloseInv(s: State, session: string)
    requires Inv(s) && (forall i :: 0 <= i < |s.book.bids| ==> s.book.bids[i].session != session)
    requires forall i :: 0 <= i < |s.book.asks| ==> s.book.asks[i].session != session
    ensures Inv(s.(open := s.open - {session}))
  {
    DropStays(s, s.book.bids, session);
    DropStays(s, s.book.asks, session);
    StillNamed(s, s.(open := s.open - {session}));
  }

  lemma EmptyGood(b: Book, now: int)
    requires b.bids == b.asks == []
    ensures Good(b, now) && BookDepth(b) == 0
  {
  }

  lemma InitialInv()
    ensures Inv(Initial)
  {
    EmptyGood(Initial.book, 0);
  }

  lemma {:induction false} RunInv(states: seq<State>, events: seq<Event>, i: nat)
    requires IsRun(states, events) && i < |states|
    ensures Inv(states[i])
  {
    if i == 0 {
      InitialInv();
    } else {
      RunInv(states, events, i - 1);
      StepInv(states[i - 1], events[i - 1]);
    }
  }

  // ---------- What holds of every run ----------

  /** Every reachable book is good: sides sorted, ids unique, amounts and prices positive. And it is never
      crossed: every bid is below every ask. */
  lemma NeverCrossed(states: seq<State>, events: seq<Event>, n: nat)
    requires IsRun(states, events) && n < |states|
    ensures var s := states[n];
            && Good(s.book, s.last)
            && forall i, j :: 0 <= i < |s.book.bids| && 0 <= j < |s.book.asks| ==>
                 s.book.bids[i].price < s.book.asks[j].price
  {
    RunInv(states, events, n);
    var b := states[n].book;
    assert forall i :: 0 <= i < |b.bids| ==> b.bids[i].price in Prices(b.bids);
    assert forall j :: 0 <= j < |b.asks| ==> b.asks[j].price in Prices(b.asks);
  }

  /** Every accepted unit was traded, still rests, was cancelled, or was refused to a market order;
      a trade uses one unit of each of two orders. */
  lemma QuantityConserved(states: seq<State>, events: seq<Event>, n: nat)
    requires IsRun(states, events) && n < |states|
    ensures var l := states[n].ledger;
            l.accepted == 2 * l.traded + BookDepth(states[n].book) + l.cancelled + l.unfilled
  {
    RunInv(states, events, n);
  }

  /** `t` belongs to an order that got hold of the book before the order of `t'`. */
  ghost predicate ArrivedBefore(s: State, t: int, t': int) {
    exists i, j :: 0 <= i < j < |s.arrivals| && s.arrivals[i] == t && s.arrivals[j] == t'
  }

  /** `a` has the better price, or the same price and the earlier arrival. */
  ghost predicate Outranks(s: State, side: Side, a: Resting, b: Resting) {
    if a.price == b.price then ArrivedBefore(s, a.enteredAt, b.enteredAt)
    else if side.Buy? then a.price > b.price else a.price < b.price
  }

  lemma QueueRanked(s: State, side: Side, k: nat, i: nat)
    requires Inv(s) && k < i < |s.book.On(side)|
    ensures Outranks(s, side, s.book.On(side)[k], s.book.On(side)[i])
  {
  }

  /** In every run, an order trades only when no order with a better price, and none with the same price
      that arrived earlier, is left on its side: trade `k` is with the `k`-th order by priority, and the
      orders in front of it have been used up. */
  lemma PriceTimePriority(states: seq<State>, events: seq<Event>, n: nat, m: Request, k: nat)
    requires IsRun(states, events) && n < |states| && Refused(states[n].book, m).None?
    requires k < |Matched(states[n].book, m).trades|
    ensures var side := SideOf(m).Opposite();
            var q := states[n].book.On(side);
            var trades := Matched(states[n].book, m).trades;
            && k < |q| && trades[k].maker == q[k] && 0 < trades[k].qty <= q[k].remaining
            && (forall i :: 0 <= i < k ==> trades[i].qty == q[i].remaining)
            && (forall i :: k < i < |q| ==> Outranks(states[n], side, q[k], q[i]))
  {
    RunInv(states, events, n);
    var s, side := states[n], SideOf(m).Opposite();
    forall i | k < i < |s.book.On(side)| ensures Outranks(s, side, s.book.On(side)[k], s.book.On(side)[i]) {
      QueueRanked(s, side, k, i);
    }
    TradesInOrder(SideOf(m), KindOf(m), m.price, m.quantity, s.book.On(side), k);
  }

  /** What an accepted order leaves on its own side: the orders that rested there, and with them what is left of a
      limit order, as the session entered it. */
  lemma RestsExactly(b: Book, session: string, m: Request, stamp: int)
    requires Refused(b, m).None?
    ensures var r := Submit(b, session, m, stamp);
            var side := if m.side == "buy" then Buy else Sell;
            var left := m.quantity - Traded(r.trades);
            multiset(r.book.On(side)) == multiset(b.On(side))
            + if m.kind == "limit" && left > 0
              then multiset{Resting(m.id, side, m.price, m.quantity, left, stamp, session)} else multiset{}
  {
    Accepted(b, session, m, stamp);
    DepthWalk(SideOf(m), KindOf(m), m.price, m.quantity, b.On(SideOf(m).Opposite()));
    InsertMembers(SideOf(m), NewResting(m, session, stamp, Matched(b, m).left), b.On(SideOf(m)));
  }

  /** A session that has gone away has nothing on the book, now or later, and its id is never used again. */
  lemma SessionNeverReturns(states: seq<State>, events: seq<Event>, i: nat, session: string, j: nat)
    requires IsRun(states, events) && i < |events| && events[i] == Disconnect(session) && session in states[i].open
    requires i < j < |states|
    ensures session !in states[j].open && Owned(states[j].book, session) == {}
  {
    RunInv(states, events, i);
    RunInv(states, events, j);
    StaysClosed(states, events, i, session, j);
  }

  lemma {:induction false} StaysClosed(states: seq<State>, events: seq<Event>, i: nat, session: string, j: nat)
    requires IsRun(states, events) && i < |events| && events[i] == Disconnect(session)
    requires session in states[i].open && session in states[i].issued && i < j < |states|
    ensures session in states[j].issued && session !in states[j].open
    decreases j
  {
    var e := events[j - 1];
    if i < j - 1 {
      StaysClosed(states, events, i, session, j - 1);
      if e.Connect? {
        RunInv(states, events, j - 1);
        FreshSession(states[j - 1], e.addr, Clocks.Tick(states[j - 1].last, e.reading));
      }
    }
  }

  /** A newly stamped session id was never issued before. */
  lemma FreshSession(s: State, addr: string, stamp: nat)
    requires Inv(s) && s.last < stamp
    ensures SessionId(addr, stamp) !in s.issued
  {
    var id := SessionId(addr, stamp);
    if Named(s, id) {
      var a, t: nat :| t <= s.last && id == SessionId(a, t);
      DecimalDigits(stamp);
      DecimalDigits(t);
      SplitLast(addr, Decimal(stamp), a, Decimal(t), '/');
      DecimalInjective(stamp, t);
    }
  }
}
