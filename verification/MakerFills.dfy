/** Which trades of an order its session hears of: the engine reports fills to the incoming order only. An order is
    named by its entry stamp, since its id may be used again once it is off the book. */
module MakerFills {
  import opened Options
  import opened Orders
  import opened BookSpec
  import opened EngineRuns
  import Clocks

  // ---------- Orders and their trades ----------

  /** The event is an order that is accepted. */
  ghost predicate Accepts(s: State, e: Event) {
    e.NewOrder? && e.session in s.open && Refused(s.book, e.m).None?
  }

  function StampOf(s: State, e: Event): int
    requires e.NewOrder?
  {
    Clocks.Tick(s.last, e.reading)
  }

  ghost function TradesOf(s: State, e: Event): seq<Trade> {
    if Accepts(s, e) then Submit(s.book, e.session, e.m, StampOf(s, e)).trades else []
  }

  /** What the order that entered at `t` trades as the incoming order of the event. */
  ghost function AsTaker(s: State, e: Event, t: int): int {
    if Accepts(s, e) && StampOf(s, e) == t then Traded(TradesOf(s, e)) else 0
  }

  /** What it trades as a resting order. */
  function AsMaker(trades: seq<Trade>, t: int): int {
    if trades == [] then 0 else (if trades[0].maker.enteredAt == t then trades[0].qty else 0) + AsMaker(trades[1..], t)
  }

  ghost function TradedBy(s: State, e: Event, t: int): int {
    AsTaker(s, e, t) + AsMaker(TradesOf(s, e), t)
  }

  function Sum(xs: seq<int>): int { if xs == [] then 0 else Sum(xs[..|xs| - 1]) + xs[|xs| - 1] }

  /** All it trades in the first `n` steps. */
  ghost function Executed(states: seq<State>, events: seq<Event>, n: nat, t: int): int
    requires n <= |events| < |states|
  {
    Sum(seq(n, k requires 0 <= k < n => TradedBy(states[k], events[k], t)))
  }

  ghost predicate Makes(s: State, e: Event, t: int) {
    exists x :: x in TradesOf(s, e) && x.maker.enteredAt == t
  }

  /** One of the steps from `m` to `n` trades with it as a resting order. */
  ghost predicate MadeBetween(states: seq<State>, events: seq<Event>, m: nat, n: nat, t: int)
    requires m <= n <= |events| < |states|
  {
    exists k :: m <= k < n && Makes(states[k], events[k], t)
  }

  // ---------- What its session is told ----------

  function Qty(b: Body): int { if b.Fill? then b.qty else 0 }

  function QtyOf(bodies: seq<Body>): int { if bodies == [] then 0 else Qty(bodies[0]) + QtyOf(bodies[1..]) }

  /** The quantity of the fills sent to a session about an id. */
  function QtyTo(ls: seq<Letter>, session: string, id: string): int {
    if ls == [] then 0
    else (if ls[0].to == session && ls[0].id == id then Qty(ls[0].body) else 0) + QtyTo(ls[1..], session, id)
  }

  /** The order that an id stands for after `n` steps: the last one accepted under it. */
  ghost function Current(states: seq<State>, events: seq<Event>, n: nat, id: string): Option<int>
    requires n <= |events| < |states|
  {
    if n == 0 then None
    else if Accepts(states[n - 1], events[n - 1]) && events[n - 1].m.id == id
    then Some(StampOf(states[n - 1], events[n - 1]))
    else Current(states, events, n - 1, id)
  }

  /** What the session is told in fills about `id` by step `n`, if that stands for the order that entered at `t`. */
  ghost function ToldBy(states: seq<State>, events: seq<Event>, n: nat, session: string, id: string, t: int): int
    requires n < |events| < |states|
  {
    if Current(states, events, n + 1, id) == Some(t) then QtyTo(Sent(states[n], events[n]), session, id) else 0
  }

  /** ... and in the first `n` steps. */
  ghost function Reported(states: seq<State>, events: seq<Event>, n: nat, session: string, id: string, t: int): int
    requires n <= |events| < |states|
  {
    Sum(seq(n, k requires 0 <= k < n => ToldBy(states, events, k, session, id, t)))
  }

  lemma {:induction false} SumExactly(xs: seq<int>, p: nat)
    requires p < |xs| && forall k :: 0 <= k < |xs| && k != p ==> 0 <= xs[k]
    ensures xs[p] <= Sum(xs)
    ensures xs[p] == Sum(xs) <==> forall k :: 0 <= k < |xs| && k != p ==> xs[k] == 0
  {
    var n := |xs| - 1;
    if p < n {
      SumExactly(xs[..n], p);
    } else {
      SumNone(xs[..n]);
    }
  }

  lemma {:induction false} SumNone(xs: seq<int>)
    requires forall k :: 0 <= k < |xs| ==> 0 <= xs[k]
    ensures 0 <= Sum(xs) && (Sum(xs) == 0 <==> forall k :: 0 <= k < |xs| ==> xs[k] == 0)
  {
    if xs != [] {
      SumNone(xs[..|xs| - 1]);
    }
  }

  // ---------- What one event sends ----------

  lemma {:induction false} QtyToLetters(to: string, about: string, bodies: seq<Body>, session: string, id: string)
    ensures QtyTo(Letters(to, about, bodies), session, id) == if to == session && about == id then QtyOf(bodies) else 0
  {
    if bodies != [] {
      assert Letters(to, about, bodies)[1..] == Letters(to, about, bodies[1..]);
      QtyToLetters(to, about, bodies[1..], session, id);
    }
  }

  lemma {:induction false} QtyOfFills(trades: seq<Trade>, tail: seq<Body>)
    ensures QtyOf(Fills(trades) + tail) == Traded(trades) + QtyOf(tail)
  {
    if trades == [] {
      assert Fills(trades) + tail == tail;
    } else {
      assert (Fills(trades) + tail)[1..] == Fills(trades[1..]) + tail;
      QtyOfFills(trades[1..], tail);
    }
  }

  lemma QtyOfReplies(b: Book, session: string, m: Request, stamp: int)
    ensures var r := Submit(b, session, m, stamp);
            QtyOf(r.replies) == if Refused(b, m).None? then Traded(r.trades) else 0
  {
    var r := Submit(b, session, m, stamp);
    if Refused(b, m).None? {
      Accepted(b, session, m, stamp);
      var tail := Leftover(KindOf(m), Matched(b, m).left);
      QtyOfFills(r.trades, tail);
      assert r.replies == [Ack] + (Fills(r.trades) + tail);
      assert r.replies[1..] == Fills(r.trades) + tail;
    }
  }

  /** Fills are sent for an accepted order only, to the session that entered it, under its id, and come to what it
      traded on entry. */
  lemma SentFills(s: State, e: Event, session: string, id: string)
    ensures QtyTo(Sent(s, e), session, id)
         == if Accepts(s, e) && e.session == session && e.m.id == id then Traded(TradesOf(s, e)) else 0
  {
    match e
    case NewOrder(to, m, reading) =>
      var r := Submit(s.book, to, m, Clocks.Tick(s.last, reading));
      QtyToLetters(to, m.id, r.replies, session, id);
      QtyOfReplies(s.book, to, m, Clocks.Tick(s.last, reading));
    case CancelOrder(to, about) =>
      QtyToLetters(to, about, [Cancel(s.book, to, about).1], session, id);
    case _ =>
  }

  // ---------- Stamps ----------

  lemma LastNext(s: State, e: Event)
    ensures s.last <= Step(s, e).last
    ensures Accepts(s, e) ==> s.last < StampOf(s, e) == Step(s, e).last
  {
  }

  lemma {:induction false} LastGrows(states: seq<State>, events: seq<Event>, m: nat, n: nat)
    requires IsRun(states, events) && m <= n < |states|
    ensures states[m].last <= states[n].last
  {
    if m < n {
      LastGrows(states, events, m, n - 1);
      LastNext(states[n - 1], events[n - 1]);
    }
  }

  lemma {:induction false} CurrentIsPast(states: seq<State>, events: seq<Event>, n: nat, id: string)
    requires IsRun(states, events) && n < |states|
    ensures Current(states, events, n, id).Some? ==> Current(states, events, n, id).value <= states[n].last
  {
    if n > 0 {
      CurrentIsPast(states, events, n - 1, id);
      LastNext(states[n - 1], events[n - 1]);
    }
  }

  // ---------- Reported is what was traded on entry ----------

  /** An order enters later than all that happened before. */
  lemma EntersLater(states: seq<State>, events: seq<Event>, p: nat, k: nat)
    requires IsRun(states, events) && k <= p < |events| && Accepts(states[p], events[p])
    ensures states[k].last < StampOf(states[p], events[p])
  {
    LastGrows(states, events, k, p);
    LastNext(states[p], events[p]);
  }

  /** Nothing is told of an order before it is accepted. */
  lemma ToldBefore(states: seq<State>, events: seq<Event>, p: nat, k: nat, session: string, id: string)
    requires IsRun(states, events) && k < p < |events| && Accepts(states[p], events[p])
    ensures ToldBy(states, events, k, session, id, StampOf(states[p], events[p])) == 0
  {
    CurrentIsPast(states, events, k + 1, id);
    EntersLater(states, events, p, k + 1);
  }

  /** After a later order was accepted under its id, or in answer to anything else, it is told nothing. */
  lemma ToldNoMore(s: State, e: Event, session: string, id: string, t: int)
    requires t <= s.last
    ensures Accepts(s, e) && e.m.id == id ==> StampOf(s, e) != t
    ensures !(Accepts(s, e) && e.m.id == id) ==> QtyTo(Sent(s, e), session, id) == 0
  {
    SentFills(s, e, session, id);
    LastNext(s, e);
  }

  lemma ToldLater(states: seq<State>, events: seq<Event>, p: nat, k: nat, session: string, id: string)
    requires IsRun(states, events) && p < k < |events| && Accepts(states[p], events[p])
    ensures ToldBy(states, events, k, session, id, StampOf(states[p], events[p])) == 0
  {
    LastNext(states[p], events[p]);
    LastGrows(states, events, p + 1, k);
    ToldNoMore(states[k], events[k], session, id, StampOf(states[p], events[p]));
  }

  lemma ToldOnEntry(states: seq<State>, events: seq<Event>, p: nat)
    requires p < |events| < |states| && Accepts(states[p], events[p])
    ensures ToldBy(states, events, p, events[p].session, events[p].m.id, StampOf(states[p], events[p]))
         == Traded(TradesOf(states[p], events[p]))
  {
    SentFills(states[p], events[p], events[p].session, events[p].m.id);
  }

  lemma ReportedIs(states: seq<State>, events: seq<Event>, p: nat, n: nat)
    requires IsRun(states, events) && p < n <= |events| && Accepts(states[p], events[p])
    ensures Reported(states, events, n, events[p].session, events[p].m.id, StampOf(states[p], events[p]))
         == Traded(TradesOf(states[p], events[p]))
  {
    var session, id, t := events[p].session, events[p].m.id, StampOf(states[p], events[p]);
    var xs := seq(n, k requires 0 <= k < n => ToldBy(states, events, k, session, id, t));
    forall k | 0 <= k < n && k != p ensures xs[k] == 0 {
      if k < p {
        ToldBefore(states, events, p, k, session, id);
      } else {
        ToldLater(states, events, p, k, session, id);
      }
    }
    SumExactly(xs, p);
    ToldOnEntry(states, events, p);
  }

  // ---------- Executed is that and what it trades as a resting order ----------

  lemma {:induction false} MakerQty(trades: seq<Trade>, t: int)
    requires forall k :: 0 <= k < |trades| ==> 0 < trades[k].qty
    ensures 0 <= AsMaker(trades, t)
    ensures AsMaker(trades, t) > 0 <==> exists x :: x in trades && x.maker.enteredAt == t
  {
    if trades != [] {
      MakerQty(trades[1..], t);
      assert trades == [trades[0]] + trades[1..];
    }
  }

  /** Trades are positive, and with orders that were on the book. */
  lemma TradesAreGood(s: State, e: Event)
    requires Inv(s)
    ensures forall k :: 0 <= k < |TradesOf(s, e)| ==>
              0 < TradesOf(s, e)[k].qty && TradesOf(s, e)[k].maker.enteredAt <= s.last
  {
    if Accepts(s, e) {
      var side := SideOf(e.m).Opposite();
      Accepted(s.book, e.session, e.m, StampOf(s, e));
      forall k | 0 <= k < |TradesOf(s, e)|
        ensures 0 < TradesOf(s, e)[k].qty && TradesOf(s, e)[k].maker.enteredAt <= s.last
      {
        TradesInOrder(SideOf(e.m), KindOf(e.m), e.m.price, e.m.quantity, s.book.On(side), k);
      }
    }
  }

  lemma MakerStep(s: State, e: Event, t: int)
    requires Inv(s)
    ensures 0 <= AsMaker(TradesOf(s, e), t)
    ensures AsMaker(TradesOf(s, e), t) > 0 <==> Makes(s, e, t)
    ensures s.last < t ==> AsMaker(TradesOf(s, e), t) == 0
  {
    TradesAreGood(s, e);
    MakerQty(TradesOf(s, e), t);
  }

  lemma TradedPast(s: State, e: Event, t: int)
    requires Inv(s) && Step(s, e).last < t
    ensures TradedBy(s, e, t) == 0
  {
    LastNext(s, e);
    MakerStep(s, e, t);
  }

  lemma TradedBefore(states: seq<State>, events: seq<Event>, p: nat, k: nat)
    requires IsRun(states, events) && k < p < |events| && Accepts(states[p], events[p])
    ensures TradedBy(states[k], events[k], StampOf(states[p], events[p])) == 0
  {
    RunInv(states, events, k);
    EntersLater(states, events, p, k + 1);
    TradedPast(states[k], events[k], StampOf(states[p], events[p]));
  }

  lemma TradedOnEntry(states: seq<State>, events: seq<Event>, p: nat)
    requires IsRun(states, events) && p < |events| && Accepts(states[p], events[p])
    ensures TradedBy(states[p], events[p], StampOf(states[p], events[p])) == Traded(TradesOf(states[p], events[p]))
  {
    LastNext(states[p], events[p]);
    RunInv(states, events, p);
    MakerStep(states[p], events[p], StampOf(states[p], events[p]));
  }

  lemma TradedLater(states: seq<State>, events: seq<Event>, p: nat, k: nat)
    requires IsRun(states, events) && p < k < |events| && Accepts(states[p], events[p])
    ensures var x, t := TradedBy(states[k], events[k], StampOf(states[p], events[p])), StampOf(states[p], events[p]);
            0 <= x && (x > 0 <==> Makes(states[k], events[k], t))
  {
    LastNext(states[p], events[p]);
    LastGrows(states, events, p + 1, k);
    LastNext(states[k], events[k]);
    RunInv(states, events, k);
    MakerStep(states[k], events[k], StampOf(states[p], events[p]));
  }

  /** Step `k` trades with the order that entered at step `p` only later and as a resting order. */
  ghost predicate OnlyMakes(states: seq<State>, events: seq<Event>, p: nat, k: nat, t: int)
    requires k < |events| < |states|
  {
    var x := TradedBy(states[k], events[k], t);
    0 <= x && (x > 0 <==> p < k && Makes(states[k], events[k], t))
  }

  lemma OthersOnlyMake(states: seq<State>, events: seq<Event>, p: nat, k: nat)
    requires IsRun(states, events) && p < |events| && k < |events| && k != p && Accepts(states[p], events[p])
    ensures OnlyMakes(states, events, p, k, StampOf(states[p], events[p]))
  {
    if k < p {
      TradedBefore(states, events, p, k);
    } else {
      TradedLater(states, events, p, k);
    }
  }

  lemma ExecutedSums(states: seq<State>, events: seq<Event>, p: nat, n: nat, t: int)
    requires p < n <= |events| < |states|
    requires forall k :: 0 <= k < n && k != p ==> OnlyMakes(states, events, p, k, t)
    ensures TradedBy(states[p], events[p], t) <= Executed(states, events, n, t)
    ensures TradedBy(states[p], events[p], t) == Executed(states, events, n, t) <==>
            !MadeBetween(states, events, p + 1, n, t)
  {
    var xs := seq(n, k requires 0 <= k < n => TradedBy(states[k], events[k], t));
    forall k | 0 <= k < n && k != p
      ensures 0 <= xs[k] && (xs[k] > 0 <==> p < k && Makes(states[k], events[k], t))
    {
      assert OnlyMakes(states, events, p, k, t);
    }
    SumExactly(xs, p);
  }

  lemma ExecutedIs(states: seq<State>, events: seq<Event>, p: nat, n: nat)
    requires IsRun(states, events) && p < n <= |events| && Accepts(states[p], events[p])
    ensures var t, entry := StampOf(states[p], events[p]), Traded(TradesOf(states[p], events[p]));
            && entry <= Executed(states, events, n, t)
            && (entry == Executed(states, events, n, t) <==> !MadeBetween(states, events, p + 1, n, t))
  {
    forall k | 0 <= k < n && k != p ensures OnlyMakes(states, events, p, k, StampOf(states[p], events[p])) {
      OthersOnlyMake(states, events, p, k);
    }
    ExecutedSums(states, events, p, n, StampOf(states[p], events[p]));
    TradedOnEntry(states, events, p);
  }

  /** In every run, the quantity that an accepted order's session has been told of in fills is what the order traded
      on entry. It is all that the order has traded if and only if no later step traded with it as a resting order. */
  lemma ReportedExactly(states: seq<State>, events: seq<Event>, p: nat, n: nat)
    requires IsRun(states, events) && p < n <= |events| && Accepts(states[p], events[p])
    ensures var e, t := events[p], StampOf(states[p], events[p]);
            var told := Reported(states, events, n, e.session, e.m.id, t);
            && told == Traded(Matched(states[p].book, e.m).trades) <= Executed(states, events, n, t)
            && (told == Executed(states, events, n, t) <==> !MadeBetween(states, events, p + 1, n, t))
  {
    Accepted(states[p].book, events[p].session, events[p].m, StampOf(states[p], events[p]));
    ReportedIs(states, events, p, n);
    ExecutedIs(states, events, p, n);
  }

  // ---------- A resting order that is not told of its trade ----------

  /** Everything sent to a session in the first `n` steps. */
  ghost function Inbox(states: seq<State>, events: seq<Event>, n: nat, session: string): seq<Letter>
    requires n <= |events| < |states|
  {
    if n == 0 then []
    else Inbox(states, events, n - 1, session) + To(Sent(states[n - 1], events[n - 1]), session)
  }

  function To(ls: seq<Letter>, session: string): seq<Letter> {
    if ls == [] then [] else (if ls[0].to == session then [ls[0]] else []) + To(ls[1..], session)
  }

  const Ask := Request("a", "sell", "limit", 1.0, 1)
  const Bid := Request("b", "buy", "limit", 1.0, 1)

  lemma AskRests(session: string, stamp: int)
    ensures Refused(EmptyBook, Ask).None?
    ensures var r := Submit(EmptyBook, session, Ask, stamp);
            r.replies == [Ack] && r.book == Book([], [NewResting(Ask, session, stamp, 1)])
  {
    assert ValidId("a");
  }

  lemma BidTrades(maker: Resting, session: string, stamp: int)
    requires maker.id == "a" && maker.price == 1.0 && maker.remaining == 1
    ensures Refused(Book([], [maker]), Bid).None?
    ensures Submit(Book([], [maker]), session, Bid, stamp).trades == [Trade(maker, 1, 0)]
  {
    var b := Book([], [maker]);
    assert ValidId("b");
    assert forall i :: 0 <= i < |b.asks| ==> b.asks[i].id == "a";
    assert "b" !in Ids(b.asks) && Ids(b.bids) == {};
    assert Walk(Buy, Limit, 1.0, 1, [maker]).trades == [Trade(maker, 1, 0)];
  }

  lemma ToOthers(to: string, id: string, bodies: seq<Body>, session: string)
    requires to != session
    ensures To(Letters(to, id, bodies), session) == []
  {
    if bodies != [] {
      assert Letters(to, id, bodies)[1..] == Letters(to, id, bodies[1..]);
      ToOthers(to, id, bodies[1..], session);
    }
  }

  /** The engine with one session that has order "a" on the book. */
  ghost predicate OneAsk(s: State, session: string) {
    s.book == Book([], [NewResting(Ask, session, 2, 1)]) && s.open == s.issued == {session} && s.last == 2
  }

  lemma AskEntered(session: string, s: State)
    requires session == SessionId("x", 1) && s == Step(Initial, Connect("x", 1))
    ensures Accepts(s, NewOrder(session, Ask, 2)) && StampOf(s, NewOrder(session, Ask, 2)) == 2
    ensures OneAsk(Step(s, NewOrder(session, Ask, 2)), session)
    ensures Sent(s, NewOrder(session, Ask, 2)) == [Letter(session, "a", Ack)]
  {
    assert s.book == EmptyBook && s.open == s.issued == {session} && s.last == 1;
    AskRests(session, 2);
  }

  lemma BidEntered(session: string, other: string, s: State)
    requires s.book == Book([], [NewResting(Ask, session, 2, 1)]) && other in s.open && s.last == 3 && other != session
    ensures Makes(s, NewOrder(other, Bid, 4), 2) && To(Sent(s, NewOrder(other, Bid, 4)), session) == []
  {
    var maker := NewResting(Ask, session, 2, 1);
    BidTrades(maker, other, 4);
    assert Trade(maker, 1, 0) in TradesOf(s, NewOrder(other, Bid, 4));
    ToOthers(other, "b", Submit(s.book, other, Bid, 4).replies, session);
  }

  lemma FourSteps(e1: Event, e2: Event, e3: Event, e4: Event) returns (states: seq<State>)
    ensures |states| == 5 && states[0] == Initial && IsRun(states, [e1, e2, e3, e4])
    ensures states[1] == Step(Initial, e1) && states[2] == Step(states[1], e2) && states[3] == Step(states[2], e3)
  {
    var s1 := Step(Initial, e1);
    var s2 := Step(s1, e2);
    var s3 := Step(s2, e3);
    states := [Initial, s1, s2, s3, Step(s3, e4)];
  }

  /** Order "a" rests and is acknowledged; then "b", of another session, trades with it. The session of "a" hears
      nothing more. */
  lemma MakerNotTold() returns (states: seq<State>, events: seq<Event>, session: string)
    ensures IsRun(states, events) && |events| == 4 && Accepts(states[1], events[1]) && events[1].session == session
    ensures MadeBetween(states, events, 2, 4, StampOf(states[1], events[1]))
    ensures Inbox(states, events, 4, session) == [Letter(session, "a", Ack)]
  {
    session := SessionId("x", 1);
    var other := SessionId("y", 3);
    events := [Connect("x", 1), NewOrder(session, Ask, 2), Connect("y", 3), NewOrder(other, Bid, 4)];
    states := FourSteps(events[0], events[1], events[2], events[3]);
    AskEntered(session, states[1]);
    RunInv(states, events, 2);
    FreshSession(states[2], "y", 3);
    SecondSession(states[2], session, other);
    BidEntered(session, other, states[3]);
    assert Makes(states[3], events[3], 2);
    InboxOfFour(states, events, session);
  }

  lemma SecondSession(s: State, session: string, other: string)
    requires OneAsk(s, session) && other == SessionId("y", 3)
    ensures var s' := Step(s, Connect("y", 3)); s'.book == s.book && other in s'.open && s'.last == 3
  {
  }

  lemma InboxNext(states: seq<State>, events: seq<Event>, n: nat, session: string, before: seq<Letter>, more: seq<Letter>)
    requires n < |events| < |states|
    requires Inbox(states, events, n, session) == before && To(Sent(states[n], events[n]), session) == more
    ensures Inbox(states, events, n + 1, session) == before + more
  {
  }

  lemma InboxOfFour(states: seq<State>, events: seq<Event>, session: string)
    requires |events| == 4 && |states| == 5 && events[0].Connect? && events[2].Connect?
    requires Sent(states[1], events[1]) == [Letter(session, "a", Ack)] && To(Sent(states[3], events[3]), session) == []
    ensures Inbox(states, events, 4, session) == [Letter(session, "a", Ack)]
  {
    var x := Letter(session, "a", Ack);
    assert To([x], session) == [x] + To([x][1..], session);
    InboxNext(states, events, 0, session, [], []);
    InboxNext(states, events, 1, session, [], [x]);
    InboxNext(states, events, 2, session, [x], []);
    InboxNext(states, events, 3, session, [x], []);
  }
}
