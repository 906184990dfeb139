/** A run of basic_match on several connections in which a bid meets an ask, and so is told of its trade. */
module Reconnects {
  import opened Orders
  import opened BookSpec
  import opened Traces
  import opened ClosedLoop
  import Clocks
  import B = BotRunner
  import L = LoadSequences
  import R = EngineRuns

  type Run = Trace<State, Action>

  /** A run without failed writes. */
  ghost predicate Proper(c: B.Config, r: Run) {
    IsRun(c, r.states, r.actions) && !Failed(c, r.states, r.actions, |r.actions|)
  }

  lemma {:induction false} FailedBefore(c: B.Config, r: Run, s: State, a: Action, n: nat)
    requires |r.states| == |r.actions| + 1 && n <= |r.actions|
    ensures Failed(c, r.states + [s], r.actions + [a], n) == Failed(c, r.states, r.actions, n)
  {
    if n > 0 {
      FailedBefore(c, r, s, a, n - 1);
    }
  }

  lemma Go(c: B.Config, r: Run, a: Action) returns (r': Run)
    requires Proper(c, r) && !Fails(c, r.Last(), a)
    ensures Proper(c, r') && r'.Last() == Step(c, r.Last(), a)
    ensures |r'.actions| == |r.actions| + 1 && r'.actions[|r.actions|] == a && r'.states[|r.actions|] == r.Last()
  {
    var s := Step(c, r.Last(), a);
    r' := Trace(r.states + [s], r.actions + [a]);
    FailedBefore(c, r, s, a, |r.actions|);
  }

  lemma EngineStepInv(c: B.Config, s: State, a: Action)
    requires R.Inv(s.engine)
    ensures R.Inv(Step(c, s, a).engine)
  {
    match a
    case Dial(addr, reading) => R.StepInv(s.engine, R.Connect(addr, reading));
    case Serve(k, reading) => if Next(s, k) { R.StepInv(s.engine, EventOf(s.wire[k], reading)); }
    case Drop(session) => R.StepInv(s.engine, R.Disconnect(session));
    case _ =>
  }

  lemma {:induction false} EngineInv(c: B.Config, states: seq<State>, actions: seq<Action>, n: nat)
    requires IsRun(c, states, actions) && n < |states|
    ensures R.Inv(states[n].engine)
  {
    if n == 0 {
      R.InitialInv();
    } else {
      EngineInv(c, states, actions, n - 1);
      EngineStepInv(c, states[n - 1], actions[n - 1]);
    }
  }

  /** Only the bot has moved, apart from what it wrote. */
  ghost predicate BotOnly(s: State, s': State) {
    s'.engine == s.engine && s'.session == s.session && s'.mail == s.mail && s'.bot.mutex.Free?
  }

  lemma Admits(c: B.Config, r: Run, k: nat) returns (r': Run)
    requires Matching(c, 0) && Proper(c, r) && k < 2 && r.Last().bot.writer == B.At(k)
    requires r.Last().bot.mutex.Free? && r.Last().bot.inFlight <= B.LIMIT
    ensures Proper(c, r')
    ensures r'.Last() == r.Last().(bot := r'.Last().bot)
    ensures var b, b' := r.Last().bot, r'.Last().bot;
            && b'.writer == B.Admitted(k) && b'.mutex == B.WriterHolds(false) && b'.inFlight == b.inFlight
            && b'.iteration == b.iteration
  {
    r' := Go(c, r, Own(B.Take));
    r' := Go(c, r', Own(B.Pass));
    r' := Go(c, r', Own(B.Lock));
  }

  lemma Enters(c: B.Config, r: Run, k: nat) returns (r': Run)
    requires Matching(c, 0) && Proper(c, r) && k < 2 && r.Last().bot.writer == B.Admitted(k)
    requires r.Last().bot.mutex == B.WriterHolds(false)
    ensures Proper(c, r')
    ensures r'.Last() == r.Last().(bot := r'.Last().bot)
    ensures var b, b' := r.Last().bot, r'.Last().bot;
            && b'.writer == B.Sending(k) && b'.mutex.Free? && b'.inFlight == b.inFlight + 1
            && b'.iteration == b.iteration && OrderOf(c, b.iteration, k).id in b'.pending
  {
    r' := Go(c, r, Own(B.Insert(0)));
    r' := Go(c, r', Own(B.Count));
  }

  lemma SendsOne(c: B.Config, r: Run, k: nat) returns (r': Run)
    requires Matching(c, 0) && Proper(c, r) && k < 2 && r.Last().bot.writer == B.At(k)
    requires r.Last().bot.mutex.Free? && r.Last().bot.inFlight <= B.LIMIT
    ensures Proper(c, r') && BotOnly(r.Last(), r'.Last())
    ensures var b, b', m := r.Last().bot, r'.Last().bot, OrderOf(c, r.Last().bot.iteration, k);
            && b'.writer == B.At(k + 1) && b'.inFlight == b.inFlight + 1 && b'.iteration == b.iteration
            && m.id in b'.pending && r'.Last().wire == r.Last().wire + [Item(r.Last().session, Order(m))]
  {
    r' := Admits(c, r, k);
    r' := Enters(c, r', k);
    r' := Go(c, r', Write(true, true));
  }

  lemma SendsTwo(c: B.Config, r: Run) returns (r': Run)
    requires Matching(c, 0) && Proper(c, r) && r.Last().bot.writer.Looping?
    requires r.Last().bot.mutex.Free? && r.Last().bot.inFlight < B.LIMIT
    ensures Proper(c, r') && BotOnly(r.Last(), r'.Last())
    ensures var b, b', session := r.Last().bot, r'.Last().bot, r.Last().session;
            && b'.writer.Looping? && b'.inFlight == b.inFlight + 2 && b'.iteration == b.iteration + 1
            && r'.Last().wire == r.Last().wire + [Item(session, Order(OrderOf(c, b.iteration, 0))),
                                                  Item(session, Order(OrderOf(c, b.iteration, 1)))]
  {
    r' := Go(c, r, Own(B.Begin));
    r' := SendsOne(c, r', 0);
    r' := SendsOne(c, r', 1);
    r' := Go(c, r', Own(B.Take));
  }

  lemma Dials(c: B.Config, s: State, addr: string)
    requires s.bot.writer.Dialing? && R.Inv(s.engine)
    ensures var s' := Step(c, s, Dial(addr, 0));
            && s'.wire == s.wire && s'.mail == s.mail && s'.engine.book == s.engine.book
            && s'.bot == s.bot.(writer := B.Looping)
            && s'.session !in s.engine.open && s'.engine.open == s.engine.open + {s'.session}
  {
    R.FreshSession(s.engine, addr, Clocks.Tick(s.engine.last, 0));
  }

  lemma Loses(c: B.Config, s: State)
    requires s.bot.writer.Looping? && s.bot.mutex.Free?
    ensures var s' := Step(c, s, Own(B.ReadError));
            && s' == s.(bot := s'.bot) && s'.bot.writer.Dialing? && s'.bot.mutex.Free?
            && s'.bot.inFlight == s.bot.inFlight && s'.bot.iteration == s.bot.iteration
  {
  }

  /** The connection is lost and another made; the engine has not noticed yet. */
  lemma Reconnects(c: B.Config, r: Run, addr: string) returns (r': Run)
    requires Proper(c, r) && r.Last().bot.writer.Looping? && r.Last().bot.mutex.Free?
    ensures Proper(c, r')
    ensures var s, s' := r.Last(), r'.Last();
            && s'.wire == s.wire && s'.mail == s.mail && s'.engine.book == s.engine.book
            && s'.bot.writer.Looping? && s'.bot.mutex.Free? && s'.bot.inFlight == s.bot.inFlight
            && s'.bot.iteration == s.bot.iteration
            && s'.session !in s.engine.open && s'.engine.open == s.engine.open + {s'.session}
  {
    Loses(c, r.Last());
    r' := Go(c, r, Own(B.ReadError));
    LastInv(c, r');
    Dials(c, r'.Last(), addr);
    r' := Go(c, r', Dial(addr, 0));
  }

  lemma LastInv(c: B.Config, r: Run)
    requires Proper(c, r)
    ensures R.Inv(r.Last().engine)
  {
    EngineInv(c, r.states, r.actions, |r.actions|);
  }

  // ---------- ... what the engine then does ----------

  lemma IdsDiffer(c: B.Config, i: nat, k: nat, i': nat, k': nat)
    requires Matching(c, 0) && k < 2 && k' < 2 && (i, k) != (i', k')
    ensures OrderOf(c, i, k).id != OrderOf(c, i', k').id
  {
    if OrderOf(c, i, k).id == OrderOf(c, i', k').id {
      L.OrderIdInjective(c.bot, i, c.templates[k].tag, c.bot, i', c.templates[k'].tag);
    }
  }

  /** A bid that rests for its full quantity. */
  ghost predicate RestingBid(c: B.Config, r: Resting, i: nat, session: string)
    requires Matching(c, 0)
  {
    && r.id == OrderOf(c, i, 0).id && r.side.Buy? && r.price == L.BasePrice(c.bot) && r.remaining == 10
    && r.session == session
  }

  lemma BidJoins(c: B.Config, i: nat, b: Book, session: string, stamp: int)
    requires Matching(c, 0) && i < WIDE && b.asks == [] && |b.bids| <= 1
    requires b.bids != [] ==> b.bids[0].price == L.BasePrice(c.bot) && b.bids[0].enteredAt < stamp
    requires OrderOf(c, i, 0).id !in Ids(b.bids)
    ensures var b' := Submit(b, session, OrderOf(c, i, 0), stamp).book;
            && b'.asks == [] && |b'.bids| == |b.bids| + 1 && b'.bids[..|b.bids|] == b.bids
            && RestingBid(c, b'.bids[|b.bids|], i, session) && b'.bids[|b.bids|].enteredAt == stamp
  {
    OrderAccepted(c, 0, i, 0, b);
    L.RestsAlone(b, session, OrderOf(c, i, 0), stamp);
    var x := NewResting(OrderOf(c, i, 0), session, stamp, 10);
    if b.bids != [] {
      assert Insert(Buy, x, b.bids[1..]) == [x];
      assert Insert(Buy, x, b.bids) == [b.bids[0]] + [x];
    }
  }

  lemma AskTakes(c: B.Config, i: nat, b: Book, session: string, stamp: int)
    requires Matching(c, 0) && i < WIDE && b.asks == [] && b.bids != []
    requires b.bids[0].price == L.BasePrice(c.bot) && b.bids[0].remaining == 10
    requires OrderOf(c, i, 1).id !in Ids(b.bids)
    ensures Submit(b, session, OrderOf(c, i, 1), stamp).book == Book(b.bids[1..], [])
  {
    var m := OrderOf(c, i, 1);
    OrderAccepted(c, 0, i, 1, b);
    Accepted(b, session, m, stamp);
    assert AfterTrade(b.bids, 10) == b.bids[1..];
    assert Walk(Sell, Limit, m.price, 0, b.bids[1..]) == Outcome([], b.bids[1..], 0);
    assert FirstTrade(10, b.bids) == Trade(b.bids[0], 10, 0);
  }

  lemma AskRests(c: B.Config, i: nat, session: string, stamp: int)
    requires Matching(c, 0) && i < WIDE
    ensures var b' := Submit(EmptyBook, session, OrderOf(c, i, 1), stamp).book;
            |b'.asks| == 1 && b'.asks[0].id == OrderOf(c, i, 1).id && b'.asks[0].remaining == 10 && b'.bids == []
            && b'.asks[0].price == L.BasePrice(c.bot)
  {
    OrderAccepted(c, 0, i, 1, EmptyBook);
    L.RestsAlone(EmptyBook, session, OrderOf(c, i, 1), stamp);
  }

  lemma BidFills(c: B.Config, i: nat, b: Book, session: string, stamp: int)
    requires Matching(c, 0) && i < WIDE && |b.asks| == 1 && b.bids == []
    requires b.asks[0].price == L.BasePrice(c.bot) && b.asks[0].remaining == 10
    requires OrderOf(c, i, 0).id != b.asks[0].id
    ensures var r := Submit(b, session, OrderOf(c, i, 0), stamp).replies;
            |r| > 1 && r[1] == Fill(10, L.BasePrice(c.bot), 0)
  {
    var m := OrderOf(c, i, 0);
    OrderAccepted(c, 0, i, 0, b);
    Accepted(b, session, m, stamp);
    var t := FirstTrade(10, b.asks);
    assert t == Trade(b.asks[0], 10, 0);
    var out := Matched(b, m);
    assert |out.trades| > 0 && out.trades[0] == t;
    assert Submit(b, session, m, stamp).replies[1] == Fills(out.trades)[0];
  }

  /** The engine reads an order. */
  lemma Reads(c: B.Config, r: Run, k: nat, m: Request) returns (r': Run)
    requires Proper(c, r) && Next(r.Last(), k) && r.Last().wire[k].text == Order(m)
    ensures Proper(c, r')
    ensures var s, s', session := r.Last(), r'.Last(), r.Last().wire[k].session;
            && s'.bot == s.bot && s'.session == s.session && s'.wire == s.wire[..k] + s.wire[k + 1..]
            && s'.engine == R.Step(s.engine, R.NewOrder(session, m, 0)) && s'.engine.open == s.engine.open
            && s.engine.last < Clocks.Tick(s.engine.last, 0) == s'.engine.last
            && s'.engine.book == Submit(s.engine.book, session, m, s'.engine.last).book
            && forall l :: l in R.Letters(session, m.id, Submit(s.engine.book, session, m, s'.engine.last).replies) ==>
                 l in s'.mail
  {
    r' := Go(c, r, Serve(k, 0));
  }

  /** What is on the wire once the bot has lost two connections, each after a round, and has sent another bid. */
  function Sent(c: B.Config, x: string, y: string, z: string): seq<Item>
    requires Matching(c, 0)
  {
    [Item(x, Order(OrderOf(c, 0, 0))), Item(x, Order(OrderOf(c, 0, 1))),
     Item(y, Order(OrderOf(c, 1, 0))), Item(y, Order(OrderOf(c, 1, 1))), Item(z, Order(OrderOf(c, 2, 0)))]
  }

  lemma TwoConnections(c: B.Config) returns (r: Run, x: string, y: string)
    requires Matching(c, 0)
    ensures Proper(c, r) && x != y
    ensures var s := r.Last();
            && s.engine.book == EmptyBook && s.engine.open == {x, y} && s.wire == Sent(c, x, y, "")[..4]
            && s.bot.writer.Looping? && s.bot.mutex.Free? && s.bot.inFlight == 4 && s.bot.iteration == 2
  {
    r := Trace([Initial], []);
    r := Go(c, r, Dial("a", 1));
    x := r.Last().session;
    r := SendsTwo(c, r);
    r := Reconnects(c, r, "b");
    y := r.Last().session;
    r := SendsTwo(c, r);
  }

  lemma ThreeConnections(c: B.Config) returns (r: Run, x: string, y: string, z: string)
    requires Matching(c, 0)
    ensures Proper(c, r) && x != y && x != z && y != z
    ensures var s := r.Last();
            && s.engine.book == EmptyBook && s.engine.open == {x, y, z} && s.wire == Sent(c, x, y, z)
            && s.bot.mutex.Free? && OrderOf(c, 2, 0).id in s.bot.pending
  {
    r, x, y := TwoConnections(c);
    r := Reconnects(c, r, "c");
    z := r.Last().session;
    r := Go(c, r, Own(B.Begin));
    r := SendsOne(c, r, 0);
  }

  lemma FirstBid(c: B.Config) returns (r: Run, x: string, y: string, z: string)
    requires Matching(c, 0)
    ensures Proper(c, r) && x != y && x != z && y != z
    ensures var s, b := r.Last(), r.Last().engine.book;
            && s.engine.open == {x, y, z} && s.wire == Sent(c, x, y, z)[1..]
            && b.asks == [] && |b.bids| == 1 && RestingBid(c, b.bids[0], 0, x) && b.bids[0].enteredAt <= s.engine.last
            && s.bot.mutex.Free? && OrderOf(c, 2, 0).id in s.bot.pending
  {
    r, x, y, z := ThreeConnections(c);
    BidJoins(c, 0, EmptyBook, x, Clocks.Tick(r.Last().engine.last, 0));
    r := Reads(c, r, 0, OrderOf(c, 0, 0));
  }

  /** The ask of the second round takes the bid of the first, and the bid of the second is cancelled with its
      session. */
  lemma NoBidLeft(c: B.Config) returns (r: Run, x: string, z: string)
    requires Matching(c, 0)
    ensures Proper(c, r) && x != z
    ensures var s := r.Last();
            && s.engine.open == {x, z} && s.engine.book == EmptyBook
            && s.wire == [Item(x, Order(OrderOf(c, 0, 1))), Item(z, Order(OrderOf(c, 2, 0)))]
            && s.bot.mutex.Free? && OrderOf(c, 2, 0).id in s.bot.pending
  {
    var y;
    r, x, y, z := FirstBid(c);
    r := TwoBids(c, r, x, y);
    r := SecondTrades(c, r, x, y);
    r := SecondGone(c, r, y);
  }

  /** So the ask of the first round rests. */
  lemma AskLeft(c: B.Config) returns (r: Run, z: string)
    requires Matching(c, 0)
    ensures Proper(c, r)
    ensures var s := r.Last();
            && z in s.engine.open && s.wire == [Item(z, Order(OrderOf(c, 2, 0)))] && s.engine.book.bids == []
            && |s.engine.book.asks| == 1 && s.engine.book.asks[0].id == OrderOf(c, 0, 1).id
            && s.engine.book.asks[0].price == L.BasePrice(c.bot) && s.engine.book.asks[0].remaining == 10
            && s.bot.mutex.Free? && OrderOf(c, 2, 0).id in s.bot.pending
  {
    var x;
    r, x, z := NoBidLeft(c);
    AskRests(c, 0, x, Clocks.Tick(r.Last().engine.last, 0));
    r := Reads(c, r, 0, OrderOf(c, 0, 1));
  }

  lemma TwoBids(c: B.Config, r: Run, x: string, y: string) returns (r': Run)
    requires Matching(c, 0) && Proper(c, r) && x != y && y in r.Last().engine.open
    requires var s := r.Last(); && |s.wire| == 4 && s.wire[0].session == x
                                && s.wire[1] == Item(y, Order(OrderOf(c, 1, 0)))
    requires var s := r.Last(); && s.engine.book.asks == [] && |s.engine.book.bids| == 1
                                && RestingBid(c, s.engine.book.bids[0], 0, x)
                                && s.engine.book.bids[0].enteredAt <= s.engine.last
    ensures Proper(c, r')
    ensures var s, s' := r.Last(), r'.Last();
            && s'.bot == s.bot && s'.wire == [s.wire[0], s.wire[2], s.wire[3]] && s'.engine.open == s.engine.open
            && s'.engine.book.asks == [] && |s'.engine.book.bids| == 2
            && RestingBid(c, s'.engine.book.bids[0], 0, x) && RestingBid(c, s'.engine.book.bids[1], 1, y)
  {
    var b := r.Last().engine.book;
    IdsDiffer(c, 0, 0, 1, 0);
    assert Ids(b.bids) == {OrderOf(c, 0, 0).id};
    BidJoins(c, 1, b, y, Clocks.Tick(r.Last().engine.last, 0));
    r' := Reads(c, r, 1, OrderOf(c, 1, 0));
    assert r'.Last().engine.book.bids[0] == r'.Last().engine.book.bids[..1][0] == b.bids[0];
  }

  lemma CancelsOne(b: Book, session: string)
    requires |b.bids| == 1 && b.bids[0].session == session && b.asks == []
    ensures CancelSession(b, session) == EmptyBook
  {
    assert b.bids[0].id in SessionIds(b.bids, session);
    assert b.bids[1..] == [];
  }

  lemma SecondTrades(c: B.Config, r: Run, x: string, y: string) returns (r': Run)
    requires Matching(c, 0) && Proper(c, r) && x != y && y in r.Last().engine.open
    requires var s := r.Last(); && |s.wire| == 3 && s.wire[0].session == x
                                && s.wire[1] == Item(y, Order(OrderOf(c, 1, 1)))
    requires var b := r.Last().engine.book; && b.asks == [] && |b.bids| == 2
                                            && RestingBid(c, b.bids[0], 0, x) && RestingBid(c, b.bids[1], 1, y)
    ensures Proper(c, r')
    ensures var s, s' := r.Last(), r'.Last();
            && s'.bot == s.bot && s'.wire == [s.wire[0], s.wire[2]] && s'.engine.open == s.engine.open
            && s'.engine.book == Book([s.engine.book.bids[1]], [])
  {
    var b := r.Last().engine.book;
    IdsDiffer(c, 1, 1, 0, 0);
    IdsDiffer(c, 1, 1, 1, 0);
    assert Ids(b.bids) == {OrderOf(c, 0, 0).id, OrderOf(c, 1, 0).id};
    AskTakes(c, 1, b, y, Clocks.Tick(r.Last().engine.last, 0));
    r' := Reads(c, r, 1, OrderOf(c, 1, 1));
    assert b.bids[1..] == [b.bids[1]];
  }

  lemma SecondGone(c: B.Config, r: Run, y: string) returns (r': Run)
    requires Proper(c, r) && y in r.Last().engine.open
    requires var b := r.Last().engine.book; |b.bids| == 1 && b.bids[0].session == y && b.asks == []
    ensures Proper(c, r')
    ensures var s, s' := r.Last(), r'.Last();
            && s'.bot == s.bot && s'.wire == s.wire && s'.engine.open == s.engine.open - {y}
            && s'.engine.book == EmptyBook
  {
    CancelsOne(r.Last().engine.book, y);
    r' := Go(c, r, Drop(y));
  }

  /** The engine reads the last bid, finds the ask and says so. */
  lemma FillSent(c: B.Config) returns (r: Run, l: R.Letter)
    requires Matching(c, 0)
    ensures Proper(c, r) && l in r.Last().mail && l.id == OrderOf(c, 2, 0).id && KindOfBody(l.body) == B.Fill(0)
    ensures r.Last().bot.mutex.Free? && l.id in r.Last().bot.pending
  {
    var z;
    r, z := AskLeft(c);
    var s, m := r.Last(), OrderOf(c, 2, 0);
    IdsDiffer(c, 2, 0, 0, 1);
    BidFills(c, 2, s.engine.book, z, Clocks.Tick(s.engine.last, 0));
    var ls := R.Letters(z, m.id, Submit(s.engine.book, z, m, Clocks.Tick(s.engine.last, 0)).replies);
    l := ls[1];
    assert l in ls && l == R.Letter(z, m.id, Fill(10, L.BasePrice(c.bot), 0));
    r := Reads(c, r, 0, m);
  }

  /** After two lost connections, and no failed write, a bid is filled as it comes in and leaves the table so. */
  lemma FilledAfterReconnects(c: B.Config) returns (r: Run, l: R.Letter)
    requires Matching(c, 0)
    ensures Proper(c, r) && |r.actions| > 0 && r.actions[|r.actions| - 1] == Deliver(l) && IsBid(c, l.id)
    ensures TakesOff(c, r.states[|r.actions| - 1], Deliver(l), l.id)
  {
    r, l := FillSent(c);
    assert c.templates[0].Place? && c.templates[0].side == "buy" && l.id == L.OrderId(c.bot, 2, c.templates[0].tag);
    r := Go(c, r, Deliver(l));
  }
}
