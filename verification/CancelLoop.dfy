/** Bot and engine together on one connection, for cancel_correctness: orders and the cancels that withdraw them take
    turns. */
module CancelLoop {
  import opened Options
  import opened Orders
  import opened BookSpec
  import opened ClosedLoop
  import Clocks
  import B = BotRunner
  import L = LoadSequences
  import R = EngineRuns

  ghost predicate Cancelling(c: B.Config) { c.bot < WIDE && c == B.Config(c.bot, L.CancelCorrectness(c.bot)) }

  /** The id that the `x`-th message names. */
  function IdNo(c: B.Config, x: nat): string
    requires Cancelling(c)
  {
    L.OrderId(c.bot, x / 4, c.templates[x % 4].tag)
  }

  /** The `x`-th message the bot sends: an order, and then the cancel that withdraws it. */
  function Number(c: B.Config, x: nat): Text
    requires Cancelling(c)
  {
    if x % 2 == 0 then Order(OrderOf(c, x / 4, x % 4)) else Withdrawal(IdNo(c, x))
  }

  /** How many messages the bot has written. */
  function Count(b: B.State): nat { 4 * b.iteration + Done(b) }

  /** An order withdrawn next has the id that the cancel names. */
  lemma SameId(c: B.Config, x: nat)
    requires Cancelling(c) && x % 2 == 0
    ensures IdNo(c, x + 1) == IdNo(c, x) == OrderOf(c, x / 4, x % 4).id
  {
    assert (x + 1) / 4 == x / 4 && (x + 1) % 4 == x % 4 + 1 && x % 4 in {0, 2};
  }

  /** What is on the book when the engine has read `x` messages of the session. */
  ghost predicate Stands(c: B.Config, x: nat, b: Book, session: string)
    requires Cancelling(c)
  {
    if x % 2 == 0 then b == EmptyBook
    else exists r: Resting :: (b == Book([r], []) || b == Book([], [r])) && r.id == IdNo(c, x) && r.session == session
  }

  ghost predicate WriterOk(w: B.Writer) {
    match w
    case At(k) => k <= 4
    case Waiting(k) => k < 4
    case Admitted(k) => k < 4
    case Sending(k) => k < 4
    case _ => true
  }

  /** The wire holds the last of `n` messages, on one connection. */
  ghost predicate Follows(c: B.Config, session: string, wire: seq<Item>, n: nat)
    requires Cancelling(c)
  {
    |wire| <= n && forall j :: 0 <= j < |wire| ==> wire[j] == Item(session, Number(c, n - |wire| + j))
  }

  lemma FollowsRead(c: B.Config, session: string, wire: seq<Item>, n: nat)
    requires Cancelling(c) && Follows(c, session, wire, n) && wire != []
    ensures Follows(c, session, wire[1..], n)
  {
    var rest := wire[1..];
    assert forall j :: 0 <= j < |rest| ==> rest[j] == wire[j + 1];
  }

  lemma FollowsWritten(c: B.Config, session: string, wire: seq<Item>, n: nat)
    requires Cancelling(c) && Follows(c, session, wire, n)
    ensures Follows(c, session, wire + [Item(session, Number(c, n))], n + 1)
  {
  }

  /** ... and the engine has read the others, if the connection still stands. */
  ghost predicate Tracks(c: B.Config, e: R.State, session: string, wire: seq<Item>, n: nat)
    requires Cancelling(c)
  {
    && e.open <= {session} && Follows(c, session, wire, n)
    && (session in e.open ==> Stands(c, n - |wire|, e.book, session))
  }

  lemma TracksWritten(c: B.Config, e: R.State, session: string, wire: seq<Item>, n: nat)
    requires Cancelling(c) && Tracks(c, e, session, wire, n)
    ensures Tracks(c, e, session, wire + [Item(session, Number(c, n))], n + 1)
  {
    FollowsWritten(c, session, wire, n);
  }

  ghost predicate OneLine(c: B.Config, s: State)
    requires Cancelling(c)
  {
    Tracks(c, s.engine, s.session, s.wire, Count(s.bot))
  }

  ghost predicate Line(c: B.Config, s: State)
    requires Cancelling(c)
  {
    && WriterOk(s.bot.writer) && B.TagsCurrent(c, s.bot)
    && if s.bot.writer.Dialing? then Undialed(s) else OneLine(c, s)
  }

  /** The engine has only ever acknowledged orders and cancels. */
  ghost predicate Acknowledges(s: State) {
    forall l :: l in s.mail ==> l.body == Ack || l.body == CancelAck
  }

  // ---------- The bot ----------

  lemma BotCounts(c: B.Config, b: B.State, x: B.Action)
    requires Cancelling(c) && WriterOk(b.writer) && !b.writer.Dialing? && !x.Write?
    requires !(x == B.ReadError && b.writer.Looping? && b.mutex.Free?)
    requires B.TagsCurrent(c, b)
    ensures var b' := B.Step(c, b, x); WriterOk(b'.writer) && !b'.writer.Dialing? && Count(b') == Count(b)
  {
    if x.Take? && b.writer.At? && b.writer.k < 4 {
      TakesUp(c, b);
    }
  }

  /** The cancels are not passed over. */
  lemma TakesUp(c: B.Config, b: B.State)
    requires Cancelling(c) && b.writer.At? && b.writer.k < 4 && B.TagsCurrent(c, b)
    ensures B.Step(c, b, B.Take).writer in {B.Waiting(b.writer.k), B.Sending(b.writer.k)}
  {
    assert c.templates[0].Place? && c.templates[2].Place?;
    if b.writer.k == 1 {
      assert c.templates[0].tag in b.ids;
    } else if b.writer.k == 3 {
      assert c.templates[2].tag in b.ids;
    }
  }

  lemma BotWrites(c: B.Config, b: B.State)
    requires Cancelling(c) && WriterOk(b.writer) && b.writer.Sending? && B.TagsCurrent(c, b)
    ensures TextOf(c, b) == Number(c, Count(b))
    ensures var b' := B.Step(c, b, B.Write(true)); b'.writer == B.At(b.writer.k + 1) && Count(b') == Count(b) + 1
  {
    var k := b.writer.k;
    assert Count(b) / 4 == b.iteration && Count(b) % 4 == k;
    assert c.templates[0].Place? && c.templates[2].Place?;
    if k == 1 {
      assert b.ids[c.templates[0].tag] == L.OrderId(c.bot, b.iteration, c.templates[0].tag);
    } else if k == 3 {
      assert b.ids[c.templates[2].tag] == L.OrderId(c.bot, b.iteration, c.templates[2].tag);
    }
  }

  lemma BotLine(c: B.Config, s: State, x: B.Action)
    requires Cancelling(c) && Line(c, s) && !x.Dial? && !x.Write?
    requires !(x == B.ReadError && s.bot.writer.Looping? && s.bot.mutex.Free?)
    ensures Line(c, s.(bot := B.Step(c, s.bot, x)))
  {
    B.StepTags(c, s.bot, x);
    if s.bot.writer.Dialing? {
      BotDials(c, s.bot, x);
    } else {
      BotCounts(c, s.bot, x);
    }
  }

  lemma Written(c: B.Config, s: State, arrives: bool)
    requires Cancelling(c) && WriterOk(s.bot.writer) && B.TagsCurrent(c, s.bot) && Writes(c, s, true)
    ensures var s' := Step(c, s, Write(true, arrives));
            && s'.engine == s.engine && s'.session == s.session && Count(s'.bot) == Count(s.bot) + 1
            && s'.wire == s.wire + [Item(s.session, Number(c, Count(s.bot)))]
            && WriterOk(s'.bot.writer) && !s'.bot.writer.Dialing? && B.TagsCurrent(c, s'.bot)
  {
    BotWrites(c, s.bot);
    B.StepTags(c, s.bot, B.Write(true));
  }

  lemma WriteLine(c: B.Config, s: State, arrives: bool)
    requires Cancelling(c) && OneLine(c, s) && WriterOk(s.bot.writer) && B.TagsCurrent(c, s.bot) && Writes(c, s, true)
    ensures OneLine(c, Step(c, s, Write(true, arrives)))
  {
    Written(c, s, arrives);
    TracksWritten(c, s.engine, s.session, s.wire, Count(s.bot));
  }

  // ---------- The engine ----------

  /** What the engine reads, as an event. */
  function EventNo(c: B.Config, x: nat, session: string, reading: int): R.Event
    requires Cancelling(c)
  {
    EventOf(Item(session, Number(c, x)), reading)
  }

  /** An order on the empty book rests and is acknowledged. */
  lemma OrderStands(c: B.Config, x: nat, e: R.State, session: string, reading: int)
    requires Cancelling(c) && x % 2 == 0 && x / 4 < WIDE && e.book == EmptyBook && session in e.open
    ensures var e' := R.Step(e, EventNo(c, x, session, reading)); Stands(c, x + 1, e'.book, session) && e'.open == e.open
    ensures R.Sent(e, EventNo(c, x, session, reading)) == [R.Letter(session, IdNo(c, x), Ack)]
  {
    var k, stamp := x % 4, Clocks.Tick(e.last, reading);
    assert k in {0, 2};
    var m := OrderOf(c, x / 4, k);
    SameId(c, x);
    L.OrderIdValid(c.bot, x / 4, c.templates[k].tag);
    L.RestsAlone(EmptyBook, session, m, stamp);
    var r := NewResting(m, session, stamp, 10);
    var b' := Submit(EmptyBook, session, m, stamp).book;
    assert b' == if k == 0 then Book([r], []) else Book([], [r]);
  }

  lemma CancelsOnly(r: Resting, session: string, id: string)
    requires r.id == id && r.session == session
    ensures id in Ids([r]) && id in SessionIds([r], session) && BookSpec.Drop([r], {id}) == []
  {
    var q := [r];
    assert q[0].id in Ids(q) && q[0].id in SessionIds(q, session);
    assert BookSpec.Drop(q, {id}) == [] + BookSpec.Drop(q[1..], {id});
  }

  /** The cancel that follows withdraws it and is acknowledged. */
  lemma CancelStands(c: B.Config, x: nat, e: R.State, session: string, reading: int)
    requires Cancelling(c) && x % 2 == 1 && Stands(c, x, e.book, session) && session in e.open
    ensures var e' := R.Step(e, EventNo(c, x, session, reading)); Stands(c, x + 1, e'.book, session) && e'.open == e.open
    ensures R.Sent(e, EventNo(c, x, session, reading)) == [R.Letter(session, IdNo(c, x), CancelAck)]
  {
    var id := IdNo(c, x);
    var r: Resting :| (e.book == Book([r], []) || e.book == Book([], [r])) && r.id == id && r.session == session;
    CancelsOnly(r, session, id);
    assert Cancel(e.book, session, id) == (EmptyBook, CancelAck);
  }

  lemma ReadStands(c: B.Config, x: nat, e: R.State, session: string, reading: int)
    requires Cancelling(c) && x / 4 < WIDE && Stands(c, x, e.book, session) && session in e.open
    ensures var e' := R.Step(e, EventNo(c, x, session, reading)); Stands(c, x + 1, e'.book, session) && e'.open == e.open
    ensures forall l :: l in R.Sent(e, EventNo(c, x, session, reading)) ==> l.body == Ack || l.body == CancelAck
  {
    if x % 2 == 0 {
      OrderStands(c, x, e, session, reading);
    } else {
      CancelStands(c, x, e, session, reading);
    }
  }

  lemma FirstIsNext(c: B.Config, s: State, k: nat)
    requires Cancelling(c) && OneLine(c, s) && Next(s, k)
    ensures k == 0 && s.session in s.engine.open && |s.wire| > 0
    ensures s.wire[0] == Item(s.session, Number(c, Count(s.bot) - |s.wire|))
  {
    assert s.wire[k].session == s.session && s.wire[0].session == s.session;
  }

  lemma TracksRead(c: B.Config, e: R.State, session: string, wire: seq<Item>, n: nat, reading: int)
    requires Cancelling(c) && Tracks(c, e, session, wire, n) && session in e.open && wire != []
    requires (n - |wire|) / 4 < WIDE
    ensures wire[0] == Item(session, Number(c, n - |wire|))
    ensures Tracks(c, R.Step(e, EventOf(wire[0], reading)), session, wire[1..], n)
  {
    var x := n - |wire|;
    FollowsRead(c, session, wire, n);
    ReadStands(c, x, e, session, reading);
    TracksNext(c, R.Step(e, EventNo(c, x, session, reading)), session, wire[1..], n);
  }

  lemma RepliesRead(c: B.Config, e: R.State, session: string, wire: seq<Item>, n: nat, reading: int)
    requires Cancelling(c) && Tracks(c, e, session, wire, n) && session in e.open && wire != []
    requires (n - |wire|) / 4 < WIDE
    ensures forall l :: l in R.Sent(e, EventOf(wire[0], reading)) ==> l.body == Ack || l.body == CancelAck
  {
    ReadStands(c, n - |wire|, e, session, reading);
  }

  lemma TracksNext(c: B.Config, e: R.State, session: string, wire: seq<Item>, n: nat)
    requires Cancelling(c) && Follows(c, session, wire, n) && e.open <= {session}
    requires Stands(c, n - |wire|, e.book, session)
    ensures Tracks(c, e, session, wire, n)
  {
  }

  lemma ServeLine(c: B.Config, s: State, k: nat, reading: int)
    requires Cancelling(c) && OneLine(c, s) && Next(s, k) && s.bot.iteration < WIDE && Done(s.bot) <= 4
    requires Acknowledges(s)
    ensures OneLine(c, Step(c, s, Serve(k, reading))) && Acknowledges(Step(c, s, Serve(k, reading)))
  {
    FirstIsNext(c, s, k);
    assert (Count(s.bot) - |s.wire|) / 4 < WIDE;
    TracksRead(c, s.engine, s.session, s.wire, Count(s.bot), reading);
    RepliesRead(c, s.engine, s.session, s.wire, Count(s.bot), reading);
    assert s.wire[..0] + s.wire[1..] == s.wire[1..];
  }

  // ---------- Every run ----------

  lemma StepLine(c: B.Config, s: State, a: Action)
    requires Cancelling(c) && Line(c, s) && Acknowledges(s) && !Breaks(c, s, a) && s.bot.iteration < WIDE
    ensures Line(c, Step(c, s, a)) && Acknowledges(Step(c, s, a))
  {
    match a
    case Own(x) => if !x.Dial? && !x.Write? && !x.Handle? { BotLine(c, s, x); }
    case Deliver(l) => BotLine(c, s, B.Handle(l.id, KindOfBody(l.body)));
    case Dial(addr, reading) => DialLine(c, s, addr, reading);
    case Write(ok, arrives) =>
      if Writes(c, s, ok) && !s.bot.writer.Dialing? {
        Written(c, s, arrives);
        WriteLine(c, s, arrives);
      }
    case Serve(k, reading) => if Next(s, k) && !s.bot.writer.Dialing? { ServeLine(c, s, k, reading); }
    case Drop(session) => DropLine(c, s, session);
  }

  lemma DialLine(c: B.Config, s: State, addr: string, reading: int)
    requires Cancelling(c) && Line(c, s) && Acknowledges(s)
    ensures Line(c, Step(c, s, Dial(addr, reading))) && Acknowledges(Step(c, s, Dial(addr, reading)))
  {
    B.StepTags(c, s.bot, B.Dial);
  }

  lemma DropLine(c: B.Config, s: State, session: string)
    requires Cancelling(c) && Line(c, s) && Acknowledges(s)
    ensures Line(c, Step(c, s, Drop(session))) && Acknowledges(Step(c, s, Drop(session)))
  {
  }

  lemma {:induction false} RunLine(c: B.Config, states: seq<State>, actions: seq<Action>, n: nat)
    requires Cancelling(c) && IsRun(c, states, actions) && n < |states| && states[n].bot.iteration < WIDE
    requires !Broken(c, states, actions, n)
    ensures Line(c, states[n]) && Acknowledges(states[n])
  {
    if n > 0 {
      StepForward(c, states[n - 1], actions[n - 1]);
      RunLine(c, states, actions, n - 1);
      StepLine(c, states[n - 1], actions[n - 1]);
    }
  }

  lemma AcknowledgedTakesOff(c: B.Config, s: State, a: Action, id: string)
    requires Acknowledges(s) && TakesOff(c, s, a, id)
    ensures a == Own(B.Expire(id)) || (a.Deliver? && a.l.id == id && a.l.body == CancelAck)
  {
    match a
    case Own(x) => if !x.Handle? { B.PendingNext(c, s.bot, x, id); }
    case Dial(_, _) => B.PendingNext(c, s.bot, B.Dial, id);
    case Write(ok, _) => B.PendingNext(c, s.bot, B.Write(ok), id);
    case Deliver(l) => B.PendingNext(c, s.bot, B.Handle(l.id, KindOfBody(l.body)), id);
    case _ =>
  }

  /** In every run of cancel_correctness on one connection nothing is rejected or filled, and an order leaves the table
      only when its cancel is acknowledged or it has grown old. */
  lemma OrdersAreWithdrawn(c: B.Config, states: seq<State>, actions: seq<Action>, n: nat, id: string)
    requires Cancelling(c) && IsRun(c, states, actions) && n < |actions| && states[n].bot.iteration < WIDE
    requires !Broken(c, states, actions, n)
    ensures Acknowledges(states[n])
    ensures TakesOff(c, states[n], actions[n], id) ==>
              actions[n] == Own(B.Expire(id)) ||
              (actions[n].Deliver? && actions[n].l.id == id && actions[n].l.body == CancelAck)
  {
    RunLine(c, states, actions, n);
    if TakesOff(c, states[n], actions[n], id) {
      AcknowledgedTakesOff(c, states[n], actions[n], id);
    }
  }
}
