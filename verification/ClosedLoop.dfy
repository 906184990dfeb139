/** A load bot and an engine of its own, joined by connections: the engine reads what the bot has written, and the
    readers of the bot handle what the engine has sent. */
module ClosedLoop {
  import opened Options
  import opened Orders
  import opened BookSpec
  import Clocks
  import B = BotRunner
  import L = LoadSequences
  import R = EngineRuns

  datatype Text = Order(m: Request) | Withdrawal(id: string)

  /** A message on its way to the engine, on the connection of a session. */
  datatype Item = Item(session: string, text: Text)

  /** `wire` holds what was written and not yet read, in the order of writing; `mail` everything the engine ever
      sent; `session` is the current connection. */
  datatype State = State(bot: B.State, engine: R.State, session: string, wire: seq<Item>, mail: set<R.Letter>)

  const Initial := State(B.Initial, R.Initial, "", [], {})

  datatype Action =
    | Own(a: B.Action)                      // a step of the bot that touches no connection
    | Dial(addr: string, reading: int)
    | Write(ok: bool, arrives: bool)        // a write that fails may have got through
    | Serve(k: nat, reading: int)           // the engine reads the next message of some connection
    | Drop(session: string)                 // the engine finds a connection gone
    | Deliver(l: R.Letter)                  // a reader of the bot handles a letter

  function KindOfBody(b: Body): B.Kind {
    match b
    case Ack => B.Ack
    case Fill(_, _, remaining) => B.Fill(remaining)
    case CancelAck => B.CancelAck
    case Reject(_) => B.Reject
  }

  /** The order that template `k` sends in iteration `i`. */
  function OrderOf(c: B.Config, i: nat, k: nat): Request
    requires k < |c.templates| && c.templates[k].Place?
  {
    var t := c.templates[k];
    Request(L.OrderId(c.bot, i, t.tag), t.side, t.kind, t.price, t.quantity)
  }

  /** What the writer is about to write. */
  function TextOf(c: B.Config, b: B.State): Text
    requires b.writer.Sending? && b.writer.k < |c.templates|
  {
    match c.templates[b.writer.k]
    case Place(_, _, _, _, _) => Order(OrderOf(c, b.iteration, b.writer.k))
    case Withdraw(tag) => Withdrawal(if tag in b.ids then b.ids[tag] else "")
  }

  function EventOf(item: Item, reading: int): R.Event {
    match item.text
    case Order(m) => R.NewOrder(item.session, m, reading)
    case Withdrawal(id) => R.CancelOrder(item.session, id)
  }

  /** Each connection is read in the order it was written. */
  predicate Next(s: State, k: nat) {
    && k < |s.wire| && s.wire[k].session in s.engine.open
    && forall j :: 0 <= j < k ==> s.wire[j].session != s.wire[k].session
  }

  predicate Writes(c: B.Config, s: State, ok: bool) {
    s.bot.writer.Sending? && s.bot.writer.k < |c.templates| && (ok || s.bot.mutex.Free?)
  }

  function Step(c: B.Config, s: State, a: Action): State {
    match a
    case Own(x) => if x.Dial? || x.Write? || x.Handle? then s else s.(bot := B.Step(c, s.bot, x))
    case Dial(addr, reading) =>
      if s.bot.writer.Dialing?
      then s.(bot := B.Step(c, s.bot, B.Dial), engine := R.Step(s.engine, R.Connect(addr, reading)),
              session := R.SessionId(addr, Clocks.Tick(s.engine.last, reading)))
      else s
    case Write(ok, arrives) =>
      if Writes(c, s, ok)
      then s.(bot := B.Step(c, s.bot, B.Write(ok)),
              wire := if ok || arrives then s.wire + [Item(s.session, TextOf(c, s.bot))] else s.wire)
      else s
    case Serve(k, reading) =>
      if Next(s, k) then
        var e := EventOf(s.wire[k], reading);
        s.(engine := R.Step(s.engine, e), wire := s.wire[..k] + s.wire[k + 1..],
           mail := s.mail + set l | l in R.Sent(s.engine, e))
      else s
    case Drop(session) => s.(engine := R.Step(s.engine, R.Disconnect(session)))
    case Deliver(l) => if l in s.mail then s.(bot := B.Step(c, s.bot, B.Handle(l.id, KindOfBody(l.body)))) else s
  }

  ghost predicate IsRun(c: B.Config, states: seq<State>, actions: seq<Action>) {
    && |states| == |actions| + 1 && states[0] == Initial
    && forall i {:trigger actions[i]} :: 0 <= i < |actions| ==> states[i + 1] == Step(c, states[i], actions[i])
  }

  /** A bot with a number of 64 bits that runs one of the sequences without cancels. */
  ghost predicate Matching(c: B.Config, which: nat) {
    which < 2 && c.bot < WIDE && c == B.Config(c.bot, L.Sequences(c.bot)[which])
  }

  const WIDE := 0x8000_0000_0000_0000

  /** A write fails. */
  predicate Fails(c: B.Config, s: State, a: Action) { a.Write? && !a.ok && Writes(c, s, false) }

  ghost predicate Failed(c: B.Config, states: seq<State>, actions: seq<Action>, n: nat)
    requires n <= |actions| < |states|
  {
    n > 0 && (Failed(c, states, actions, n - 1) || Fails(c, states[n - 1], actions[n - 1]))
  }

  // ---------- The writer never goes back ----------

  /** How many templates of the current iteration have been written. */
  function Done(b: B.State): nat {
    match b.writer
    case At(k) => k
    case Waiting(k) => k
    case Admitted(k) => k
    case Sending(k) => k
    case _ => 0
  }

  predicate Before(i: nat, k: nat, b: B.State) { i < b.iteration || (i == b.iteration && k < Done(b)) }

  predicate Forward(b: B.State, b': B.State) {
    b.iteration < b'.iteration || (b.iteration == b'.iteration && Done(b) <= Done(b'))
  }

  lemma BotForward(c: B.Config, b: B.State, x: B.Action)
    requires !x.Write?
    ensures Forward(b, B.Step(c, b, x))
  {
  }

  lemma StepForward(c: B.Config, s: State, a: Action)
    requires !Fails(c, s, a)
    ensures Forward(s.bot, Step(c, s, a).bot)
  {
    match a
    case Own(x) => if !x.Write? { BotForward(c, s.bot, x); }
    case Dial(_, _) => BotForward(c, s.bot, B.Dial);
    case Deliver(l) => BotForward(c, s.bot, B.Handle(l.id, KindOfBody(l.body)));
    case _ =>
  }

  // ---------- What is on the wire and on the book ----------

  /** The id was given to an order that has been written. */
  ghost predicate Used(c: B.Config, b: B.State, id: string) {
    exists i: nat, k: nat ::
      k < |c.templates| && c.templates[k].Place? && Before(i, k, b) && id == L.OrderId(c.bot, i, c.templates[k].tag)
  }

  /** The order of some template, already written. */
  ghost predicate Ours(c: B.Config, b: B.State, m: Request) {
    exists i: nat, k: nat ::
      k < |c.templates| && c.templates[k].Place? && Before(i, k, b) && m == OrderOf(c, i, k)
  }

  ghost predicate WireOk(c: B.Config, b: B.State, wire: seq<Item>) {
    && (forall j :: 0 <= j < |wire| ==> wire[j].text.Order? && Ours(c, b, wire[j].text.m))
    && (forall i, j :: 0 <= i < j < |wire| ==> wire[i].text.m.id != wire[j].text.m.id)
  }

  ghost predicate BookOk(c: B.Config, b: B.State, book: Book, wire: seq<Item>) {
    && (forall id :: id in BookIds(book) ==> Used(c, b, id))
    && (forall j :: 0 <= j < |wire| && wire[j].text.Order? ==> wire[j].text.m.id !in BookIds(book))
  }

  ghost predicate Inv(c: B.Config, s: State) {
    WireOk(c, s.bot, s.wire) && BookOk(c, s.bot, s.engine.book, s.wire)
  }

  lemma StillOurs(c: B.Config, b: B.State, b': B.State, m: Request)
    requires Ours(c, b, m) && Forward(b, b')
    ensures Ours(c, b', m)
  {
  }

  lemma StillUsed(c: B.Config, b: B.State, b': B.State, id: string)
    requires Used(c, b, id) && Forward(b, b')
    ensures Used(c, b', id)
  {
  }

  /** A step of the bot alone. */
  lemma BotInv(c: B.Config, s: State, b': B.State)
    requires Inv(c, s) && Forward(s.bot, b')
    ensures Inv(c, s.(bot := b'))
  {
    forall j | 0 <= j < |s.wire| ensures Ours(c, b', s.wire[j].text.m) {
      StillOurs(c, s.bot, b', s.wire[j].text.m);
    }
    forall id | id in BookIds(s.engine.book) ensures Used(c, b', id) {
      StillUsed(c, s.bot, b', id);
    }
  }

  lemma UsedIsBefore(c: B.Config, b: B.State, k: nat, id: string)
    requires B.DistinctTags(c) && b.writer == B.Sending(k) && k < |c.templates| && c.templates[k].Place?
    requires Used(c, b, id)
    ensures id != L.OrderId(c.bot, b.iteration, c.templates[k].tag)
  {
    var i: nat, j: nat :| j < |c.templates| && c.templates[j].Place? && Before(i, j, b)
                          && id == L.OrderId(c.bot, i, c.templates[j].tag);
    if id == L.OrderId(c.bot, b.iteration, c.templates[k].tag) {
      L.OrderIdInjective(c.bot, i, c.templates[j].tag, c.bot, b.iteration, c.templates[k].tag);
    }
  }

  lemma OursIsUsed(c: B.Config, b: B.State, m: Request)
    requires Ours(c, b, m)
    ensures Used(c, b, m.id)
  {
  }

  ghost predicate OrdersOnly(c: B.Config) { forall k :: 0 <= k < |c.templates| ==> c.templates[k].Place? }

  lemma WireWritten(c: B.Config, b: B.State, book: Book, wire: seq<Item>, session: string, m: Request)
    requires WireOk(c, b, wire) && BookOk(c, b, book, wire) && Ours(c, b, m) && m.id !in BookIds(book)
    requires forall j :: 0 <= j < |wire| ==> wire[j].text.m.id != m.id
    ensures WireOk(c, b, wire + [Item(session, Order(m))]) && BookOk(c, b, book, wire + [Item(session, Order(m))])
  {
  }

  lemma WriteInv(c: B.Config, s: State, arrives: bool)
    requires Inv(c, s) && B.DistinctTags(c) && OrdersOnly(c) && Writes(c, s, true)
    ensures Inv(c, Step(c, s, Write(true, arrives)))
  {
    var b', k := B.Step(c, s.bot, B.Write(true)), s.bot.writer.k;
    var m := OrderOf(c, s.bot.iteration, k);
    NewOnWire(c, s, k);
    BotInv(c, s, b');
    assert Before(s.bot.iteration, k, b');
    assert Ours(c, b', m);
    WireWritten(c, b', s.engine.book, s.wire, s.session, m);
  }

  /** The order about to be written is neither on the wire nor on the book. */
  lemma NewOnWire(c: B.Config, s: State, k: nat)
    requires Inv(c, s) && B.DistinctTags(c) && s.bot.writer == B.Sending(k) && k < |c.templates|
    requires c.templates[k].Place?
    ensures var id := OrderOf(c, s.bot.iteration, k).id;
            && id !in BookIds(s.engine.book) && forall j :: 0 <= j < |s.wire| ==> s.wire[j].text.m.id != id
  {
    var id := OrderOf(c, s.bot.iteration, k).id;
    forall j | 0 <= j < |s.wire| ensures s.wire[j].text.m.id != id {
      OursIsUsed(c, s.bot, s.wire[j].text.m);
      UsedIsBefore(c, s.bot, k, s.wire[j].text.m.id);
    }
    if id in BookIds(s.engine.book) {
      UsedIsBefore(c, s.bot, k, id);
    }
  }

  /** Handling an order brings no other id onto the book. */
  lemma SubmitIds(b: Book, session: string, m: Request, stamp: int)
    ensures BookIds(Submit(b, session, m, stamp).book) <= BookIds(b) + {m.id}
  {
    if Refused(b, m).None? {
      Accepted(b, session, m, stamp);
      var side, out := SideOf(m), Matched(b, m);
      WalkIds(side, KindOf(m), m.price, m.quantity, b.On(side.Opposite()));
      InsertIds(side, NewResting(m, session, stamp, out.left), b.On(side));
    }
  }

  lemma {:induction false} WalkIds(side: Side, kind: Kind, limit: real, want: int, q: seq<Resting>)
    ensures Ids(Walk(side, kind, limit, want, q).queue) <= Ids(q)
    ensures Prices(Walk(side, kind, limit, want, q).queue) <= Prices(q)
    decreases |q|, if want > 0 then want else 0
  {
    if want > 0 && q != [] && Crosses(side, kind, limit, q[0].price) {
      var t := FirstTrade(want, q);
      WalkIds(side, kind, limit, t.remaining, AfterTrade(q, t.qty));
      AfterTradeIds(q, t.qty);
    }
  }

  lemma AfterTradeIds(q: seq<Resting>, qty: int)
    requires q != []
    ensures Ids(AfterTrade(q, qty)) <= Ids(q) && Prices(AfterTrade(q, qty)) <= Prices(q)
  {
  }

  lemma InsertIds(side: Side, x: Resting, q: seq<Resting>)
    ensures Ids(Insert(side, x, q)) <= Ids(q) + {x.id}
  {
    InsertMembers(side, x, q);
    var t := Insert(side, x, q);
    forall i | 0 <= i < |t| ensures t[i].id in Ids(q) + {x.id} {
      assert t[i] in multiset(t);
      assert t[i] == x || t[i] in q;
    }
  }

  lemma DropIds(b: Book, ids: set<string>)
    ensures BookIds(DropBoth(b, ids)) <= BookIds(b)
  {
    DropMembers(b.bids, ids);
    DropMembers(b.asks, ids);
  }

  /** The engine step of a message that was written. */
  lemma ServeIds(e: R.State, session: string, m: Request, reading: int)
    ensures BookIds(R.Step(e, R.NewOrder(session, m, reading)).book) <= BookIds(e.book) + {m.id}
  {
    SubmitIds(e.book, session, m, Clocks.Tick(e.last, reading));
  }

  /** The wire without the message that was read. */
  lemma WireRead(c: B.Config, b: B.State, wire: seq<Item>, k: nat)
    requires WireOk(c, b, wire) && k < |wire|
    ensures var rest := wire[..k] + wire[k + 1..];
            && WireOk(c, b, rest)
            && forall j :: 0 <= j < |rest| ==> rest[j] in wire && rest[j].text.m.id != wire[k].text.m.id
  {
    var rest := wire[..k] + wire[k + 1..];
    assert forall j :: 0 <= j < |rest| ==> rest[j] == wire[if j < k then j else j + 1];
  }

  lemma BookRead(c: B.Config, b: B.State, book: Book, book': Book, wire: seq<Item>, k: nat)
    requires WireOk(c, b, wire) && BookOk(c, b, book, wire) && k < |wire|
    requires BookIds(book') <= BookIds(book) + {wire[k].text.m.id}
    ensures BookOk(c, b, book', wire[..k] + wire[k + 1..])
  {
    WireRead(c, b, wire, k);
    OursIsUsed(c, b, wire[k].text.m);
  }

  lemma ServeInv(c: B.Config, s: State, k: nat, reading: int)
    requires Inv(c, s)
    ensures Inv(c, Step(c, s, Serve(k, reading)))
  {
    if Next(s, k) {
      var e' := R.Step(s.engine, EventOf(s.wire[k], reading));
      ServeIds(s.engine, s.wire[k].session, s.wire[k].text.m, reading);
      WireRead(c, s.bot, s.wire, k);
      BookRead(c, s.bot, s.engine.book, e'.book, s.wire, k);
    }
  }

  lemma DropInv(c: B.Config, s: State, session: string)
    requires Inv(c, s)
    ensures Inv(c, Step(c, s, Drop(session)))
  {
    DropIds(s.engine.book, Owned(s.engine.book, session));
  }

  lemma StepInv(c: B.Config, s: State, a: Action)
    requires Inv(c, s) && B.DistinctTags(c) && OrdersOnly(c) && !Fails(c, s, a)
    ensures Inv(c, Step(c, s, a))
  {
    match a
    case Write(ok, arrives) => if ok && Writes(c, s, ok) { WriteInv(c, s, arrives); }
    case Serve(k, reading) => ServeInv(c, s, k, reading);
    case Drop(session) => DropInv(c, s, session);
    case _ =>
      StepForward(c, s, a);
      BotInv(c, s, Step(c, s, a).bot);
  }

  lemma MatchingTags(c: B.Config, which: nat)
    requires Matching(c, which)
    ensures B.DistinctTags(c) && OrdersOnly(c)
  {
    B.SequencesHaveDistinctTags(c.bot, which);
  }

  lemma {:induction false} RunInv(c: B.Config, which: nat, states: seq<State>, actions: seq<Action>, n: nat)
    requires Matching(c, which) && IsRun(c, states, actions) && n < |states| && !Failed(c, states, actions, n)
    ensures Inv(c, states[n])
  {
    if n > 0 {
      RunInv(c, which, states, actions, n - 1);
      MatchingTags(c, which);
      StepInv(c, states[n - 1], actions[n - 1]);
    }
  }

  // ---------- What the engine says about bids ----------

  ghost predicate IsBid(c: B.Config, id: string) {
    exists i: nat, k: nat ::
      && k < |c.templates| && c.templates[k].Place? && c.templates[k].side == "buy"
      && id == L.OrderId(c.bot, i, c.templates[k].tag)
  }

  /** The engine reads a bid while an ask is on the book. */
  ghost predicate Meets(s: State, a: Action) {
    a.Serve? && Next(s, a.k) && s.wire[a.k].text.Order? && s.wire[a.k].text.m.side == "buy" && s.engine.book.asks != []
  }

  ghost predicate Met(states: seq<State>, actions: seq<Action>, n: nat)
    requires n <= |actions| < |states|
  {
    n > 0 && (Met(states, actions, n - 1) || Meets(states[n - 1], actions[n - 1]))
  }

  /** An id names one template, so an order with the id of a bid is that bid. */
  lemma BidIsBuy(c: B.Config, i: nat, k: nat)
    requires B.DistinctTags(c) && k < |c.templates| && c.templates[k].Place? && IsBid(c, OrderOf(c, i, k).id)
    ensures c.templates[k].side == "buy"
  {
    var i': nat, k': nat :| k' < |c.templates| && c.templates[k'].Place? && c.templates[k'].side == "buy"
                            && OrderOf(c, i, k).id == L.OrderId(c.bot, i', c.templates[k'].tag);
    L.OrderIdInjective(c.bot, i, c.templates[k].tag, c.bot, i', c.templates[k'].tag);
  }

  lemma TemplateOk(c: B.Config, which: nat, k: nat)
    requires Matching(c, which) && k < |c.templates|
    ensures var t := c.templates[k];
            && t.Place? && L.ValidTag(t.tag) && t.side in {"buy", "sell"} && t.quantity > 0
            && (t.side == "buy" ==> t.kind == "limit" && t.price > 0.0)
            && (t.side == "sell" ==> if which == 0 then t.kind == "limit" && t.price > 0.0 else t.kind == "market")
  {
  }

  /** The engine accepts what the bot sends, if the id is not in use. */
  lemma OrderAccepted(c: B.Config, which: nat, i: nat, k: nat, b: Book)
    requires Matching(c, which) && k < |c.templates| && c.templates[k].Place? && i < WIDE
    requires OrderOf(c, i, k).id !in BookIds(b)
    ensures Refused(b, OrderOf(c, i, k)).None?
  {
    TemplateOk(c, which, k);
    L.OrderIdValid(c.bot, i, c.templates[k].tag);
  }

  /** A bid that meets no ask is acknowledged and rests. */
  lemma BidAcknowledged(c: B.Config, which: nat, i: nat, k: nat, b: Book, session: string, stamp: int)
    requires Matching(c, which) && k < |c.templates| && c.templates[k].Place? && i < WIDE
    requires c.templates[k].side == "buy" && OrderOf(c, i, k).id !in BookIds(b) && b.asks == []
    ensures Submit(b, session, OrderOf(c, i, k), stamp).replies == [Ack]
  {
    TemplateOk(c, which, k);
    OrderAccepted(c, which, i, k, b);
    Accepted(b, session, OrderOf(c, i, k), stamp);
  }

  /** All that the engine has said about bids is that it took them. */
  ghost predicate Clean(c: B.Config, s: State) {
    forall l :: l in s.mail && IsBid(c, l.id) ==> l.body == Ack
  }

  lemma ServeClean(c: B.Config, which: nat, s: State, k: nat, reading: int)
    requires Matching(c, which) && Inv(c, s) && Clean(c, s) && s.bot.iteration < WIDE
    requires Next(s, k) && !Meets(s, Serve(k, reading))
    ensures forall l :: l in R.Sent(s.engine, EventOf(s.wire[k], reading)) && IsBid(c, l.id) ==> l.body == Ack
  {
    var m, session := s.wire[k].text.m, s.wire[k].session;
    var i: nat, j: nat :| j < |c.templates| && c.templates[j].Place? && Before(i, j, s.bot) && m == OrderOf(c, i, j);
    var stamp := Clocks.Tick(s.engine.last, reading);
    if IsBid(c, m.id) {
      MatchingTags(c, which);
      BidIsBuy(c, i, j);
      BidAcknowledged(c, which, i, j, s.engine.book, session, stamp);
      assert R.Sent(s.engine, EventOf(s.wire[k], reading)) == [R.Letter(session, m.id, Ack)];
    }
  }

  lemma StepClean(c: B.Config, which: nat, s: State, a: Action)
    requires Matching(c, which) && Inv(c, s) && Clean(c, s) && s.bot.iteration < WIDE && !Meets(s, a)
    ensures Clean(c, Step(c, s, a))
  {
    if a.Serve? && Next(s, a.k) {
      ServeClean(c, which, s, a.k, a.reading);
    }
  }

  lemma {:induction false} RunClean(c: B.Config, which: nat, states: seq<State>, actions: seq<Action>, n: nat)
    requires Matching(c, which) && IsRun(c, states, actions) && n < |states| && states[n].bot.iteration < WIDE
    requires !Failed(c, states, actions, n) && !Met(states, actions, n)
    ensures Clean(c, states[n])
  {
    if n > 0 {
      StepForward(c, states[n - 1], actions[n - 1]);
      RunInv(c, which, states, actions, n - 1);
      RunClean(c, which, states, actions, n - 1);
      StepClean(c, which, states[n - 1], actions[n - 1]);
    }
  }

  /** The step of the bot in a step of the whole. */
  function BotAction(a: Action): B.Action {
    match a
    case Own(x) => x
    case Dial(_, _) => B.Dial
    case Write(ok, _) => B.Write(ok)
    case Deliver(l) => B.Handle(l.id, KindOfBody(l.body))
    case _ => B.Unlock
  }

  /** The step takes the order off the bot's table. */
  ghost predicate TakesOff(c: B.Config, s: State, a: Action, id: string) {
    id in s.bot.pending && id !in Step(c, s, a).bot.pending
  }

  /** A letter that is handled takes its order off if it is a reject, a cancel_ack or the last fill. */
  lemma LetterTakesOff(c: B.Config, s: State, l: R.Letter)
    requires l in s.mail && l.id in s.bot.pending && s.bot.mutex.Free?
    ensures TakesOff(c, s, Deliver(l), l.id) <==>
            match l.body
            case Ack => false
            case Fill(_, _, remaining) => remaining == 0
            case CancelAck => true
            case Reject(_) => true
  {
  }

  lemma CleanTakesOff(c: B.Config, s: State, a: Action, id: string)
    requires Clean(c, s) && IsBid(c, id) && TakesOff(c, s, a, id)
    ensures a == Own(B.Expire(id))
  {
    match a
    case Own(x) => if !x.Handle? { B.PendingNext(c, s.bot, x, id); }
    case Dial(_, _) => B.PendingNext(c, s.bot, B.Dial, id);
    case Write(ok, _) => B.PendingNext(c, s.bot, B.Write(ok), id);
    case Deliver(l) => B.PendingNext(c, s.bot, B.Handle(l.id, KindOfBody(l.body)), id);
    case _ =>
  }

  /** As long as no write fails and no bid is read while an ask is on the book, a bid leaves the bot's table only by
      growing old: the engine never tells its session of the trade that used it up. */
  lemma BidsGrowOld(c: B.Config, which: nat, states: seq<State>, actions: seq<Action>, n: nat, id: string)
    requires Matching(c, which) && IsRun(c, states, actions) && n < |actions| && states[n].bot.iteration < WIDE
    requires !Failed(c, states, actions, n) && !Met(states, actions, n)
    requires IsBid(c, id) && TakesOff(c, states[n], actions[n], id)
    ensures actions[n] == Own(B.Expire(id))
  {
    RunClean(c, which, states, actions, n);
    CleanTakesOff(c, states[n], actions[n], id);
  }

  // ---------- A bid that meets an ask is told of it ----------

  ghost predicate OnePrice(c: B.Config, b: Book) {
    forall p :: p in Prices(b.asks) ==> p == L.BasePrice(c.bot)
  }

  lemma SubmitPrices(c: B.Config, i: nat, k: nat, b: Book, session: string, stamp: int)
    requires Matching(c, 0) && k < |c.templates| && c.templates[k].Place? && OnePrice(c, b)
    ensures OnePrice(c, Submit(b, session, OrderOf(c, i, k), stamp).book)
  {
    var m := OrderOf(c, i, k);
    if Refused(b, m).None? {
      Accepted(b, session, m, stamp);
      WalkIds(SideOf(m), KindOf(m), m.price, m.quantity, b.On(SideOf(m).Opposite()));
      InsertPrices(SideOf(m), NewResting(m, session, stamp, Matched(b, m).left), b.On(SideOf(m)));
    }
  }

  lemma StepPrices(c: B.Config, s: State, a: Action)
    requires Matching(c, 0) && Inv(c, s) && OnePrice(c, s.engine.book)
    ensures OnePrice(c, Step(c, s, a).engine.book)
  {
    if a.Serve? && Next(s, a.k) {
      var m := s.wire[a.k].text.m;
      var i: nat, j: nat :| j < |c.templates| && c.templates[j].Place? && Before(i, j, s.bot) && m == OrderOf(c, i, j);
      SubmitPrices(c, i, j, s.engine.book, s.wire[a.k].session, Clocks.Tick(s.engine.last, a.reading));
    } else if a.Drop? {
      DropMembers(s.engine.book.asks, Owned(s.engine.book, a.session));
    }
  }

  lemma {:induction false} RunPrices(c: B.Config, states: seq<State>, actions: seq<Action>, n: nat)
    requires Matching(c, 0) && IsRun(c, states, actions) && n < |states| && !Failed(c, states, actions, n)
    ensures OnePrice(c, states[n].engine.book)
  {
    if n > 0 {
      RunPrices(c, states, actions, n - 1);
      RunInv(c, 0, states, actions, n - 1);
      StepPrices(c, states[n - 1], actions[n - 1]);
    }
  }

  /** The engine has sent a fill for some bid. */
  ghost predicate BidFilled(c: B.Config, s: State) {
    exists l :: l in s.mail && IsBid(c, l.id) && l.body.Fill?
  }

  lemma BidTrades(c: B.Config, i: nat, k: nat, b: Book, session: string, stamp: int)
    requires Matching(c, 0) && k < |c.templates| && c.templates[k].Place? && c.templates[k].side == "buy" && i < WIDE
    requires OrderOf(c, i, k).id !in BookIds(b) && b.asks != [] && OnePrice(c, b)
    ensures exists f :: f in Submit(b, session, OrderOf(c, i, k), stamp).replies && f.Fill?
  {
    var m := OrderOf(c, i, k);
    OrderAccepted(c, 0, i, k, b);
    Accepted(b, session, m, stamp);
    assert b.asks[0].price in Prices(b.asks);
    var out := Matched(b, m);
    assert out.trades != [] && out.trades[0] == FirstTrade(10, b.asks);
    var r := Submit(b, session, m, stamp);
    assert r.replies[1] == Fills(out.trades)[0];
  }

  lemma MeetFills(c: B.Config, s: State, a: Action)
    requires Matching(c, 0) && Inv(c, s) && OnePrice(c, s.engine.book) && s.bot.iteration < WIDE && Meets(s, a)
    ensures BidFilled(c, Step(c, s, a))
  {
    var m, session := s.wire[a.k].text.m, s.wire[a.k].session;
    var i: nat, j: nat :| j < |c.templates| && c.templates[j].Place? && Before(i, j, s.bot) && m == OrderOf(c, i, j);
    var stamp := Clocks.Tick(s.engine.last, a.reading);
    BidTrades(c, i, j, s.engine.book, session, stamp);
    var r := Submit(s.engine.book, session, m, stamp).replies;
    var n :| 0 <= n < |r| && r[n].Fill?;
    var sent := R.Sent(s.engine, EventOf(s.wire[a.k], a.reading));
    assert sent[n] == R.Letter(session, m.id, r[n]) && sent[n] in sent;
    assert sent[n] in Step(c, s, a).mail && IsBid(c, sent[n].id);
  }

  lemma MailStays(c: B.Config, s: State, a: Action)
    ensures s.mail <= Step(c, s, a).mail
  {
  }

  lemma {:induction false} MetIsFilled(c: B.Config, states: seq<State>, actions: seq<Action>, n: nat)
    requires Matching(c, 0) && IsRun(c, states, actions) && n < |states| && states[n].bot.iteration < WIDE
    requires !Failed(c, states, actions, n) && Met(states, actions, n)
    ensures BidFilled(c, states[n])
  {
    StepForward(c, states[n - 1], actions[n - 1]);
    if Met(states, actions, n - 1) {
      MetIsFilled(c, states, actions, n - 1);
      MailStays(c, states[n - 1], actions[n - 1]);
    } else {
      RunInv(c, 0, states, actions, n - 1);
      RunPrices(c, states, actions, n - 1);
      MeetFills(c, states[n - 1], actions[n - 1]);
    }
  }

  /** In every run of basic_match without failed writes the engine has sent a fill for a bid if and only if it read
      one while an ask was on the book. */
  lemma BidFilledExactly(c: B.Config, states: seq<State>, actions: seq<Action>, n: nat)
    requires Matching(c, 0) && IsRun(c, states, actions) && n < |states| && states[n].bot.iteration < WIDE
    requires !Failed(c, states, actions, n)
    ensures BidFilled(c, states[n]) <==> Met(states, actions, n)
  {
    if Met(states, actions, n) {
      MetIsFilled(c, states, actions, n);
    } else {
      RunClean(c, 0, states, actions, n);
    }
  }

  // ---------- The ladder: no ask ever rests ----------

  lemma MarketLeavesNoAsk(c: B.Config, i: nat, k: nat, e: R.State, session: string, reading: int)
    requires Matching(c, 1) && k < |c.templates| && c.templates[k].Place? && e.book.asks == []
    ensures R.Step(e, R.NewOrder(session, OrderOf(c, i, k), reading)).book.asks == []
  {
    var m := OrderOf(c, i, k);
    TemplateOk(c, 1, k);
    if Refused(e.book, m).None? {
      Accepted(e.book, session, m, Clocks.Tick(e.last, reading));
    }
  }

  lemma DropLeavesNoAsk(b: Book, ids: set<string>)
    requires b.asks == []
    ensures DropBoth(b, ids).asks == []
  {
  }

  lemma LadderStep(c: B.Config, s: State, a: Action)
    requires Matching(c, 1) && Inv(c, s) && s.engine.book.asks == []
    ensures Step(c, s, a).engine.book.asks == []
  {
    if a.Serve? && Next(s, a.k) {
      var m := s.wire[a.k].text.m;
      var i: nat, j: nat :| j < |c.templates| && c.templates[j].Place? && Before(i, j, s.bot) && m == OrderOf(c, i, j);
      MarketLeavesNoAsk(c, i, j, s.engine, s.wire[a.k].session, a.reading);
    }
  }

  lemma {:induction false} LadderNoAsks(c: B.Config, states: seq<State>, actions: seq<Action>, n: nat)
    requires Matching(c, 1) && IsRun(c, states, actions) && n < |states| && !Failed(c, states, actions, n)
    ensures states[n].engine.book.asks == [] && !Met(states, actions, n)
  {
    if n > 0 {
      LadderNoAsks(c, states, actions, n - 1);
      RunInv(c, 1, states, actions, n - 1);
      LadderStep(c, states[n - 1], actions[n - 1]);
    }
  }

  /** In every run of partial_fill_ladder without failed writes, whatever connections are lost and in whatever order
      they are read, the rungs leave the table only by growing old. */
  lemma RungsGrowOld(c: B.Config, states: seq<State>, actions: seq<Action>, n: nat, id: string)
    requires Matching(c, 1) && IsRun(c, states, actions) && n < |actions| && states[n].bot.iteration < WIDE
    requires !Failed(c, states, actions, n) && IsBid(c, id) && TakesOff(c, states[n], actions[n], id)
    ensures actions[n] == Own(B.Expire(id))
  {
    LadderNoAsks(c, states, actions, n);
    BidsGrowOld(c, 1, states, actions, n, id);
  }

  // ---------- Basic match on one connection: bids and asks take turns ----------

  /** The connection is given up. */
  predicate Breaks(c: B.Config, s: State, a: Action) {
    Fails(c, s, a) || (a == Own(B.ReadError) && s.bot.writer.Looping? && s.bot.mutex.Free?)
  }

  ghost predicate Broken(c: B.Config, states: seq<State>, actions: seq<Action>, n: nat)
    requires n <= |actions| < |states|
  {
    n > 0 && (Broken(c, states, actions, n - 1) || Breaks(c, states[n - 1], actions[n - 1]))
  }

  lemma {:induction false} FailedIsBroken(c: B.Config, states: seq<State>, actions: seq<Action>, n: nat)
    requires n <= |actions| < |states| && Failed(c, states, actions, n)
    ensures Broken(c, states, actions, n)
  {
    if Failed(c, states, actions, n - 1) {
      FailedIsBroken(c, states, actions, n - 1);
    }
  }

  /** The `x`-th order the bot sends. */
  function Number(c: B.Config, x: nat): Request
    requires Matching(c, 0)
  {
    OrderOf(c, x / 2, x % 2)
  }

  /** How many orders the bot has written. */
  function Count(b: B.State): nat { 2 * b.iteration + Done(b) }

  /** What is on the book when the engine has read `x` orders. */
  ghost predicate Stands(c: B.Config, x: nat, b: Book)
    requires Matching(c, 0)
  {
    && b.asks == []
    && if x % 2 == 0 then b.bids == []
       else && |b.bids| == 1 && b.bids[0].id == OrderOf(c, x / 2, 0).id
            && b.bids[0].price == L.BasePrice(c.bot) && b.bids[0].remaining == 10
  }

  ghost predicate WriterOk(w: B.Writer) {
    match w
    case At(k) => k <= 2
    case Waiting(k) => k < 2
    case Admitted(k) => k < 2
    case Sending(k) => k < 2
    case _ => true
  }

  /** The wire holds the last of `n` orders, on one connection. */
  ghost predicate Follows(c: B.Config, session: string, wire: seq<Item>, n: nat)
    requires Matching(c, 0)
  {
    |wire| <= n && forall j :: 0 <= j < |wire| ==> wire[j] == Item(session, Order(Number(c, n - |wire| + j)))
  }

  lemma FollowsRead(c: B.Config, session: string, wire: seq<Item>, n: nat)
    requires Matching(c, 0) && Follows(c, session, wire, n) && wire != []
    ensures Follows(c, session, wire[1..], n)
  {
    var rest := wire[1..];
    assert forall j :: 0 <= j < |rest| ==> rest[j] == wire[j + 1];
  }

  lemma FollowsWritten(c: B.Config, session: string, wire: seq<Item>, n: nat)
    requires Matching(c, 0) && Follows(c, session, wire, n)
    ensures Follows(c, session, wire + [Item(session, Order(Number(c, n)))], n + 1)
  {
  }

  /** ... and the engine has read the others, if the connection still stands. */
  ghost predicate Tracks(c: B.Config, e: R.State, session: string, wire: seq<Item>, n: nat)
    requires Matching(c, 0)
  {
    && e.open <= {session} && Follows(c, session, wire, n) && e.book.asks == []
    && (session in e.open ==> Stands(c, n - |wire|, e.book))
  }

  lemma TracksWritten(c: B.Config, e: R.State, session: string, wire: seq<Item>, n: nat)
    requires Matching(c, 0) && Tracks(c, e, session, wire, n)
    ensures Tracks(c, e, session, wire + [Item(session, Order(Number(c, n)))], n + 1)
  {
    FollowsWritten(c, session, wire, n);
  }

  ghost predicate OneLine(c: B.Config, s: State)
    requires Matching(c, 0)
  {
    Tracks(c, s.engine, s.session, s.wire, Count(s.bot))
  }

  ghost predicate Undialed(s: State) {
    s.wire == [] && s.engine.open == {} && s.engine.book == EmptyBook && s.bot.iteration == 0
  }

  ghost predicate Line(c: B.Config, s: State)
    requires Matching(c, 0)
  {
    WriterOk(s.bot.writer) && if s.bot.writer.Dialing? then Undialed(s) else OneLine(c, s)
  }

  /** What the bot does by itself leaves the count of orders alone. */
  lemma BotCounts(c: B.Config, b: B.State, x: B.Action)
    requires Matching(c, 0) && WriterOk(b.writer) && !b.writer.Dialing? && !x.Write?
    requires !(x == B.ReadError && b.writer.Looping? && b.mutex.Free?)
    ensures var b' := B.Step(c, b, x); WriterOk(b'.writer) && !b'.writer.Dialing? && Count(b') == Count(b)
  {
  }

  lemma BotDials(c: B.Config, b: B.State, x: B.Action)
    requires b.writer.Dialing? && !x.Dial? && !x.Write?
    ensures B.Step(c, b, x).writer.Dialing? && B.Step(c, b, x).iteration == b.iteration
  {
  }

  lemma BotLine(c: B.Config, s: State, x: B.Action)
    requires Matching(c, 0) && Line(c, s) && !x.Dial? && !x.Write?
    requires !(x == B.ReadError && s.bot.writer.Looping? && s.bot.mutex.Free?)
    ensures Line(c, s.(bot := B.Step(c, s.bot, x)))
  {
    if s.bot.writer.Dialing? {
      BotDials(c, s.bot, x);
    } else {
      BotCounts(c, s.bot, x);
    }
  }

  lemma BotWrites(c: B.Config, b: B.State)
    requires Matching(c, 0) && WriterOk(b.writer) && b.writer.Sending?
    ensures TextOf(c, b) == Order(Number(c, Count(b)))
    ensures var b' := B.Step(c, b, B.Write(true)); b'.writer == B.At(b.writer.k + 1) && Count(b') == Count(b) + 1
  {
    assert Count(b) / 2 == b.iteration && Count(b) % 2 == b.writer.k;
  }

  lemma Written(c: B.Config, s: State, arrives: bool)
    requires Matching(c, 0) && WriterOk(s.bot.writer) && Writes(c, s, true)
    ensures var s' := Step(c, s, Write(true, arrives));
            && s'.engine == s.engine && s'.session == s.session && Count(s'.bot) == Count(s.bot) + 1
            && s'.wire == s.wire + [Item(s.session, Order(Number(c, Count(s.bot))))]
            && WriterOk(s'.bot.writer) && !s'.bot.writer.Dialing?
  {
    BotWrites(c, s.bot);
  }

  lemma WriteLine(c: B.Config, s: State, arrives: bool)
    requires Matching(c, 0) && OneLine(c, s) && WriterOk(s.bot.writer) && Writes(c, s, true)
    ensures OneLine(c, Step(c, s, Write(true, arrives)))
  {
    Written(c, s, arrives);
    TracksWritten(c, s.engine, s.session, s.wire, Count(s.bot));
  }

  /** A bid on an empty book rests. */
  lemma BidStands(c: B.Config, x: nat, b: Book, session: string, stamp: int)
    requires Matching(c, 0) && Stands(c, x, b) && x % 2 == 0 && x / 2 < WIDE
    ensures Stands(c, x + 1, Submit(b, session, Number(c, x), stamp).book)
  {
    OrderAccepted(c, 0, x / 2, 0, b);
    L.RestsAlone(b, session, Number(c, x), stamp);
  }

  /** The ask that follows uses it up. */
  lemma AskClears(c: B.Config, x: nat, b: Book, session: string, stamp: int)
    requires Matching(c, 0) && Stands(c, x, b) && x % 2 == 1 && x / 2 < WIDE
    ensures Stands(c, x + 1, Submit(b, session, Number(c, x), stamp).book)
  {
    var m := Number(c, x);
    if m.id == b.bids[0].id {
      L.OrderIdInjective(c.bot, x / 2, c.templates[1].tag, c.bot, x / 2, c.templates[0].tag);
    }
    assert m.id !in BookIds(b);
    OrderAccepted(c, 0, x / 2, 1, b);
    assert Depth(b.bids) == 10 + Depth(b.bids[1..]) && b.bids[1..] == [];
    L.Sweeps(b, session, m, stamp);
  }

  /** The engine reads the next order. */
  lemma ReadStands(c: B.Config, x: nat, e: R.State, session: string, reading: int)
    requires Matching(c, 0) && Stands(c, x, e.book) && session in e.open && x / 2 < WIDE
    ensures var e' := R.Step(e, R.NewOrder(session, Number(c, x), reading));
            Stands(c, x + 1, e'.book) && e'.open == e.open
  {
    if x % 2 == 0 {
      BidStands(c, x, e.book, session, Clocks.Tick(e.last, reading));
    } else {
      AskClears(c, x, e.book, session, Clocks.Tick(e.last, reading));
    }
  }

  lemma FirstIsNext(c: B.Config, s: State, k: nat)
    requires Matching(c, 0) && OneLine(c, s) && Next(s, k)
    ensures k == 0 && s.session in s.engine.open && |s.wire| > 0
    ensures s.wire[0] == Item(s.session, Order(Number(c, Count(s.bot) - |s.wire|)))
  {
    assert s.wire[k].session == s.session && s.wire[0].session == s.session;
  }

  lemma TracksRead(c: B.Config, e: R.State, session: string, wire: seq<Item>, n: nat, reading: int)
    requires Matching(c, 0) && Tracks(c, e, session, wire, n) && session in e.open && wire != []
    requires (n - |wire|) / 2 < WIDE
    ensures wire[0] == Item(session, Order(Number(c, n - |wire|)))
    ensures Tracks(c, R.Step(e, EventOf(wire[0], reading)), session, wire[1..], n)
  {
    FollowsRead(c, session, wire, n);
    ReadStands(c, n - |wire|, e, session, reading);
  }

  lemma ServeLine(c: B.Config, s: State, k: nat, reading: int)
    requires Matching(c, 0) && OneLine(c, s) && Next(s, k) && s.bot.iteration < WIDE && Done(s.bot) <= 2
    ensures OneLine(c, Step(c, s, Serve(k, reading)))
  {
    FirstIsNext(c, s, k);
    assert (Count(s.bot) - |s.wire|) / 2 < WIDE;
    TracksRead(c, s.engine, s.session, s.wire, Count(s.bot), reading);
    assert s.wire[..0] + s.wire[1..] == s.wire[1..];
  }

  lemma DropLine(c: B.Config, s: State, session: string)
    requires Matching(c, 0) && Line(c, s)
    ensures Line(c, Step(c, s, Drop(session)))
  {
    DropLeavesNoAsk(s.engine.book, Owned(s.engine.book, session));
  }

  lemma DialLine(c: B.Config, s: State, addr: string, reading: int)
    requires Matching(c, 0) && Line(c, s)
    ensures Line(c, Step(c, s, Dial(addr, reading)))
  {
  }

  lemma StepLine(c: B.Config, s: State, a: Action)
    requires Matching(c, 0) && Line(c, s) && !Breaks(c, s, a) && s.bot.iteration < WIDE
    ensures Line(c, Step(c, s, a))
  {
    match a
    case Own(x) => if !x.Dial? && !x.Write? && !x.Handle? { BotLine(c, s, x); }
    case Deliver(l) => BotLine(c, s, B.Handle(l.id, KindOfBody(l.body)));
    case Dial(addr, reading) => DialLine(c, s, addr, reading);
    case Write(ok, arrives) =>
      if Writes(c, s, ok) && !s.bot.writer.Dialing? {
        Written(c, s, arrives);
        WriteLine(c, s, arrives);
      }
    case Serve(k, reading) => if Next(s, k) && !s.bot.writer.Dialing? { ServeLine(c, s, k, reading); }
    case Drop(session) => DropLine(c, s, session);
  }

  lemma {:induction false} RunLine(c: B.Config, states: seq<State>, actions: seq<Action>, n: nat)
    requires Matching(c, 0) && IsRun(c, states, actions) && n < |states| && states[n].bot.iteration < WIDE
    requires !Broken(c, states, actions, n)
    ensures Line(c, states[n]) && !Met(states, actions, n)
  {
    if n > 0 {
      StepForward(c, states[n - 1], actions[n - 1]);
      RunLine(c, states, actions, n - 1);
      StepLine(c, states[n - 1], actions[n - 1]);
    }
  }

  /** In every run of basic_match on one connection the bids leave the table only by growing old. */
  lemma BidsGrowOldOnOneLine(c: B.Config, states: seq<State>, actions: seq<Action>, n: nat, id: string)
    requires Matching(c, 0) && IsRun(c, states, actions) && n < |actions| && states[n].bot.iteration < WIDE
    requires !Broken(c, states, actions, n) && IsBid(c, id) && TakesOff(c, states[n], actions[n], id)
    ensures actions[n] == Own(B.Expire(id))
  {
    RunLine(c, states, actions, n);
    if Failed(c, states, actions, n) {
      FailedIsBroken(c, states, actions, n);
    }
    BidsGrowOld(c, 0, states, actions, n, id);
  }
}
