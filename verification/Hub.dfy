/** The WebSocket hub of the leaderboard: one event loop, bounded channels, and for each client a handler and a
    writer goroutine that run beside it. Sending on a closed channel, or closing one twice, is a panic. */
module LeaderboardHub {
  import opened Traces

  /** What a client's channel carries: the snapshot, or the `k`-th broadcast the hub fanned out. */
  datatype Item = Snapshot | Live(k: nat)

  /** Where the handler is: registered and about to send the snapshot, serving, about to unregister because it was
      turned away, or gone. */
  datatype Phase = Greeting | Serving | TurnedAway | Gone

  datatype Client = Client(phase: Phase, buffer: seq<Item>, received: seq<Item>, closed: bool) {
    function Items(): seq<Item> { received + buffer }
  }

  datatype Loop = Idle | Fanning(todo: set<nat>) | Stopped

  const REG_CAP := 64
  const SEND_CAP := 256

  /** `members` is the hub's client set. The rest is history: the broadcasts it has taken up, for each the clients
      it was meant for, and the client-broadcast pairs that were dropped because the client's channel was full. */
  datatype State = State(members: set<nat>, reg: seq<nat>, unreg: seq<nat>, msgs: seq<int>, loop: Loop,
                         clients: map<nat, Client>, panicked: bool,
                         fanned: seq<int>, audience: seq<set<nat>>, overflow: set<(nat, nat)>)
  {
    function Set(c: nat, x: Client): State { this.(clients := clients[c := x]) }
  }

  const Initial := State({}, [], [], [], Idle, map[], false, [], [], {})

  datatype Action =
    | Connect(c: nat) | Greet(c: nat, ok: bool) | Leave(c: nat) | Receive(c: nat)   // handler and writer
    | Broadcast(msg: int)
    | Register | Unregister | Begin | Send(c: nat) | End | Quit                     // the hub

  /** A send that does not block: it is dropped when the channel is full. */
  function Offer(s: State, c: nat, item: Item): State
    requires c in s.clients
  {
    var x := s.clients[c];
    if x.closed then s.(panicked := true)
    else if |x.buffer| < SEND_CAP then s.Set(c, x.(buffer := x.buffer + [item]))
    else if item.Live? then s.(overflow := s.overflow + {(c, item.k)})
    else s
  }

  function Step(s: State, a: Action): State {
    match a
    case Connect(c) =>
      if c in s.clients then s
      else if |s.reg| < REG_CAP then s.Set(c, Client(Greeting, [], [], false)).(reg := s.reg + [c])
      else s.Set(c, Client(TurnedAway, [], [], false))
    case Greet(c, ok) =>
      if c in s.clients && s.clients[c].phase.Greeting? then
        var s1 := if ok then Offer(s, c, Snapshot) else s;
        s1.Set(c, s1.clients[c].(phase := Serving))
      else s
    case Leave(c) =>
      if c in s.clients && (s.clients[c].phase.Serving? || s.clients[c].phase.TurnedAway?) then
        var s1 := s.Set(c, s.clients[c].(phase := Gone));
        if |s.unreg| < REG_CAP then s1.(unreg := s.unreg + [c]) else s1
      else s
    case Receive(c) =>
      if c in s.clients && s.clients[c].buffer != [] then
        var x := s.clients[c];
        s.Set(c, x.(buffer := x.buffer[1..], received := x.received + [x.buffer[0]]))
      else s
    case Broadcast(msg) => if |s.msgs| < SEND_CAP then s.(msgs := s.msgs + [msg]) else s
    case Register =>
      if s.loop.Idle? && s.reg != [] then s.(members := s.members + {s.reg[0]}, reg := s.reg[1..]) else s
    case Unregister => if s.loop.Idle? && s.unreg != [] then Unregistered(s, s.unreg[0]) else s
    case Begin =>
      if s.loop.Idle? && s.msgs != []
      then s.(loop := Fanning(s.members), msgs := s.msgs[1..],
              fanned := s.fanned + [s.msgs[0]], audience := s.audience + [s.members])
      else s
    case Send(c) =>
      if s.loop.Fanning? && c in s.loop.todo && c in s.clients && s.fanned != []
      then Offer(s, c, Live(|s.fanned| - 1)).(loop := Fanning(s.loop.todo - {c}))
      else s
    case End => if s.loop == Fanning({}) then s.(loop := Idle) else s
    case Quit => if s.loop.Idle? then s.(loop := Stopped) else s
  }

  function Unregistered(s: State, c: nat): State
    requires s.unreg != []
  {
    var s1 := s.(unreg := s.unreg[1..]);
    if c !in s.members || c !in s.clients then s1
    else if s.clients[c].closed then s1.(panicked := true)
    else s1.(members := s.members - {c}).Set(c, s.clients[c].(closed := true))
  }

  ghost predicate IsRun(states: seq<State>, actions: seq<Action>) {
    && |states| == |actions| + 1 && states[0] == Initial
    && forall i {:trigger actions[i]} :: 0 <= i < |actions| ==> states[i + 1] == Step(states[i], actions[i])
  }

  // ---------- The invariant ----------

  /** Broadcasts in the order they were fanned out, all taken up before the `n`-th. */
  ghost predicate InOrder(items: seq<Item>, n: nat) {
    && (forall i :: 0 <= i < |items| && items[i].Live? ==> items[i].k < n)
    && (forall i, j :: 0 <= i < j < |items| && items[i].Live? && items[j].Live? ==> items[i].k < items[j].k)
  }

  ghost predicate OneSnapshot(items: seq<Item>) {
    forall i, j :: 0 <= i < j < |items| ==> !(items[i].Snapshot? && items[j].Snapshot?)
  }

  /** What is in a client's channel and what it has received. */
  ghost predicate FlowOk(s: State, c: nat, x: Client) {
    && |x.buffer| <= SEND_CAP
    && OneSnapshot(x.Items()) && (x.phase.Greeting? ==> Snapshot !in x.Items())
    && InOrder(x.Items(), |s.fanned|)
    && (s.loop.Fanning? && c in s.loop.todo ==> |s.fanned| > 0 && InOrder(x.Items(), |s.fanned| - 1))
  }

  ghost predicate Flow(s: State) {
    forall c :: c in s.clients ==> FlowOk(s, c, s.clients[c])
  }

  /** A client whose channel is closed is known to nobody any more; one that still waits to be unregistered, or
      was turned away, will not be sent to. */
  ghost predicate LifeOk(s: State, c: nat, x: Client) {
    && (x.closed ==> x.phase.Gone? && c !in s.members && c !in s.reg && c !in s.unreg)
    && (c in s.unreg ==> x.phase.Gone?)
    && (x.phase.TurnedAway? ==> c !in s.reg && c !in s.members)
  }

  ghost predicate NoRepeats(q: seq<nat>) {
    forall i, j :: 0 <= i < j < |q| ==> q[i] != q[j]
  }

  ghost predicate Life(s: State) {
    && !s.panicked
    && (forall c :: c in s.clients ==> LifeOk(s, c, s.clients[c]))
    && (forall c :: c in s.members ==> c in s.clients && c !in s.reg)
    && (forall c :: c in s.reg ==> c in s.clients)
    && (forall c :: c in s.unreg ==> c in s.clients)
    && NoRepeats(s.reg) && NoRepeats(s.unreg)
    && (s.loop.Fanning? ==> s.loop.todo <= s.members)
  }

  // ---------- Closing and sending ----------

  lemma HandlerLife(s: State, a: Action)
    requires Life(s) && (a.Connect? || a.Leave? || a.Receive? || a.Broadcast?)
    ensures Life(Step(s, a))
  {
  }

  lemma GreetLife(s: State, c: nat, ok: bool)
    requires Life(s)
    ensures Life(Step(s, Greet(c, ok)))
  {
  }

  lemma QueuesLife(s: State, a: Action)
    requires Life(s) && (a.Register? || a.Unregister?)
    ensures Life(Step(s, a))
  {
  }

  lemma FanningLife(s: State, a: Action)
    requires Life(s) && (a.Begin? || a.Send? || a.End? || a.Quit?)
    ensures Life(Step(s, a))
  {
  }

  lemma StepLife(s: State, a: Action)
    requires Life(s)
    ensures Life(Step(s, a))
  {
    match a
    case Greet(c, ok) => GreetLife(s, c, ok);
    case Connect(_) => HandlerLife(s, a);
    case Leave(_) => HandlerLife(s, a);
    case Receive(_) => HandlerLife(s, a);
    case Broadcast(_) => HandlerLife(s, a);
    case Register => QueuesLife(s, a);
    case Unregister => QueuesLife(s, a);
    case _ => FanningLife(s, a);
  }

  // ---------- What is delivered ----------

  lemma ItemsAppend(items: seq<Item>, item: Item, n: nat)
    requires InOrder(items, n)
    requires item.Live? ==> item.k < n && InOrder(items, item.k)
    ensures InOrder(items + [item], n)
  {
  }

  lemma Appended(x: Client, item: Item)
    ensures x.(buffer := x.buffer + [item]).Items() == x.Items() + [item]
  {
  }

  lemma GreetFlow(s: State, c: nat, ok: bool)
    requires Life(s) && Flow(s)
    ensures Flow(Step(s, Greet(c, ok)))
  {
    if c in s.clients && s.clients[c].phase.Greeting? {
      var x := s.clients[c];
      Appended(x, Snapshot);
      ItemsAppend(x.Items(), Snapshot, |s.fanned|);
      if s.loop.Fanning? && c in s.loop.todo {
        ItemsAppend(x.Items(), Snapshot, |s.fanned| - 1);
      }
    }
  }

  lemma SendFlow(s: State, c: nat)
    requires Life(s) && Flow(s)
    ensures Flow(Step(s, Send(c)))
  {
    var s' := Step(s, Send(c));
    if s.loop.Fanning? && c in s.loop.todo && c in s.clients && s.fanned != [] {
      var x, item := s.clients[c], Live(|s.fanned| - 1);
      Appended(x, item);
      ItemsAppend(x.Items(), item, |s.fanned|);
      assert FlowOk(s', c, s'.clients[c]);
      forall d | d in s'.clients && d != c ensures FlowOk(s', d, s'.clients[d]) {
        assert FlowOk(s, d, s.clients[d]);
      }
    }
  }

  lemma ReceiveFlow(s: State, c: nat)
    requires Flow(s)
    ensures Flow(Step(s, Receive(c)))
  {
    if c in s.clients && s.clients[c].buffer != [] {
      var x := s.clients[c];
      assert x.(buffer := x.buffer[1..], received := x.received + [x.buffer[0]]).Items() == x.Items();
    }
  }

  /** What a client has is in order whatever its handler does and however many broadcasts follow. */
  lemma SameFlow(s: State, s': State, c: nat)
    requires c in s.clients && c in s'.clients && FlowOk(s, c, s.clients[c]) && |s.fanned| <= |s'.fanned|
    requires s'.clients[c].received == s.clients[c].received && s'.clients[c].buffer == s.clients[c].buffer
    requires s'.clients[c].phase.Greeting? ==> s.clients[c].phase.Greeting?
    requires s'.loop.Fanning? && c in s'.loop.todo ==>
               |s.fanned| < |s'.fanned| || (|s.fanned| == |s'.fanned| && s.loop.Fanning? && c in s.loop.todo)
    ensures FlowOk(s', c, s'.clients[c])
  {
  }

  /** The steps that put nothing into a channel and take nothing out. */
  lemma QuietFlow(s: State, a: Action)
    requires Life(s) && Flow(s) && !a.Greet? && !a.Send? && !a.Receive?
    ensures Flow(Step(s, a))
  {
    var s' := Step(s, a);
    forall c | c in s'.clients ensures FlowOk(s', c, s'.clients[c]) {
      if c in s.clients {
        SameFlow(s, s', c);
      }
    }
  }

  lemma StepFlow(s: State, a: Action)
    requires Life(s) && Flow(s)
    ensures Flow(Step(s, a))
  {
    match a
    case Greet(c, ok) => GreetFlow(s, c, ok);
    case Send(c) => SendFlow(s, c);
    case Receive(c) => ReceiveFlow(s, c);
    case _ => QuietFlow(s, a);
  }

  // ---------- Nothing is lost but to a full channel ----------

  /** Broadcast `k` reached client `c`, or was dropped because its channel was full, or is about to be sent. */
  ghost predicate Served(s: State, c: nat, k: nat) {
    || (c in s.clients && Live(k) in s.clients[c].Items())
    || (c, k) in s.overflow
    || (s.loop.Fanning? && k == |s.fanned| - 1 && c in s.loop.todo)
  }

  ghost predicate Complete(s: State) {
    && |s.audience| == |s.fanned| && (s.loop.Fanning? ==> s.fanned != [])
    && forall k, c :: 0 <= k < |s.audience| && c in s.audience[k] ==> Served(s, c, k)
  }

  /** How the items of a client can change. */
  lemma ItemsNext(s: State, a: Action, c: nat)
    requires c in s.clients
    ensures c in Step(s, a).clients
    ensures var x, x' := s.clients[c].Items(), Step(s, a).clients[c].Items();
            || x' == x || x' == x + [Snapshot]
            || (a == Send(c) && s.loop.Fanning? && c in s.loop.todo && s.fanned != [] && x' == x + [Live(|s.fanned| - 1)])
  {
    var x := s.clients[c];
    if a == Receive(c) && x.buffer != [] {
      assert x.received + [x.buffer[0]] + x.buffer[1..] == x.Items();
    }
    Appended(x, Snapshot);
    if s.fanned != [] {
      Appended(x, Live(|s.fanned| - 1));
    }
  }

  /** A step takes nothing back; only `Send` takes a client off the list of those still to be sent to. */
  lemma StillServed(s: State, a: Action, c: nat, k: nat)
    requires Life(s) && Served(s, c, k) && k < |s.fanned|
    ensures Served(Step(s, a), c, k)
  {
    var s' := Step(s, a);
    if c in s.clients {
      ItemsNext(s, a, c);
      if Live(k) in s.clients[c].Items() {
        assert Live(k) in s'.clients[c].Items();
      } else if a == Send(c) && s.loop.Fanning? && c in s.loop.todo {
        assert || s'.clients[c].Items() == s.clients[c].Items() + [Live(|s.fanned| - 1)]
               || (c, |s.fanned| - 1) in s'.overflow;
      }
    }
  }

  lemma StepComplete(s: State, a: Action)
    requires Life(s) && Complete(s)
    ensures Complete(Step(s, a))
  {
    var s' := Step(s, a);
    forall k, c | 0 <= k < |s'.audience| && c in s'.audience[k] ensures Served(s', c, k) {
      if k < |s.audience| {
        assert s'.audience[k] == s.audience[k];
        StillServed(s, a, c, k);
      }
    }
  }

  /** What was dropped for a client is not in its channel and will not be sent to it again. */
  ghost predicate Dropped(s: State, c: nat, k: nat) {
    && k < |s.fanned| && c in s.clients && Live(k) !in s.clients[c].Items()
    && !(s.loop.Fanning? && k == |s.fanned| - 1 && c in s.loop.todo)
  }

  ghost predicate Apart(s: State) {
    forall c, k :: (c, k) in s.overflow ==> Dropped(s, c, k)
  }

  lemma StillDropped(s: State, a: Action, c: nat, k: nat)
    requires Dropped(s, c, k)
    ensures Dropped(Step(s, a), c, k)
  {
    ItemsNext(s, a, c);
  }

  lemma NowDropped(s: State, a: Action, c: nat, k: nat)
    requires Flow(s) && (c, k) in Step(s, a).overflow && (c, k) !in s.overflow
    ensures Dropped(Step(s, a), c, k)
  {
    assert a == Send(c) && k == |s.fanned| - 1;
    assert FlowOk(s, c, s.clients[c]);
    assert Step(s, a).clients == s.clients;
  }

  lemma StepApart(s: State, a: Action)
    requires Flow(s) && Apart(s)
    ensures Apart(Step(s, a))
  {
    var s' := Step(s, a);
    forall c, k | (c, k) in s'.overflow ensures Dropped(s', c, k) {
      if (c, k) in s.overflow {
        StillDropped(s, a, c, k);
      } else {
        NowDropped(s, a, c, k);
      }
    }
  }

  // ---------- What holds of every run ----------

  lemma {:induction false} RunInv(states: seq<State>, actions: seq<Action>, n: nat)
    requires IsRun(states, actions) && n < |states|
    ensures Life(states[n]) && Flow(states[n]) && Complete(states[n]) && Apart(states[n])
  {
    if n > 0 {
      RunInv(states, actions, n - 1);
      StepLife(states[n - 1], actions[n - 1]);
      StepFlow(states[n - 1], actions[n - 1]);
      StepComplete(states[n - 1], actions[n - 1]);
      StepApart(states[n - 1], actions[n - 1]);
    }
  }

  /** However hub, handlers and writers interleave, nobody sends on a closed channel or closes one twice. */
  lemma NeverPanics(states: seq<State>, actions: seq<Action>, n: nat)
    requires IsRun(states, actions) && n < |states|
    ensures !states[n].panicked
  {
    RunInv(states, actions, n);
  }

  // ---------- Broadcasts and clients, told from the steps of the run ----------

  /** The messages that found fewer than 256 waiting, in the order they were broadcast. */
  ghost function Broadcasts(states: seq<State>, actions: seq<Action>, n: nat): seq<int>
    requires n <= |actions| < |states|
  {
    if n == 0 then []
    else
      Broadcasts(states, actions, n - 1)
        + if actions[n - 1].Broadcast? && |states[n - 1].msgs| < 256 then [actions[n - 1].msg] else []
  }

  lemma BroadcastNext(s: State, a: Action)
    ensures Step(s, a).fanned + Step(s, a).msgs
         == s.fanned + s.msgs + if a.Broadcast? && |s.msgs| < 256 then [a.msg] else []
  {
  }

  /** In every run what the hub has taken up and what still waits are the broadcasts, in order. */
  lemma {:induction false} FannedInOrder(states: seq<State>, actions: seq<Action>, n: nat)
    requires IsRun(states, actions) && n < |states|
    ensures states[n].fanned + states[n].msgs == Broadcasts(states, actions, n)
  {
    if n > 0 {
      FannedInOrder(states, actions, n - 1);
      BroadcastNext(states[n - 1], actions[n - 1]);
    }
  }

  /** What a client receives: messages in the order they were broadcast, each at most once, and at most one
      snapshot. */
  lemma DeliveredInOrder(states: seq<State>, actions: seq<Action>, n: nat, c: nat)
    requires IsRun(states, actions) && n < |states| && c in states[n].clients
    ensures var got, fanned, all := states[n].clients[c].received, states[n].fanned, Broadcasts(states, actions, n);
            && (forall i :: 0 <= i < |got| && got[i].Live? ==>
                  got[i].k < |fanned| <= |all| && fanned[got[i].k] == all[got[i].k])
            && (forall i, j :: 0 <= i < j < |got| && got[i].Live? && got[j].Live? ==> got[i].k < got[j].k)
            && (forall i, j :: 0 <= i < j < |got| ==> !(got[i].Snapshot? && got[j].Snapshot?))
  {
    FannedInOrder(states, actions, n);
    RunInv(states, actions, n);
    ReceivedOk(states[n], c);
    assert forall k :: 0 <= k < |states[n].fanned| ==> states[n].fanned[k] == (states[n].fanned + states[n].msgs)[k];
  }

  lemma ReceivedOk(s: State, c: nat)
    requires c in s.clients && FlowOk(s, c, s.clients[c])
    ensures InOrder(s.clients[c].received, |s.fanned|) && OneSnapshot(s.clients[c].received)
  {
    var x := s.clients[c];
    assert forall i :: 0 <= i < |x.received| ==> x.Items()[i] == x.received[i];
  }

  /** The step puts something into the channel of `c`: the snapshot, or the broadcast the hub is fanning out. */
  ghost function Sent(s: State, a: Action, c: nat): seq<Item> {
    if c !in s.clients || s.clients[c].closed || |s.clients[c].buffer| >= 256 then []
    else if a == Greet(c, true) && s.clients[c].phase.Greeting? then [Snapshot]
    else if a == Send(c) && s.loop.Fanning? && c in s.loop.todo && s.fanned != [] then [Live(|s.fanned| - 1)]
    else []
  }

  ghost function AllSent(states: seq<State>, actions: seq<Action>, n: nat, c: nat): seq<Item>
    requires n <= |actions| < |states|
  {
    if n == 0 then [] else AllSent(states, actions, n - 1, c) + Sent(states[n - 1], actions[n - 1], c)
  }

  /** How often the writer of `c` took something out. */
  ghost function Takes(states: seq<State>, actions: seq<Action>, n: nat, c: nat): nat
    requires n <= |actions| < |states|
  {
    if n == 0 then 0
    else
      var s := states[n - 1];
      Takes(states, actions, n - 1, c)
        + if actions[n - 1] == Receive(c) && c in s.clients && s.clients[c].buffer != [] then 1 else 0
  }

  function ItemsOf(s: State, c: nat): seq<Item> { if c in s.clients then s.clients[c].Items() else [] }

  function ReceivedBy(s: State, c: nat): nat { if c in s.clients then |s.clients[c].received| else 0 }

  lemma SentByGreet(s: State, d: nat, ok: bool, c: nat)
    requires c in s.clients
    ensures ItemsOf(Step(s, Greet(d, ok)), c) == ItemsOf(s, c) + Sent(s, Greet(d, ok), c)
  {
    Appended(s.clients[c], Snapshot);
  }

  lemma SentByReceive(s: State, d: nat, c: nat)
    requires c in s.clients
    ensures ItemsOf(Step(s, Receive(d)), c) == ItemsOf(s, c) + Sent(s, Receive(d), c)
  {
    var x := s.clients[c];
    if d == c && x.buffer != [] {
      assert x.received + [x.buffer[0]] + x.buffer[1..] == x.Items();
    }
  }

  lemma SentByOthers(s: State, a: Action, c: nat)
    requires c in s.clients && !a.Send? && !a.Greet? && !a.Receive?
    ensures ItemsOf(Step(s, a), c) == ItemsOf(s, c) + Sent(s, a, c)
  {
    assert Sent(s, a, c) == [];
    assert Step(s, a).clients[c].received == s.clients[c].received;
    assert Step(s, a).clients[c].buffer == s.clients[c].buffer;
  }

  lemma SentByHub(s: State, d: nat, c: nat)
    requires c in s.clients
    ensures ItemsOf(Step(s, Send(d)), c) == ItemsOf(s, c) + Sent(s, Send(d), c)
  {
    if s.fanned != [] {
      Appended(s.clients[c], Live(|s.fanned| - 1));
    }
  }

  lemma SentNext(s: State, a: Action, c: nat)
    ensures ItemsOf(Step(s, a), c) == ItemsOf(s, c) + Sent(s, a, c)
  {
    if c in s.clients {
      match a
      case Send(d) => SentByHub(s, d, c);
      case Greet(d, ok) => SentByGreet(s, d, ok, c);
      case Receive(d) => SentByReceive(s, d, c);
      case _ => SentByOthers(s, a, c);
    }
  }

  lemma TakesNext(s: State, a: Action, c: nat)
    ensures ReceivedBy(Step(s, a), c)
         == ReceivedBy(s, c) + if a == Receive(c) && c in s.clients && s.clients[c].buffer != [] then 1 else 0
  {
  }

  lemma {:induction false} ItemsAreSent(states: seq<State>, actions: seq<Action>, n: nat, c: nat)
    requires IsRun(states, actions) && n < |states|
    ensures ItemsOf(states[n], c) == AllSent(states, actions, n, c)
  {
    if n > 0 {
      ItemsAreSent(states, actions, n - 1, c);
      SentNext(states[n - 1], actions[n - 1], c);
    }
  }

  lemma {:induction false} ReceivedAreTakes(states: seq<State>, actions: seq<Action>, n: nat, c: nat)
    requires IsRun(states, actions) && n < |states|
    ensures ReceivedBy(states[n], c) == Takes(states, actions, n, c)
  {
    if n > 0 {
      ReceivedAreTakes(states, actions, n - 1, c);
      TakesNext(states[n - 1], actions[n - 1], c);
    }
  }

  /** In every run a client has received the first of the things that found room in its channel, in order: one for
      each time its writer took something out. */
  lemma ReceivedExactly(states: seq<State>, actions: seq<Action>, n: nat, c: nat)
    requires IsRun(states, actions) && n < |states| && c in states[n].clients
    ensures var got, sent := states[n].clients[c].received, AllSent(states, actions, n, c);
            got <= sent && |got| == Takes(states, actions, n, c)
  {
    ItemsAreSent(states, actions, n, c);
    ReceivedAreTakes(states, actions, n, c);
  }

  /** The hub takes up the registration, or the unregistration, of `c`. */
  predicate Joins(s: State, a: Action, c: nat) { a.Register? && s.loop.Idle? && s.reg != [] && s.reg[0] == c }

  predicate Quits(s: State, a: Action, c: nat) { a.Unregister? && s.loop.Idle? && s.unreg != [] && s.unreg[0] == c }

  ghost predicate Known(states: seq<State>, actions: seq<Action>, n: nat, c: nat)
    requires n <= |actions| < |states|
  {
    && n > 0
    && (|| Joins(states[n - 1], actions[n - 1], c)
        || (Known(states, actions, n - 1, c) && !Quits(states[n - 1], actions[n - 1], c)))
  }

  ghost predicate Dismissed(states: seq<State>, actions: seq<Action>, n: nat, c: nat)
    requires n <= |actions| < |states|
  {
    && n > 0
    && (|| Dismissed(states, actions, n - 1, c)
        || (Known(states, actions, n - 1, c) && Quits(states[n - 1], actions[n - 1], c)))
  }

  /** The clients that found room in the queue of registrations, or of unregistrations, in order; and those that the
      hub took up. */
  ghost function Queued(states: seq<State>, actions: seq<Action>, n: nat, registrations: bool): seq<nat>
    requires n <= |actions| < |states|
  {
    if n == 0 then []
    else Queued(states, actions, n - 1, registrations) + Enters(states[n - 1], actions[n - 1], registrations)
  }

  ghost function TakenUp(states: seq<State>, actions: seq<Action>, n: nat, registrations: bool): seq<nat>
    requires n <= |actions| < |states|
  {
    if n == 0 then []
    else TakenUp(states, actions, n - 1, registrations) + Heads(states[n - 1], actions[n - 1], registrations)
  }

  ghost function Enters(s: State, a: Action, registrations: bool): seq<nat> {
    if registrations then (if a.Connect? && a.c !in s.clients && |s.reg| < 64 then [a.c] else [])
    else if && a.Leave? && a.c in s.clients && |s.unreg| < 64
            && (s.clients[a.c].phase.Serving? || s.clients[a.c].phase.TurnedAway?)
    then [a.c] else []
  }

  ghost function Heads(s: State, a: Action, registrations: bool): seq<nat> {
    if registrations then (if a.Register? && s.loop.Idle? && s.reg != [] then [s.reg[0]] else [])
    else if a.Unregister? && s.loop.Idle? && s.unreg != [] then [s.unreg[0]] else []
  }

  function QueueOf(s: State, registrations: bool): seq<nat> { if registrations then s.reg else s.unreg }

  lemma QueueNext(s: State, a: Action, registrations: bool)
    ensures Heads(s, a, registrations) + QueueOf(Step(s, a), registrations)
         == QueueOf(s, registrations) + Enters(s, a, registrations)
  {
  }

  /** In every run the hub takes registrations, and unregistrations, up in the order in which they were made. */
  lemma {:induction false} TakenUpInOrder(states: seq<State>, actions: seq<Action>, n: nat, registrations: bool)
    requires IsRun(states, actions) && n < |states|
    ensures TakenUp(states, actions, n, registrations) + QueueOf(states[n], registrations)
         == Queued(states, actions, n, registrations)
  {
    if n > 0 {
      TakenUpInOrder(states, actions, n - 1, registrations);
      QueueNext(states[n - 1], actions[n - 1], registrations);
      Regroup(TakenUp(states, actions, n - 1, registrations), Heads(states[n - 1], actions[n - 1], registrations),
              QueueOf(states[n], registrations));
      Regroup(TakenUp(states, actions, n - 1, registrations), QueueOf(states[n - 1], registrations),
              Enters(states[n - 1], actions[n - 1], registrations));
    }
  }

  lemma Regroup(x: seq<nat>, y: seq<nat>, z: seq<nat>)
    ensures x + (y + z) == x + y + z
  {
  }

  /** Those that may be sent something are in the queue of registrations, or were. */
  ghost predicate Enrolled(s: State, queued: seq<nat>) {
    && (forall c :: c in s.clients && s.clients[c].phase.Greeting? ==> c in queued)
    && (forall c :: c in s.reg || c in s.members ==> c in queued)
  }

  lemma EnrolledNext(s: State, a: Action, queued: seq<nat>)
    requires Life(s) && Enrolled(s, queued)
    ensures Enrolled(Step(s, a), queued + Enters(s, a, true))
  {
  }

  lemma SentToEnrolled(s: State, a: Action, queued: seq<nat>, c: nat)
    requires Life(s) && Enrolled(s, queued) && Sent(s, a, c) != []
    ensures c in queued
  {
  }

  lemma RunLife(states: seq<State>, actions: seq<Action>, n: nat)
    requires IsRun(states, actions) && n < |states|
    ensures Life(states[n])
  {
    RunInv(states, actions, n);
  }

  lemma EnrolledStep(s: State, a: Action, s': State, queued: seq<nat>, queued': seq<nat>)
    requires Life(s) && Enrolled(s, queued) && s' == Step(s, a) && queued' == queued + Enters(s, a, true)
    ensures Enrolled(s', queued')
  {
    EnrolledNext(s, a, queued);
  }

  lemma {:induction false} AllEnrolled(states: seq<State>, actions: seq<Action>, n: nat)
    requires IsRun(states, actions) && n < |states|
    ensures Enrolled(states[n], Queued(states, actions, n, true))
  {
    if n > 0 {
      var was := Queued(states, actions, n - 1, true);
      AllEnrolled(states, actions, n - 1);
      RunLife(states, actions, n - 1);
      EnrolledStep(states[n - 1], actions[n - 1], states[n], was, Queued(states, actions, n, true));
    }
  }

  lemma SentIsEnrolled(states: seq<State>, actions: seq<Action>, n: nat, c: nat)
    requires IsRun(states, actions) && n < |actions| && Sent(states[n], actions[n], c) != []
    ensures c in Queued(states, actions, n, true)
  {
    AllEnrolled(states, actions, n);
    RunLife(states, actions, n);
    SentToEnrolled(states[n], actions[n], Queued(states, actions, n, true), c);
  }

  lemma {:induction false} SentAtSomeStep(states: seq<State>, actions: seq<Action>, n: nat, c: nat)
    returns (i: nat)
    requires n <= |actions| < |states| && AllSent(states, actions, n, c) != []
    ensures i < n && Sent(states[i], actions[i], c) != []
  {
    i := n - 1;
    if Sent(states[i], actions[i], c) == [] {
      i := SentAtSomeStep(states, actions, n - 1, c);
    }
  }

  lemma {:induction false} QueuedStays(states: seq<State>, actions: seq<Action>, i: nat, n: nat, c: nat)
    requires i <= n <= |actions| < |states| && c in Queued(states, actions, i, true)
    ensures c in Queued(states, actions, n, true)
  {
    if i < n {
      QueuedStays(states, actions, i, n - 1, c);
    }
  }

  /** In every run only a client whose registration found room is ever sent anything. */
  lemma OnlyRegistered(states: seq<State>, actions: seq<Action>, n: nat, c: nat)
    requires IsRun(states, actions) && n < |states| && AllSent(states, actions, n, c) != []
    ensures c in Queued(states, actions, n, true)
  {
    var i := SentAtSomeStep(states, actions, n, c);
    SentIsEnrolled(states, actions, i, c);
    QueuedStays(states, actions, i, n, c);
  }

  ghost predicate Closed(s: State, c: nat) { c in s.clients && s.clients[c].closed }

  lemma MembersNext(s: State, a: Action, c: nat)
    requires Life(s)
    ensures c in Step(s, a).members <==> Joins(s, a, c) || (c in s.members && !Quits(s, a, c))
    ensures Closed(Step(s, a), c) <==> Closed(s, c) || (c in s.members && Quits(s, a, c))
  {
  }

  /** In every run the hub's clients are those whose registration it took up, and not their unregistration since; and
      the channels closed are those of the clients it dismissed so. */
  lemma {:induction false} MembersExactly(states: seq<State>, actions: seq<Action>, n: nat, c: nat)
    requires IsRun(states, actions) && n < |states|
    ensures c in states[n].members <==> Known(states, actions, n, c)
    ensures Closed(states[n], c) <==> Dismissed(states, actions, n, c)
  {
    if n > 0 {
      MembersExactly(states, actions, n - 1, c);
      RunInv(states, actions, n - 1);
      MembersNext(states[n - 1], actions[n - 1], c);
    }
  }

  /** For each broadcast taken up, the clients the hub had then. */
  ghost function Audiences(states: seq<State>, actions: seq<Action>, n: nat): seq<set<nat>>
    requires n <= |actions| < |states|
  {
    if n == 0 then []
    else
      var s := states[n - 1];
      Audiences(states, actions, n - 1)
        + if actions[n - 1].Begin? && s.loop.Idle? && s.msgs != [] then [s.members] else []
  }

  lemma AudienceNext(s: State, a: Action)
    ensures Step(s, a).audience
         == s.audience + if a.Begin? && s.loop.Idle? && s.msgs != [] then [s.members] else []
  {
  }

  lemma {:induction false} AudienceIsHistory(states: seq<State>, actions: seq<Action>, n: nat)
    requires IsRun(states, actions) && n < |states|
    ensures states[n].audience == Audiences(states, actions, n)
  {
    if n > 0 {
      AudienceIsHistory(states, actions, n - 1);
      AudienceNext(states[n - 1], actions[n - 1]);
    }
  }

  /** The hub's send of broadcast `k` to client `c` finds the channel full. */
  predicate Overflows(s: State, a: Action, c: nat, k: nat) {
    && a == Send(c) && s.loop.Fanning? && c in s.loop.todo && k == |s.fanned| - 1
    && c in s.clients && !s.clients[c].closed && |s.clients[c].buffer| >= 256
  }

  /** One of the first `n` steps did. */
  ghost predicate Overflowed(states: seq<State>, actions: seq<Action>, n: nat, c: nat, k: nat)
    requires n <= |actions| < |states|
  {
    n > 0 && (Overflowed(states, actions, n - 1, c, k) || Overflows(states[n - 1], actions[n - 1], c, k))
  }

  lemma OverflowNext(s: State, a: Action, c: nat, k: nat)
    ensures (c, k) in Step(s, a).overflow <==> (c, k) in s.overflow || Overflows(s, a, c, k)
  {
  }

  lemma {:induction false} OverflowIsHistory(states: seq<State>, actions: seq<Action>, n: nat, c: nat, k: nat)
    requires IsRun(states, actions) && n < |states|
    ensures (c, k) in states[n].overflow <==> Overflowed(states, actions, n, c, k)
  {
    if n > 0 {
      OverflowIsHistory(states, actions, n - 1, c, k);
      OverflowNext(states[n - 1], actions[n - 1], c, k);
    }
  }

  /** Once a broadcast has been fanned out, a client the hub had when it took it up has it, in its channel or
      received, if and only if no send of it to that client found the channel full. */
  lemma LostExactlyToFullChannels(states: seq<State>, actions: seq<Action>, n: nat, k: nat, c: nat)
    requires IsRun(states, actions) && n < |states|
    requires k < |Audiences(states, actions, n)| && c in Audiences(states, actions, n)[k]
    requires !states[n].loop.Fanning? || k < |states[n].fanned| - 1
    ensures Live(k) in AllSent(states, actions, n, c) <==> !Overflowed(states, actions, n, c, k)
  {
    RunInv(states, actions, n);
    AudienceIsHistory(states, actions, n);
    OverflowIsHistory(states, actions, n, c, k);
    ItemsAreSent(states, actions, n, c);
    ServedOrDropped(states[n], c, k);
  }

  lemma ServedOrDropped(s: State, c: nat, k: nat)
    requires Complete(s) && Apart(s) && k < |s.audience| && c in s.audience[k]
    requires !s.loop.Fanning? || k < |s.fanned| - 1
    ensures Live(k) in ItemsOf(s, c) <==> (c, k) !in s.overflow
  {
    assert Served(s, c, k);
  }

  /** A client that has gone, is still known to the hub, and no longer waits to be unregistered. */
  ghost predicate Stranded(s: State, c: nat) {
    c in s.clients && s.clients[c].phase.Gone? && (c in s.reg || c in s.members) && c !in s.unreg
  }

  /** The two steps that strand a client: the hub takes its unregistration up while its registration still waits,
      or it leaves while the queue of unregistrations is full. */
  predicate Strands(s: State, a: Action, c: nat) {
    match a
    case Unregister => s.loop.Idle? && s.unreg != [] && s.unreg[0] == c && c in s.reg
    case Leave(d) =>
      d == c && c in s.clients && s.clients[c].phase.Serving? && (c in s.reg || c in s.members) && |s.unreg| >= 64
    case _ => false
  }

  /** One of the first `n` steps strands the client. */
  ghost predicate Happened(states: seq<State>, actions: seq<Action>, n: nat, c: nat)
    requires n <= |actions| < |states|
  {
    n > 0 && (Happened(states, actions, n - 1, c) || Strands(states[n - 1], actions[n - 1], c))
  }

  lemma StrandedBy(s: State, a: Action, c: nat)
    requires Life(s)
    ensures Stranded(Step(s, a), c) <==> Stranded(s, c) || Strands(s, a, c)
  {
  }

  lemma StrandedNext(states: seq<State>, actions: seq<Action>, n: nat, c: nat)
    requires IsRun(states, actions) && n < |actions|
    ensures Stranded(states[n + 1], c) <==> Stranded(states[n], c) || Strands(states[n], actions[n], c)
  {
    RunInv(states, actions, n);
    StrandedBy(states[n], actions[n], c);
  }

  /** Such a client stays in the hub for good, and its channel is never closed. */
  lemma {:induction false} StrandedForever(states: seq<State>, actions: seq<Action>, m: nat, n: nat, c: nat)
    requires IsRun(states, actions) && m <= n < |states| && Stranded(states[m], c)
    ensures Stranded(states[n], c) && !states[n].clients[c].closed
    decreases n - m
  {
    if m < n {
      StrandedForever(states, actions, m, n - 1, c);
      StrandedNext(states, actions, n - 1, c);
    }
    RunInv(states, actions, n);
    assert LifeOk(states[n], c, states[n].clients[c]);
  }

  /** In every run a client is stranded if and only if one of those two steps happened to it. */
  lemma {:induction false} StrandedExactly(states: seq<State>, actions: seq<Action>, n: nat, c: nat)
    requires IsRun(states, actions) && n < |states|
    ensures Stranded(states[n], c) <==> Happened(states, actions, n, c)
  {
    if n > 0 {
      StrandedExactly(states, actions, n - 1, c);
      StrandedNext(states, actions, n - 1, c);
    }
  }

  // ---------- The hub never hangs ----------

  type Run = Trace<State, Action>

  lemma Go(r: Run, a: Action) returns (r': Run)
    requires IsRun(r.states, r.actions)
    ensures IsRun(r'.states, r'.actions) && r'.Last() == Step(r.Last(), a)
    ensures r.states <= r'.states && r.actions <= r'.actions
  {
    r' := Trace(r.states + [Step(r.Last(), a)], r.actions + [a]);
  }

  /** A fan-out comes to its end. */
  lemma {:induction false} FinishFanning(r: Run) returns (r': Run)
    requires IsRun(r.states, r.actions) && r.Last().loop.Fanning?
    ensures IsRun(r'.states, r'.actions) && r.states <= r'.states && r.actions <= r'.actions
    ensures r'.Last().loop.Idle? && r'.Last().msgs == r.Last().msgs && r'.Last().fanned == r.Last().fanned
    decreases r.Last().loop.todo
  {
    var todo := r.Last().loop.todo;
    if todo == {} {
      r' := Go(r, End);
    } else {
      RunInv(r.states, r.actions, |r.actions|);
      var c :| c in todo;
      assert c in r.Last().members && c in r.Last().clients;
      r' := Go(r, Send(c));
      r' := FinishFanning(r');
    }
  }

  /** Every run of a hub that has not been stopped goes on to take up the next broadcast that waits. */
  lemma NeverHangs(r: Run) returns (r': Run)
    requires IsRun(r.states, r.actions) && !r.Last().loop.Stopped? && r.Last().msgs != []
    ensures IsRun(r'.states, r'.actions) && r.states <= r'.states && r.actions <= r'.actions
    ensures r'.Last().fanned == r.Last().fanned + [r.Last().msgs[0]]
  {
    r' := r;
    if r.Last().loop.Fanning? {
      r' := FinishFanning(r);
    }
    r' := Go(r', Begin);
  }

  // ---------- Runs that strand a client ----------

  /** The hub takes the unregistration up before the registration. */
  lemma StrandedHappens() returns (r: Run)
    ensures IsRun(r.states, r.actions) && Stranded(r.Last(), 0)
  {
    r := Trace([Initial], []);
    r := Go(r, Connect(0));
    r := Go(r, Greet(0, false));
    r := Go(r, Leave(0));
    r := Go(r, Unregister);
    r := Go(r, Register);
  }

  /** `n` clients came and went; the hub has taken up their registrations but not yet their unregistrations. */
  ghost predicate Busy(s: State, n: nat) {
    s.loop.Idle? && s.reg == [] && |s.unreg| == n && forall c :: c in s.clients ==> c < n
  }

  lemma ComesAndGoes(r: Run, n: nat) returns (r': Run)
    requires IsRun(r.states, r.actions) && Busy(r.Last(), n) && n <= REG_CAP
    ensures IsRun(r'.states, r'.actions) && n in r'.Last().clients
    ensures n < REG_CAP ==> Busy(r'.Last(), n + 1)
    ensures n == REG_CAP ==> Stranded(r'.Last(), n) && |r'.Last().unreg| == REG_CAP
  {
    RunInv(r.states, r.actions, |r.actions|);
    r' := Go(r, Connect(n));
    assert r'.Last().reg == [n];
    r' := Go(r', Greet(n, false));
    r' := Go(r', Register);
    r' := Go(r', Leave(n));
  }

  lemma {:induction false} ManyComeAndGo(n: nat) returns (r: Run)
    requires n <= REG_CAP
    ensures IsRun(r.states, r.actions) && Busy(r.Last(), n)
  {
    if n == 0 {
      r := Trace([Initial], []);
    } else {
      r := ManyComeAndGo(n - 1);
      r := ComesAndGoes(r, n - 1);
    }
  }

  /** A client leaves while 64 unregistrations wait: the hub never hears of it. */
  lemma StrandedByFullQueue() returns (r: Run)
    ensures IsRun(r.states, r.actions) && Stranded(r.Last(), 64) && |r.Last().unreg| == 64
  {
    r := ManyComeAndGo(REG_CAP);
    r := ComesAndGoes(r, REG_CAP);
  }
}
