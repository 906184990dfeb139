/** The life of the engine's sessions: each has a reader that handles messages and puts the replies into a bounded
    channel, and a writer that drains it and stops for good when a write or a ping fails. A reader that finds the
    channel full waits. */
module SessionLife {
  import opened Traces
  import opened Orders
  import opened BookSpec
  import Clocks
  import Runs = EngineRuns

  const CAP := 256

  /** What the reader is doing; `rest` are the replies still to be put into the channel. */
  datatype Reader = Reading | Sending(rest: seq<Body>) | Closing | Closed

  /** What the writer is doing: waiting for a reply, writing one that it has taken out of the channel, or gone. */
  datatype Writer = Waiting | Writing(b: Body) | Gone

  /** `queued` are the replies in the channel. */
  datatype Pipe = Pipe(reader: Reader, queued: seq<Body>, writer: Writer)

  datatype State = State(engine: Runs.State, pipes: map<string, Pipe>) {
    function With(id: string, p: Pipe): State { this.(pipes := pipes[id := p]) }
  }

  const Initial := State(Runs.Initial, map[])

  datatype Action =
    | Accept(addr: string, reading: int)
    | Incoming(id: string, kind: string, m: Request, reading: int)  // read and handled
    | Push(id: string)                                             // a reply goes into the channel
    | ReadFails(id: string)
    | Finish(id: string)                                           // the session's orders are cancelled
    | TakeOut(id: string)                                          // the writer takes a reply out of the channel
    | Written(id: string, ok: bool)                                // ... and has written it, or failed to
    | WriterQuits(id: string)                                      // a ping fails

  function Step(s: State, a: Action): State {
    match a
    case Accept(addr, reading) =>
      var id := Runs.SessionId(addr, Clocks.Tick(s.engine.last, reading));
      State(Runs.Step(s.engine, Runs.Connect(addr, reading)), s.pipes[id := Pipe(Reading, [], Waiting)])
    case Incoming(id, kind, m, reading) =>
      if id in s.pipes && s.pipes[id].reader.Reading? then
        State(Handled(s.engine, id, kind, m, reading),
              s.pipes[id := s.pipes[id].(reader := Sending(Replies(s.engine, id, kind, m, reading)))])
      else s
    case Push(id) =>
      if id in s.pipes && s.pipes[id].reader.Sending? && |s.pipes[id].queued| < CAP && s.pipes[id].reader.rest != [] then
        var p := s.pipes[id];
        s.With(id, Pipe(if |p.reader.rest| == 1 then Reading else Sending(p.reader.rest[1..]),
                        p.queued + [p.reader.rest[0]], p.writer))
      else s
    case ReadFails(id) =>
      if id in s.pipes && s.pipes[id].reader.Reading? then s.With(id, s.pipes[id].(reader := Closing)) else s
    case Finish(id) =>
      if id in s.pipes && s.pipes[id].reader.Closing? then
        State(Runs.Step(s.engine, Runs.Disconnect(id)), s.pipes[id := s.pipes[id].(reader := Closed)])
      else s
    case TakeOut(id) =>
      if id in s.pipes && s.pipes[id].writer.Waiting? && s.pipes[id].queued != []
      then s.With(id, s.pipes[id].(queued := s.pipes[id].queued[1..], writer := Writing(s.pipes[id].queued[0]))) else s
    case Written(id, ok) =>
      if id in s.pipes && s.pipes[id].writer.Writing?
      then s.With(id, s.pipes[id].(writer := if ok then Waiting else Gone)) else s
    case WriterQuits(id) =>
      if id in s.pipes && s.pipes[id].writer.Waiting? then s.With(id, s.pipes[id].(writer := Gone)) else s
  }

  function Handled(e: Runs.State, id: string, kind: string, m: Request, reading: int): Runs.State {
    var es := Runs.EventOf(id, kind, m, reading);
    if es == [] then e else Runs.Step(e, es[0])
  }

  function Replies(e: Runs.State, id: string, kind: string, m: Request, reading: int): seq<Body> {
    Runs.RepliesTo(e.book, id, kind, m, Clocks.Tick(e.last, reading))
  }

  /** A run: the states passed through, one step of one goroutine at a time. */
  ghost predicate IsRun(states: seq<State>, actions: seq<Action>) {
    && |states| == |actions| + 1 && states[0] == Initial
    && forall i {:trigger actions[i]} :: 0 <= i < |actions| ==> states[i + 1] == Step(states[i], actions[i])
  }

  // ---------- The engine's part of a run ----------

  /** The event of the engine that a step makes, if it makes one. */
  function EngineEvent(s: State, a: Action): seq<Runs.Event> {
    match a
    case Accept(addr, reading) => [Runs.Connect(addr, reading)]
    case Incoming(id, kind, m, reading) =>
      if id in s.pipes && s.pipes[id].reader.Reading? then Runs.EventOf(id, kind, m, reading) else []
    case Finish(id) => if id in s.pipes && s.pipes[id].reader.Closing? then [Runs.Disconnect(id)] else []
    case _ => []
  }

  lemma EngineStep(s: State, a: Action)
    ensures var es := EngineEvent(s, a);
            Step(s, a).engine == if es == [] then s.engine else Runs.Step(s.engine, es[0])
  {
  }

  ghost function EngineEvents(states: seq<State>, actions: seq<Action>, n: nat): seq<Runs.Event>
    requires n <= |actions| < |states|
  {
    if n == 0 then [] else EngineEvents(states, actions, n - 1) + EngineEvent(states[n - 1], actions[n - 1])
  }

  lemma EngineRunNext(rs: seq<Runs.State>, es: seq<Runs.Event>, s: State, a: Action)
    returns (rs': seq<Runs.State>, es': seq<Runs.Event>)
    requires Runs.IsRun(rs, es) && rs[|es|] == s.engine
    ensures Runs.IsRun(rs', es') && rs'[|es'|] == Step(s, a).engine && es' == es + EngineEvent(s, a)
  {
    EngineStep(s, a);
    var e := EngineEvent(s, a);
    assert |e| <= 1;
    rs', es' := if e == [] then rs else rs + [Runs.Step(s.engine, e[0])], es + e;
  }

  /** However the sending of replies interleaves, the engine goes through the run of the connections made, the
      messages read and the sessions closed. */
  lemma {:induction false} EngineRun(states: seq<State>, actions: seq<Action>, n: nat)
    returns (rs: seq<Runs.State>, es: seq<Runs.Event>)
    requires IsRun(states, actions) && n < |states|
    ensures Runs.IsRun(rs, es) && rs[|es|] == states[n].engine && es == EngineEvents(states, actions, n)
  {
    if n == 0 {
      rs, es := [Runs.Initial], [];
    } else {
      rs, es := EngineRun(states, actions, n - 1);
      rs, es := EngineRunNext(rs, es, states[n - 1], actions[n - 1]);
    }
  }

  lemma EngineInv(states: seq<State>, actions: seq<Action>, n: nat)
    requires IsRun(states, actions) && n < |states|
    ensures Runs.Inv(states[n].engine)
  {
    var rs, es := EngineRun(states, actions, n);
    Runs.RunInv(rs, es, |es|);
  }

  // ---------- Sessions and pipes ----------

  ghost predicate PipeOk(p: Pipe) {
    |p.queued| <= CAP && (p.reader.Sending? ==> p.reader.rest != [])
  }

  ghost predicate Inv(s: State) {
    && s.pipes.Keys == s.engine.issued
    && (forall id :: id in s.pipes ==> PipeOk(s.pipes[id]))
    && (forall id :: id in s.pipes ==> (id in s.engine.open <==> !s.pipes[id].reader.Closed?))
  }

  lemma RepliesPositive(e: Runs.State, id: string, kind: string, m: Request, reading: int)
    ensures Replies(e, id, kind, m, reading) != []
  {
  }

  lemma HandledKeeps(e: Runs.State, id: string, kind: string, m: Request, reading: int)
    ensures var e' := Handled(e, id, kind, m, reading); e'.open == e.open && e'.issued == e.issued
  {
  }

  lemma AcceptInv(s: State, addr: string, reading: int)
    requires Inv(s) && Runs.Inv(s.engine)
    ensures Inv(Step(s, Accept(addr, reading)))
  {
    Runs.FreshSession(s.engine, addr, Clocks.Tick(s.engine.last, reading));
  }

  lemma IncomingInv(s: State, id: string, kind: string, m: Request, reading: int)
    requires Inv(s)
    ensures Inv(Step(s, Incoming(id, kind, m, reading)))
  {
    RepliesPositive(s.engine, id, kind, m, reading);
    HandledKeeps(s.engine, id, kind, m, reading);
  }

  lemma FinishInv(s: State, id: string)
    requires Inv(s)
    ensures Inv(Step(s, Finish(id)))
  {
  }

  lemma PipeInv(s: State, a: Action)
    requires Inv(s) && (a.Push? || a.ReadFails? || a.TakeOut? || a.Written? || a.WriterQuits?)
    ensures Inv(Step(s, a))
  {
  }

  lemma StepInv(s: State, a: Action)
    requires Inv(s) && Runs.Inv(s.engine)
    ensures Inv(Step(s, a))
  {
    match a
    case Accept(addr, reading) => AcceptInv(s, addr, reading);
    case Incoming(id, kind, m, reading) => IncomingInv(s, id, kind, m, reading);
    case Finish(id) => FinishInv(s, id);
    case _ => PipeInv(s, a);
  }

  lemma {:induction false} RunInv(states: seq<State>, actions: seq<Action>, n: nat)
    requires IsRun(states, actions) && n < |states|
    ensures Inv(states[n])
  {
    if n > 0 {
      RunInv(states, actions, n - 1);
      EngineInv(states, actions, n - 1);
      StepInv(states[n - 1], actions[n - 1]);
    }
  }

  // ---------- Replies arrive in order ----------

  /** The step reads a message of the session; these are the replies to it. */
  ghost function Produced(s: State, a: Action, id: string): seq<Body> {
    if a.Incoming? && a.id == id && id in s.pipes && s.pipes[id].reader.Reading?
    then Replies(s.engine, id, a.kind, a.m, a.reading) else []
  }

  ghost function AllProduced(states: seq<State>, actions: seq<Action>, n: nat, id: string): seq<Body>
    requires n <= |actions| < |states|
  {
    if n == 0 then [] else AllProduced(states, actions, n - 1, id) + Produced(states[n - 1], actions[n - 1], id)
  }

  /** The step writes a reply to the client. */
  ghost function Delivered(s: State, a: Action, id: string): seq<Body> {
    if a == Written(id, true) && id in s.pipes && s.pipes[id].writer.Writing? then [s.pipes[id].writer.b] else []
  }

  ghost function AllDelivered(states: seq<State>, actions: seq<Action>, n: nat, id: string): seq<Body>
    requires n <= |actions| < |states|
  {
    if n == 0 then [] else AllDelivered(states, actions, n - 1, id) + Delivered(states[n - 1], actions[n - 1], id)
  }

  /** The reply that a failed write loses. */
  ghost function Lost(s: State, a: Action, id: string): seq<Body> {
    if a == Written(id, false) && id in s.pipes && s.pipes[id].writer.Writing? then [s.pipes[id].writer.b] else []
  }

  ghost function AllLost(states: seq<State>, actions: seq<Action>, n: nat, id: string): seq<Body>
    requires n <= |actions| < |states|
  {
    if n == 0 then [] else AllLost(states, actions, n - 1, id) + Lost(states[n - 1], actions[n - 1], id)
  }

  /** The replies on their way: in the writer's hand, in the channel, and in the reader's. */
  function InHand(s: State, id: string): seq<Body> {
    if id in s.pipes && s.pipes[id].writer.Writing? then [s.pipes[id].writer.b] else []
  }

  function Behind(s: State, id: string): seq<Body> {
    if id !in s.pipes then []
    else s.pipes[id].queued + if s.pipes[id].reader.Sending? then s.pipes[id].reader.rest else []
  }

  /** A step passes replies on without changing their order. */
  ghost predicate Passes(s: State, a: Action, id: string) {
    InHand(s, id) + Behind(s, id) + Produced(s, a, id)
    == Delivered(s, a, id) + Lost(s, a, id) + InHand(Step(s, a), id) + Behind(Step(s, a), id)
  }

  lemma PushPasses(s: State, x: string, id: string)
    ensures Passes(s, Push(x), id)
  {
    if id in s.pipes && s.pipes[id].reader.Sending? && s.pipes[id].reader.rest != [] {
      var p := s.pipes[id];
      assert p.queued + p.reader.rest == p.queued + [p.reader.rest[0]] + p.reader.rest[1..];
      assert Behind(Step(s, Push(x)), id) == Behind(s, id);
    }
  }

  lemma TakeOutEffect(s: State, x: string, id: string)
    ensures var s' := Step(s, TakeOut(x)); InHand(s', id) + Behind(s', id) == InHand(s, id) + Behind(s, id)
    ensures Produced(s, TakeOut(x), id) == Delivered(s, TakeOut(x), id) == Lost(s, TakeOut(x), id) == []
  {
    if id in s.pipes && s.pipes[id].queued != [] {
      var p := s.pipes[id];
      assert p.queued == [p.queued[0]] + p.queued[1..];
      Three([p.queued[0]], p.queued[1..], if p.reader.Sending? then p.reader.rest else []);
    }
  }

  lemma TakeOutPasses(s: State, x: string, id: string)
    ensures Passes(s, TakeOut(x), id)
  {
    var s' := Step(s, TakeOut(x));
    TakeOutEffect(s, x, id);
    NoneNew(InHand(s, id), Behind(s, id), InHand(s', id), Behind(s', id));
  }

  lemma Three(x: seq<Body>, y: seq<Body>, z: seq<Body>)
    ensures x + y + z == x + (y + z)
  {
  }

  lemma WrittenPasses(s: State, x: string, ok: bool, id: string)
    ensures Passes(s, Written(x, ok), id)
  {
  }

  lemma IncomingEffect(s: State, a: Action, id: string)
    requires a.Incoming?
    ensures InHand(Step(s, a), id) == InHand(s, id) && Behind(Step(s, a), id) == Behind(s, id) + Produced(s, a, id)
    ensures Delivered(s, a, id) == [] && Lost(s, a, id) == []
  {
  }

  lemma IncomingPasses(s: State, a: Action, id: string)
    requires a.Incoming?
    ensures Passes(s, a, id)
  {
    IncomingEffect(s, a, id);
    Three(InHand(s, id), Behind(s, id), Produced(s, a, id));
    NothingFirst(InHand(Step(s, a), id));
  }

  lemma NoneNew(h: seq<Body>, b: seq<Body>, h': seq<Body>, b': seq<Body>)
    requires h + b == h' + b'
    ensures h + b + [] == [] + [] + h' + b'
  {
  }

  lemma NothingFirst(x: seq<Body>)
    ensures [] + [] + x == x
  {
  }

  lemma RestPasses(s: State, a: Action, id: string)
    requires a.ReadFails? || a.Finish? || a.WriterQuits?
    ensures Passes(s, a, id)
  {
    assert InHand(Step(s, a), id) == InHand(s, id) && Behind(Step(s, a), id) == Behind(s, id);
  }

  lemma AcceptPasses(s: State, addr: string, reading: int, id: string)
    requires Inv(s) && Runs.Inv(s.engine)
    ensures Passes(s, Accept(addr, reading), id)
  {
    Runs.FreshSession(s.engine, addr, Clocks.Tick(s.engine.last, reading));
    var s' := Step(s, Accept(addr, reading));
    assert InHand(s', id) == InHand(s, id) && Behind(s', id) == Behind(s, id);
  }

  lemma PipeNext(s: State, a: Action, id: string)
    requires Inv(s) && Runs.Inv(s.engine)
    ensures Passes(s, a, id)
  {
    match a
    case Accept(addr, reading) => AcceptPasses(s, addr, reading, id);
    case Push(x) => PushPasses(s, x, id);
    case TakeOut(x) => TakeOutPasses(s, x, id);
    case Written(x, ok) => WrittenPasses(s, x, ok, id);
    case Incoming(_, _, _, _) => IncomingPasses(s, a, id);
    case _ => RestPasses(s, a, id);
  }

  /** Once a write has failed nothing more is written. */
  ghost predicate LostLast(s: State, id: string, lost: seq<Body>) {
    lost != [] ==> id in s.pipes && s.pipes[id].writer.Gone?
  }

  lemma LostNext(s: State, a: Action, id: string, lost: seq<Body>)
    requires Inv(s) && Runs.Inv(s.engine) && LostLast(s, id, lost)
    ensures LostLast(Step(s, a), id, lost + Lost(s, a, id))
    ensures lost != [] ==> Delivered(s, a, id) == [] && Lost(s, a, id) == [] && InHand(s, id) == []
  {
    if a.Accept? {
      Runs.FreshSession(s.engine, a.addr, Clocks.Tick(s.engine.last, a.reading));
    }
  }

  ghost predicate InOrder(s: State, id: string, delivered: seq<Body>, lost: seq<Body>, produced: seq<Body>) {
    LostLast(s, id, lost) && delivered + lost + InHand(s, id) + Behind(s, id) == produced
  }

  lemma OrderNext(s: State, a: Action, id: string, delivered: seq<Body>, lost: seq<Body>, produced: seq<Body>)
    requires Inv(s) && Runs.Inv(s.engine) && InOrder(s, id, delivered, lost, produced)
    ensures InOrder(Step(s, a), id, delivered + Delivered(s, a, id), lost + Lost(s, a, id), produced + Produced(s, a, id))
  {
    PipeNext(s, a, id);
    LostNext(s, a, id, lost);
    Passing(delivered, lost, InHand(s, id), Behind(s, id), Produced(s, a, id), Delivered(s, a, id), Lost(s, a, id),
            InHand(Step(s, a), id), Behind(Step(s, a), id));
  }

  lemma Passing(delivered: seq<Body>, lost: seq<Body>, h: seq<Body>, b: seq<Body>, more: seq<Body>,
                d: seq<Body>, l: seq<Body>, h': seq<Body>, b': seq<Body>)
    requires h + b + more == d + l + h' + b' && (lost == [] || (d == [] && l == [] && h == []))
    ensures delivered + lost + h + b + more == (delivered + d) + (lost + l) + h' + b'
  {
    assert delivered + lost + h + b + more == delivered + lost + (h + b + more);
    if lost != [] {
      assert d + l + h' + b' == h' + b';
    }
  }

  ghost predicate OrderOk(states: seq<State>, actions: seq<Action>, n: nat, id: string)
    requires n <= |actions| < |states|
  {
    InOrder(states[n], id, AllDelivered(states, actions, n, id), AllLost(states, actions, n, id),
            AllProduced(states, actions, n, id))
  }

  lemma OrderStep(states: seq<State>, actions: seq<Action>, n: nat, id: string)
    requires n < |actions| < |states| && states[n + 1] == Step(states[n], actions[n])
    requires Inv(states[n]) && Runs.Inv(states[n].engine) && OrderOk(states, actions, n, id)
    ensures OrderOk(states, actions, n + 1, id)
  {
    OrderNext(states[n], actions[n], id, AllDelivered(states, actions, n, id), AllLost(states, actions, n, id),
              AllProduced(states, actions, n, id));
  }

  lemma {:induction false} RunOrder(states: seq<State>, actions: seq<Action>, n: nat, id: string)
    requires IsRun(states, actions) && n < |states|
    ensures OrderOk(states, actions, n, id)
  {
    if n > 0 {
      RunOrder(states, actions, n - 1, id);
      RunInv(states, actions, n - 1);
      EngineInv(states, actions, n - 1);
      assert states[n] == Step(states[n - 1], actions[n - 1]);
      OrderStep(states, actions, n - 1, id);
    }
  }

  /** In every run the replies a client gets are the first of those to its messages, in order: behind them come the
      one that a failed write lost, if any, and those on their way. */
  lemma RepliesInOrder(states: seq<State>, actions: seq<Action>, n: nat, id: string)
    requires IsRun(states, actions) && n < |states|
    ensures AllDelivered(states, actions, n, id) + AllLost(states, actions, n, id)
            + InHand(states[n], id) + Behind(states[n], id)
         == AllProduced(states, actions, n, id)
  {
    RunOrder(states, actions, n, id);
  }

  // ---------- When is a session stuck? ----------

  /** The writer is gone and the replies still to be sent do not fit into the channel. */
  predicate StuckPipe(p: Pipe) {
    p.writer.Gone? && p.reader.Sending? && |p.queued| + |p.reader.rest| > 256
  }

  predicate Stuck(s: State, id: string) { id in s.pipes && StuckPipe(s.pipes[id]) }

  /** The two ways to get there: with the writer gone, a message has more replies than the channel has room for; or
      the writer stops while more replies are waiting than the channel has room for. */
  predicate Jams(s: State, a: Action, id: string) {
    && id in s.pipes
    && var p := s.pipes[id];
       match a
       case Incoming(x, kind, m, reading) =>
         x == id && p.reader.Reading? && p.writer.Gone? && |p.queued| + |Replies(s.engine, id, kind, m, reading)| > 256
       case Written(x, ok) =>
         x == id && p.writer.Writing? && !ok && p.reader.Sending? && |p.queued| + |p.reader.rest| > 256
       case WriterQuits(x) =>
         x == id && p.writer.Waiting? && p.reader.Sending? && |p.queued| + |p.reader.rest| > 256
       case _ => false
  }

  /** One of the first `n` steps did it. */
  ghost predicate Jammed(states: seq<State>, actions: seq<Action>, n: nat, id: string)
    requires n <= |actions| < |states|
  {
    n > 0 && (Jammed(states, actions, n - 1, id) || Jams(states[n - 1], actions[n - 1], id))
  }

  /** An id that is in use is not given out again. */
  lemma StuckNext(s: State, a: Action, id: string)
    requires Inv(s) && Runs.Inv(s.engine)
    ensures Stuck(Step(s, a), id) <==> Stuck(s, id) || Jams(s, a, id)
  {
    if a.Accept? {
      Runs.FreshSession(s.engine, a.addr, Clocks.Tick(s.engine.last, a.reading));
    }
    if id in s.pipes {
      assert PipeOk(s.pipes[id]);
    }
  }

  lemma StuckStep(states: seq<State>, actions: seq<Action>, n: nat, id: string)
    requires IsRun(states, actions) && n < |actions|
    ensures Stuck(states[n + 1], id) <==> Stuck(states[n], id) || Jams(states[n], actions[n], id)
  {
    RunInv(states, actions, n);
    EngineInv(states, actions, n);
    StuckNext(states[n], actions[n], id);
  }

  /** In every run a session is stuck if and only if one of those steps happened to it. */
  lemma {:induction false} StuckExactly(states: seq<State>, actions: seq<Action>, n: nat, id: string)
    requires IsRun(states, actions) && n < |states|
    ensures Stuck(states[n], id) <==> Jammed(states, actions, n, id)
  {
    if n > 0 {
      StuckExactly(states, actions, n - 1, id);
      StuckStep(states, actions, n - 1, id);
    }
  }

  /** A stuck session stays so and stays open: its orders are never cancelled. */
  lemma {:induction false} StuckForever(states: seq<State>, actions: seq<Action>, m: nat, n: nat, id: string)
    requires IsRun(states, actions) && m <= n < |states| && Stuck(states[m], id)
    ensures Stuck(states[n], id) && id in states[n].engine.open
    decreases n
  {
    if m < n {
      StuckForever(states, actions, m, n - 1, id);
      StuckStep(states, actions, n - 1, id);
    }
    RunInv(states, actions, n);
  }

  // ---------- A session that is not stuck can close ----------

  type Run = Trace<State, Action>

  ghost predicate Proper(r: Run) { IsRun(r.states, r.actions) }

  lemma Go(r: Run, a: Action) returns (r': Run)
    requires Proper(r)
    ensures Proper(r') && r'.Extends(r) && r'.Last() == Step(r.Last(), a)
    ensures |r'.actions| == |r.actions| + 1 && r'.actions[|r.actions|] == a && r'.states[|r.actions|] == r.Last()
  {
    r' := Trace(r.states + [Step(r.Last(), a)], r.actions + [a]);
  }

  /** What brings a reader that is not stuck forward. */
  function NextMove(id: string, p: Pipe): Action {
    match p.reader
    case Reading => ReadFails(id)
    case Sending(_) => if |p.queued| < CAP then Push(id) else if p.writer.Writing? then Written(id, true) else TakeOut(id)
    case _ => Finish(id)
  }

  function Distance(p: Pipe): nat {
    match p.reader
    case Reading => 2
    case Sending(rest) => 3 * |rest| + 3 + if |p.queued| < CAP then 0 else if p.writer.Writing? then 2 else 1
    case Closing => 1
    case Closed => 0
  }

  lemma Closer(s: State, id: string)
    requires id in s.pipes && PipeOk(s.pipes[id]) && !StuckPipe(s.pipes[id]) && !s.pipes[id].reader.Closed?
    ensures var s' := Step(s, NextMove(id, s.pipes[id]));
            id in s'.pipes && !StuckPipe(s'.pipes[id]) && Distance(s'.pipes[id]) < Distance(s.pipes[id])
  {
  }

  /** Every run with a session that is not stuck goes on to one in which the session is closed. */
  lemma {:induction false} CanClose(r: Run, id: string) returns (r': Run)
    requires Proper(r) && id in r.Last().pipes && !Stuck(r.Last(), id)
    ensures Proper(r') && r'.Extends(r) && id in r'.Last().pipes && r'.Last().pipes[id].reader.Closed?
    decreases Distance(r.Last().pipes[id])
  {
    if r.Last().pipes[id].reader.Closed? {
      r' := r;
    } else {
      RunInv(r.states, r.actions, |r.actions|);
      Closer(r.Last(), id);
      r' := Go(r, NextMove(id, r.Last().pipes[id]));
      r' := CanClose(r', id);
    }
  }

  /** A session can still be closed, and its orders cancelled, if and only if it is not stuck. */
  lemma ClosesExactly(r: Run, id: string)
    requires Proper(r) && id in r.Last().pipes
    ensures !Stuck(r.Last(), id) <==>
            exists r': Run :: Proper(r') && r'.Extends(r) && id !in r'.Last().engine.open
  {
    if !Stuck(r.Last(), id) {
      var r' := CanClose(r, id);
      RunInv(r'.states, r'.actions, |r'.actions|);
    } else {
      forall r': Run | Proper(r') && r'.Extends(r) ensures id in r'.Last().engine.open {
        StuckForever(r'.states, r'.actions, |r.actions|, |r'.actions|, id);
      }
    }
  }

  // ---------- The orders of a stuck session ----------

  /** The step trades with order `id`. */
  ghost predicate TradesWith(s: State, a: Action, id: string) {
    && a.Incoming? && a.kind == "order" && a.id in s.pipes && s.pipes[a.id].reader.Reading?
    && exists t :: t in Submit(s.engine.book, a.id, a.m, Clocks.Tick(s.engine.last, a.reading)).trades && t.maker.id == id
  }

  /** One of the steps from `m` to `n` does. */
  ghost predicate Traded(states: seq<State>, actions: seq<Action>, m: nat, n: nat, id: string)
    requires m <= n <= |actions| < |states|
  {
    n > m && (Traded(states, actions, m, n - 1, id) || TradesWith(states[n - 1], actions[n - 1], id))
  }

  /** An order stays in the queue of a walk that does not trade with it. */
  lemma {:induction false} WalkKeeps(side: Side, kind: Kind, limit: real, want: int, q: seq<Resting>,
                                     session: string, id: string)
    requires id in SessionIds(q, session)
    requires forall t :: t in Walk(side, kind, limit, want, q).trades ==> t.maker.id != id
    ensures id in SessionIds(Walk(side, kind, limit, want, q).queue, session)
    decreases |q|, if want > 0 then want else 0
  {
    if want > 0 && q != [] && Crosses(side, kind, limit, q[0].price) {
      var t := FirstTrade(want, q);
      var rest := AfterTrade(q, t.qty);
      var out := Walk(side, kind, limit, t.remaining, rest);
      assert Walk(side, kind, limit, want, q).trades == [t] + out.trades;
      assert t in [t] + out.trades;
      var i :| 0 <= i < |q| && q[i].session == session && q[i].id == id;
      assert rest[if q[0].remaining == t.qty then i - 1 else i] == q[i];
      WalkKeeps(side, kind, limit, t.remaining, rest, session, id);
    }
  }

  lemma InsertKeeps(side: Side, x: Resting, q: seq<Resting>, session: string, id: string)
    requires id in SessionIds(q, session)
    ensures id in SessionIds(Insert(side, x, q), session)
  {
    InsertMembers(side, x, q);
    var i :| 0 <= i < |q| && q[i].session == session && q[i].id == id;
    assert q[i] in multiset(Insert(side, x, q));
    var j :| 0 <= j < |Insert(side, x, q)| && Insert(side, x, q)[j] == q[i];
  }

  lemma SubmitKeeps(b: Book, sender: string, m: Request, stamp: int, session: string, id: string)
    requires id in Owned(b, session) && forall t :: t in Submit(b, sender, m, stamp).trades ==> t.maker.id != id
    ensures id in Owned(Submit(b, sender, m, stamp).book, session)
  {
    if Refused(b, m).None? {
      Accepted(b, sender, m, stamp);
      var side := SideOf(m);
      var out := Matched(b, m);
      if id in SessionIds(b.On(side.Opposite()), session) {
        WalkKeeps(side, KindOf(m), m.price, m.quantity, b.On(side.Opposite()), session, id);
      } else {
        InsertKeeps(side, NewResting(m, sender, stamp, out.left), b.On(side), session, id);
      }
    }
  }

  lemma DropKeeps(b: Book, ids: set<string>, session: string, id: string)
    requires id in Owned(b, session) && id !in ids
    ensures id in Owned(DropBoth(b, ids), session)
  {
    OwnedMembers(b, session, id);
    var side, r :| r in b.On(side) && r.id == id && r.session == session;
    DropMembers(b.On(side), ids);
    var q := DropBoth(b, ids).On(side);
    var j :| 0 <= j < |q| && q[j] == r;
  }

  /** No order belongs to two sessions. */
  lemma OneOwner(b: Book, now: int, s: string, s': string, id: string)
    requires Good(b, now) && id in Owned(b, s) && id in Owned(b, s')
    ensures s == s'
  {
    OwnedMembers(b, s, id);
    OwnedMembers(b, s', id);
    var x, r :| r in b.On(x) && r.id == id && r.session == s;
    var x', r' :| r' in b.On(x') && r'.id == id && r'.session == s';
    IdIsUnique(b, now, x, x', r, r');
  }

  lemma EventKeeps(e: Runs.State, ev: Runs.Event, session: string, id: string)
    requires Good(e.book, e.last) && id in Owned(e.book, session)
    requires (ev.CancelOrder? || ev.Disconnect?) ==> ev.session != session
    requires ev.NewOrder? ==>
               forall t :: t in Submit(e.book, ev.session, ev.m, Clocks.Tick(e.last, ev.reading)).trades ==>
                 t.maker.id != id
    ensures id in Owned(Runs.Step(e, ev).book, session)
  {
    match ev
    case Connect(_, _) =>
    case NewOrder(sender, m, reading) => SubmitKeeps(e.book, sender, m, Clocks.Tick(e.last, reading), session, id);
    case CancelOrder(sender, x) =>
      if x == id && id in Owned(e.book, sender) {
        OneOwner(e.book, e.last, session, sender, id);
      }
      if x != id {
        DropKeeps(e.book, {x}, session, id);
      }
    case Disconnect(sender) =>
      if id in Owned(e.book, sender) {
        OneOwner(e.book, e.last, session, sender, id);
      }
      DropKeeps(e.book, Owned(e.book, sender), session, id);
  }

  lemma StepKeeps(s: State, a: Action, session: string, id: string)
    requires Stuck(s, session) && Good(s.engine.book, s.engine.last) && id in Owned(s.engine.book, session)
    requires !TradesWith(s, a, id)
    ensures id in Owned(Step(s, a).engine.book, session)
  {
    EngineStep(s, a);
    var es := EngineEvent(s, a);
    if es != [] {
      EventKeeps(s.engine, es[0], session, id);
    }
  }

  lemma StaysOne(states: seq<State>, actions: seq<Action>, n: nat, session: string, id: string)
    requires IsRun(states, actions) && n < |actions|
    requires Stuck(states[n], session) && id in Owned(states[n].engine.book, session)
    requires !TradesWith(states[n], actions[n], id)
    ensures id in Owned(states[n + 1].engine.book, session)
  {
    EngineInv(states, actions, n);
    StepKeeps(states[n], actions[n], session, id);
  }

  ghost predicate StaysOrTrades(states: seq<State>, actions: seq<Action>, m: nat, n: nat, session: string, id: string)
    requires m <= n <= |actions| < |states|
  {
    id in Owned(states[n].engine.book, session) || Traded(states, actions, m, n, id)
  }

  lemma StaysNext(states: seq<State>, actions: seq<Action>, m: nat, n: nat, session: string, id: string)
    requires IsRun(states, actions) && m <= n < |actions| && Stuck(states[m], session)
    requires StaysOrTrades(states, actions, m, n, session, id)
    ensures StaysOrTrades(states, actions, m, n + 1, session, id)
  {
    StuckForever(states, actions, m, n, session);
    if !Traded(states, actions, m, n, id) && !TradesWith(states[n], actions[n], id) {
      StaysOne(states, actions, n, session, id);
    }
  }

  lemma {:induction false} RunStays(states: seq<State>, actions: seq<Action>, m: nat, n: nat, session: string, id: string)
    requires IsRun(states, actions) && m <= n < |states|
    requires Stuck(states[m], session) && id in Owned(states[m].engine.book, session)
    ensures StaysOrTrades(states, actions, m, n, session, id)
    decreases n
  {
    if m < n {
      RunStays(states, actions, m, n - 1, session, id);
      StaysNext(states, actions, m, n - 1, session, id);
    }
  }

  /** An order of a stuck session leaves the book only by trading: neither its owner nor the engine ever cancels it. */
  lemma StuckOrdersStay(states: seq<State>, actions: seq<Action>, m: nat, n: nat, session: string, id: string)
    requires IsRun(states, actions) && m <= n < |states|
    requires Stuck(states[m], session) && id in Owned(states[m].engine.book, session)
    ensures id in Owned(states[n].engine.book, session) || Traded(states, actions, m, n, id)
  {
    RunStays(states, actions, m, n, session, id);
  }

  // ---------- A run in which a session gets stuck ----------

  const Bid := Request("x", "buy", "limit", 1.0, 1)

  lemma BidRests(session: string, stamp: int)
    ensures var r := Submit(EmptyBook, session, Bid, stamp);
            |r.replies| == 1 && "x" in Owned(r.book, session)
  {
    var r := Submit(EmptyBook, session, Bid, stamp);
    assert ValidId("x") && Refused(EmptyBook, Bid).None?;
    assert r.book.bids == [NewResting(Bid, session, stamp, 1)];
    assert r.book.bids[0].session == session;
  }

  /** A session with `k` replies in the channel and order "x" on the book. */
  ghost predicate Filling(s: State, id: string, k: nat, w: Writer) {
    && id in s.pipes && s.pipes[id].reader.Reading? && |s.pipes[id].queued| == k && s.pipes[id].writer == w
    && "x" in Owned(s.engine.book, id)
  }

  lemma OneBid() returns (r: Run, id: string)
    ensures Proper(r) && Filling(r.Last(), id, 1, Waiting)
  {
    id := Runs.SessionId("a", Clocks.Tick(0, 1));
    r := Trace([Initial], []);
    r := Go(r, Accept("a", 1));
    assert r.Last().engine.book == EmptyBook && id in r.Last().engine.open;
    BidRests(id, Clocks.Tick(r.Last().engine.last, 2));
    r := Go(r, Incoming(id, "order", Bid, 2));
    assert "x" in Owned(r.Last().engine.book, id);
    r := Go(r, Push(id));
  }

  /** One more message, of an unknown type, and its one reply goes into the channel. */
  lemma OneMore(r: Run, id: string, k: nat, w: Writer) returns (r': Run)
    requires Proper(r) && Filling(r.Last(), id, k, w) && k < CAP
    ensures Proper(r') && Filling(r'.Last(), id, k + 1, w)
  {
    r' := Go(r, Incoming(id, "", Bid, 0));
    r' := Go(r', Push(id));
  }

  lemma {:induction false} ChannelFills(r: Run, id: string, k: nat, w: Writer) returns (r': Run)
    requires Proper(r) && Filling(r.Last(), id, k, w) && k <= CAP
    ensures Proper(r') && Filling(r'.Last(), id, CAP, w)
    decreases CAP - k
  {
    if k == CAP {
      r' := r;
    } else {
      r' := OneMore(r, id, k, w);
      r' := ChannelFills(r', id, k + 1, w);
    }
  }

  /** The writer stops, the client sends on, and when the channel is full the session is stuck with its order. */
  lemma JamHappens() returns (r: Run, id: string)
    ensures Proper(r) && Stuck(r.Last(), id) && "x" in Owned(r.Last().engine.book, id)
  {
    r, id := OneBid();
    r := Go(r, WriterQuits(id));
    r := ChannelFills(r, id, 1, Gone);
    r := Go(r, Incoming(id, "", Bid, 0));
  }

  /** The client stops receiving: the writer hangs in a write, the channel fills, the reader waits with a reply in
      hand, and then the write fails. */
  lemma JamByWrite() returns (r: Run, id: string)
    ensures Proper(r) && Stuck(r.Last(), id) && "x" in Owned(r.Last().engine.book, id)
    ensures |r.actions| > 0 && r.actions[|r.actions| - 1] == Written(id, false)
    ensures Jams(r.states[|r.actions| - 1], r.actions[|r.actions| - 1], id)
  {
    r, id := OneBid();
    var b := r.Last().pipes[id].queued[0];
    r := Go(r, TakeOut(id));
    r := ChannelFills(r, id, 0, Writing(b));
    r := Go(r, Incoming(id, "", Bid, 0));
    ghost var s := r.Last();
    assert s.pipes[id].reader.Sending? && |s.pipes[id].queued| == 256 && s.pipes[id].writer.Writing?;
    var r' := Go(r, Written(id, false));
    r := r';
  }
}
