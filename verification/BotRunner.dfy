/** The load bot: a writer, any number of readers and an ageing collector share the table of pending
    orders, under a mutex, and the in-flight counter, which is atomic but not covered by the mutex. */
module BotRunner {
  import opened Traces
  import L = LoadSequences

  datatype Config = Config(bot: nat, templates: seq<L.Step>)

  const LIMIT := 20

  /** Where the writer is. `k` is the template it is working on. */
  datatype Writer =
    | Dialing                     // no connection
    | Looping                     // at the top of the writer loop
    | At(k: nat)                  // about to do template k
    | Waiting(k: nat)             // held back until few enough orders are in flight
    | Admitted(k: nat)            // let through, not yet in the table
    | Sending(k: nat)             // about to write to the connection

  /** Who holds the mutex, and whether the counter still owes the change made to the table. */
  datatype Mutex =
    | Free
    | WriterHolds(inserted: bool)
    | ReaderHolds(removed: bool)
    | CollectorHolds(now: int, removed: bool)

  datatype Kind = Ack | Fill(remaining: int) | Reject | CancelAck | Other

  /** The counters the bot reports. */
  datatype Metrics = Metrics(ordersSent: nat, acks: nat, fills: nat, rejects: nat, stale: nat)

  /** What became of the orders, for the books only: overwritten counts orders whose id was sent again while
      they were pending, torn the writes that failed, errors the failed reads, acked and partly the messages. */
  datatype Tally = Tally(filled: nat, rejected: nat, cancelled: nat, aged: nat, overwritten: nat,
                         torn: nat, errors: nat, ackMessages: nat, fillMessages: nat)

  datatype State = State(pending: map<string, int>, inFlight: int, mutex: Mutex, writer: Writer,
                         iteration: nat, ids: map<string, string>, metrics: Metrics, tally: Tally)

  const Initial := State(map[], 0, Free, Dialing, 0, map[], Metrics(0, 0, 0, 0, 0), Tally(0, 0, 0, 0, 0, 0, 0, 0, 0))

  datatype Action =
    | Dial | ReadError | Begin          // connect; leave the loop on a read error; start an iteration
    | Take                              // take up the next template, or finish the iteration
    | Pass                              // the backpressure check
    | Lock | Insert(now: int) | Count   // the writer's critical section
    | Write(ok: bool)
    | Handle(id: string, kind: Kind) | Decrement | Unlock   // a reader's critical section
    | Sweep(now: int) | Expire(id: string)                  // the collector's

  function CurrentId(c: Config, s: State): string
    requires s.writer.Admitted? && s.writer.k < |c.templates|
  {
    L.OrderId(c.bot, s.iteration, c.templates[s.writer.k].tag)
  }

  function Step(c: Config, s: State, a: Action): State {
    match a
    case Dial => if s.writer.Dialing? then s.(writer := Looping) else s
    case ReadError =>
      if s.writer.Looping? && s.mutex.Free?
      then s.(writer := Dialing, metrics := s.metrics.(stale := s.metrics.stale + 1),
              tally := s.tally.(errors := s.tally.errors + 1))
      else s
    case Begin => if s.writer.Looping? then s.(writer := At(0)) else s
    case Take =>
      if !s.writer.At? then s
      else if s.writer.k >= |c.templates| then s.(writer := Looping, iteration := s.iteration + 1)
      else
        var k, t := s.writer.k, c.templates[s.writer.k];
        if t.Place? then s.(writer := Waiting(k), ids := s.ids[t.tag := L.OrderId(c.bot, s.iteration, t.tag)])
        else s.(writer := if t.tag in s.ids then Sending(k) else At(k + 1))
    case Pass => if s.writer.Waiting? && s.inFlight <= LIMIT then s.(writer := Admitted(s.writer.k)) else s
    case Lock => if s.writer.Admitted? && s.mutex.Free? then s.(mutex := WriterHolds(false)) else s
    case Insert(now) =>
      if s.writer.Admitted? && s.mutex == WriterHolds(false) && s.writer.k < |c.templates| then
        var id := CurrentId(c, s);
        var again := if id in s.pending then 1 else 0;
        s.(pending := s.pending[id := now], mutex := WriterHolds(true),
           metrics := s.metrics.(ordersSent := s.metrics.ordersSent + 1),
           tally := s.tally.(overwritten := s.tally.overwritten + again))
      else s
    case Count =>
      if s.writer.Admitted? && s.mutex == WriterHolds(true)
      then s.(inFlight := s.inFlight + 1, mutex := Free, writer := Sending(s.writer.k))
      else s
    case Write(ok) =>
      if !s.writer.Sending? then s
      else if ok then s.(writer := At(s.writer.k + 1))
      else if s.mutex.Free?
      then s.(writer := Dialing, metrics := s.metrics.(stale := s.metrics.stale + 1),
              tally := s.tally.(torn := s.tally.torn + 1))
      else s
    case Handle(id, kind) => if s.mutex.Free? then Received(s, id, kind) else s
    case Decrement =>
      (match s.mutex
       case ReaderHolds(true) => s.(inFlight := s.inFlight - 1, mutex := ReaderHolds(false))
       case CollectorHolds(now, true) =>
         s.(inFlight := s.inFlight - 1, mutex := CollectorHolds(now, false),
            metrics := s.metrics.(stale := s.metrics.stale + 1))
       case _ => s)
    case Unlock =>
      if s.mutex == ReaderHolds(false) || (s.mutex.CollectorHolds? && !s.mutex.removed) then s.(mutex := Free) else s
    case Sweep(now) => if s.mutex.Free? then s.(mutex := CollectorHolds(now, false)) else s
    case Expire(id) =>
      if s.mutex.CollectorHolds? && !s.mutex.removed && id in s.pending && s.mutex.now - s.pending[id] > 5
      then s.(pending := s.pending - {id}, mutex := CollectorHolds(s.mutex.now, true),
              tally := s.tally.(aged := s.tally.aged + 1))
      else s
  }

  /** A message about a pending order. Acks and fills are each counted twice. */
  function Received(s: State, id: string, kind: Kind): State {
    if id !in s.pending then s.(mutex := ReaderHolds(false))
    else
      match kind
      case Ack =>
        s.(mutex := ReaderHolds(false), metrics := s.metrics.(acks := s.metrics.acks + 1 + 1),
           tally := s.tally.(ackMessages := s.tally.ackMessages + 1))
      case Fill(remaining) =>
        var s1 := s.(metrics := s.metrics.(fills := s.metrics.fills + 1 + 1),
                     tally := s.tally.(fillMessages := s.tally.fillMessages + 1));
        if remaining == 0
        then Removed(s1, id).(tally := s1.tally.(filled := s1.tally.filled + 1))
        else s1.(mutex := ReaderHolds(false))
      case Reject =>
        Removed(s, id).(metrics := s.metrics.(rejects := s.metrics.rejects + 1),
                        tally := s.tally.(rejected := s.tally.rejected + 1))
      case CancelAck => Removed(s, id).(tally := s.tally.(cancelled := s.tally.cancelled + 1))
      case Other => s.(mutex := ReaderHolds(false))
  }

  function Removed(s: State, id: string): State {
    s.(pending := s.pending - {id}, mutex := ReaderHolds(true))
  }

  /** A run: the states passed through, one atomic step of one goroutine at a time. */
  ghost predicate IsRun(c: Config, states: seq<State>, actions: seq<Action>) {
    && |states| == |actions| + 1 && states[0] == Initial
    && forall i {:trigger actions[i]} :: 0 <= i < |actions| ==> states[i + 1] == Step(c, states[i], actions[i])
  }

  // ---------- Accounting ----------

  /** How far the counter lags behind the table while the mutex is held. */
  function Owed(m: Mutex): int {
    match m
    case Free => 0
    case WriterHolds(inserted) => if inserted then 1 else 0
    case ReaderHolds(removed) => if removed then -1 else 0
    case CollectorHolds(_, removed) => if removed then -1 else 0
  }

  /** The collector has not yet reported the order it just took out. */
  function Unreported(m: Mutex): int { if m.CollectorHolds? && m.removed then 1 else 0 }

  ghost predicate Inv(c: Config, s: State) {
    && |s.pending| + s.tally.overwritten == s.inFlight + Owed(s.mutex)
    && s.metrics.ordersSent == |s.pending| + s.tally.filled + s.tally.rejected + s.tally.cancelled
                               + s.tally.aged + s.tally.overwritten
    && s.metrics.stale + Unreported(s.mutex) == s.tally.aged + s.tally.torn + s.tally.errors
    && s.metrics.acks == 2 * s.tally.ackMessages && s.metrics.fills == 2 * s.tally.fillMessages
    && s.metrics.rejects == s.tally.rejected
    && s.inFlight <= (if s.writer.Admitted? then LIMIT else LIMIT + 1) && s.tally.overwritten <= LIMIT
    && (s.mutex.WriterHolds? ==> s.writer.Admitted?)
    && (s.mutex == WriterHolds(true) ==> |s.pending| > 0)
    && (s.writer.Admitted? ==> s.writer.k < |c.templates|)
    && (s.writer.Waiting? ==> s.writer.k < |c.templates|)
  }

  lemma InsertInv(c: Config, s: State, now: int)
    requires Inv(c, s)
    ensures Inv(c, Step(c, s, Insert(now)))
  {
  }

  lemma ReceivedInv(c: Config, s: State, id: string, kind: Kind)
    requires Inv(c, s) && s.mutex.Free?
    ensures Inv(c, Received(s, id, kind))
  {
  }

  lemma CollectorInv(c: Config, s: State, a: Action)
    requires Inv(c, s) && (a.Sweep? || a.Expire? || a.Decrement? || a.Unlock?)
    ensures Inv(c, Step(c, s, a))
  {
  }

  lemma WriterInv(c: Config, s: State, a: Action)
    requires Inv(c, s) && (a.Dial? || a.ReadError? || a.Begin? || a.Take? || a.Pass? || a.Lock? || a.Count? || a.Write?)
    ensures Inv(c, Step(c, s, a))
  {
  }

  lemma StepInv(c: Config, s: State, a: Action)
    requires Inv(c, s)
    ensures Inv(c, Step(c, s, a))
  {
    match a
    case Insert(now) => InsertInv(c, s, now);
    case Handle(id, kind) => if s.mutex.Free? { ReceivedInv(c, s, id, kind); }
    case Sweep(_) => CollectorInv(c, s, a);
    case Expire(_) => CollectorInv(c, s, a);
    case Decrement => CollectorInv(c, s, a);
    case Unlock => CollectorInv(c, s, a);
    case _ => WriterInv(c, s, a);
  }

  lemma {:induction false} RunInv(c: Config, states: seq<State>, actions: seq<Action>, n: nat)
    requires IsRun(c, states, actions) && n < |states|
    ensures Inv(c, states[n])
  {
    if n > 0 {
      RunInv(c, states, actions, n - 1);
      StepInv(c, states[n - 1], actions[n - 1]);
    }
  }

  /** Under every interleaving: no more than 21 orders are in flight and never fewer than none; whenever the
      mutex is free the counter exceeds the table by exactly the ids that were sent again while pending, which
      take up room in it, but never all of it; and every order sent is pending, filled, rejected, cancelled, aged
      out or overwritten. */
  lemma Accounting(c: Config, states: seq<State>, actions: seq<Action>, n: nat)
    requires IsRun(c, states, actions) && n < |states|
    ensures var s := states[n]; var t := s.tally;
            && 0 <= s.inFlight <= 21 && t.overwritten <= 20
            && (s.mutex.Free? ==> s.inFlight == |s.pending| + t.overwritten)
            && (s.mutex.Free? ==> |s.pending| <= 21 - t.overwritten)
            && s.metrics.ordersSent == |s.pending| + t.filled + t.rejected + t.cancelled + t.aged + t.overwritten
            && (s.mutex.Free? ==> s.metrics.stale == t.aged + t.torn + t.errors)
            && s.metrics.acks == 2 * t.ackMessages && s.metrics.fills == 2 * t.fillMessages
  {
    RunInv(c, states, actions, n);
  }

  // ---------- Which orders are pending? ----------

  /** The writer enters `id` in the table. */
  predicate Inserts(c: Config, s: State, a: Action, id: string) {
    && a.Insert? && s.writer.Admitted? && s.mutex == WriterHolds(false)
    && s.writer.k < |c.templates| && CurrentId(c, s) == id
  }

  /** A complete fill, a reject or a cancel-ack for `id` is taken up, or the collector finds it more than five
      seconds old. */
  predicate Removes(s: State, a: Action, id: string) {
    || (a.Handle? && a.id == id && a.kind in {Fill(0), Reject, CancelAck} && s.mutex.Free?)
    || (&& a == Expire(id) && s.mutex.CollectorHolds? && !s.mutex.removed
        && id in s.pending && s.mutex.now - s.pending[id] > 5)
  }

  /** Among the first `n` steps, one enters `id` and none after it removes it. */
  ghost predicate Outstanding(c: Config, states: seq<State>, actions: seq<Action>, n: nat, id: string)
    requires n <= |actions| < |states|
  {
    && n > 0
    && (|| Inserts(c, states[n - 1], actions[n - 1], id)
        || (Outstanding(c, states, actions, n - 1, id) && !Removes(states[n - 1], actions[n - 1], id)))
  }

  lemma PendingNext(c: Config, s: State, a: Action, id: string)
    ensures id in Step(c, s, a).pending <==> Inserts(c, s, a, id) || (id in s.pending && !Removes(s, a, id))
  {
  }

  /** In every run an id is pending if and only if it was sent and has not been filled completely, rejected,
      cancelled or aged out since. */
  lemma {:induction false} PendingExactly(c: Config, states: seq<State>, actions: seq<Action>, n: nat, id: string)
    requires IsRun(c, states, actions) && n < |states|
    ensures id in states[n].pending <==> Outstanding(c, states, actions, n, id)
  {
    if n > 0 {
      PendingExactly(c, states, actions, n - 1, id);
      PendingNext(c, states[n - 1], actions[n - 1], id);
    }
  }

  // ---------- When does the counter leave the table behind? ----------

  /** The step sends an id that is pending. */
  predicate Resends(c: Config, s: State, a: Action) {
    exists id :: id in s.pending && Inserts(c, s, a, id)
  }

  /** How many of the first `n` steps did. */
  ghost function Resent(c: Config, states: seq<State>, actions: seq<Action>, n: nat): nat
    requires n <= |actions| < |states|
  {
    if n == 0 then 0
    else Resent(c, states, actions, n - 1) + if Resends(c, states[n - 1], actions[n - 1]) then 1 else 0
  }

  lemma OverwrittenNext(c: Config, s: State, a: Action)
    ensures Step(c, s, a).tally.overwritten == s.tally.overwritten + if Resends(c, s, a) then 1 else 0
  {
    assert forall id :: Inserts(c, s, a, id) ==> Inserts(c, s, a, CurrentId(c, s));
  }

  lemma {:induction false} OverwrittenIsResent(c: Config, states: seq<State>, actions: seq<Action>, n: nat)
    requires IsRun(c, states, actions) && n < |states|
    ensures states[n].tally.overwritten == Resent(c, states, actions, n)
  {
    if n > 0 {
      OverwrittenIsResent(c, states, actions, n - 1);
      OverwrittenNext(c, states[n - 1], actions[n - 1]);
    }
  }

  /** Whenever the mutex is free, the counter is ahead of the table by the number of steps so far that sent an id
      while it was pending; so it agrees with the table if and only if there was none. */
  lemma CounterExactly(c: Config, states: seq<State>, actions: seq<Action>, n: nat)
    requires IsRun(c, states, actions) && n < |states| && states[n].mutex.Free?
    ensures states[n].inFlight == |states[n].pending| + Resent(c, states, actions, n)
    ensures states[n].inFlight == |states[n].pending| <==> Resent(c, states, actions, n) == 0
  {
    RunInv(c, states, actions, n);
    OverwrittenIsResent(c, states, actions, n);
  }

  lemma {:induction false} ResentGrows(c: Config, states: seq<State>, actions: seq<Action>, m: nat, n: nat)
    requires m <= n <= |actions| < |states|
    ensures Resent(c, states, actions, m) <= Resent(c, states, actions, n)
  {
    if m < n {
      ResentGrows(c, states, actions, m, n - 1);
    }
  }

  /** What the counter is ahead by is never made good: from then on there is that much less room for orders. */
  lemma LeakIsForGood(c: Config, states: seq<State>, actions: seq<Action>, m: nat, n: nat)
    requires IsRun(c, states, actions) && m <= n < |states|
    ensures states[m].tally.overwritten <= states[n].tally.overwritten <= 20
    ensures states[n].mutex.Free? ==>
              && |states[n].pending| + states[m].tally.overwritten <= states[n].inFlight
              && |states[n].pending| <= 21 - states[m].tally.overwritten
  {
    OverwrittenIsResent(c, states, actions, m);
    OverwrittenIsResent(c, states, actions, n);
    ResentGrows(c, states, actions, m, n);
    RunInv(c, states, actions, n);
  }

  // ---------- Which order does a cancel name? ----------

  /** How many templates of the current iteration have been given their ids. */
  function Tagged(s: State): nat {
    match s.writer
    case At(k) => k
    case Waiting(k) => k + 1
    case Admitted(k) => k + 1
    case Sending(k) => k + 1
    case _ => 0
  }

  ghost predicate TagsCurrent(c: Config, s: State) {
    forall j :: 0 <= j < Tagged(s) && j < |c.templates| && c.templates[j].Place? ==>
      var tag := c.templates[j].tag; tag in s.ids && s.ids[tag] == L.OrderId(c.bot, s.iteration, tag)
  }

  lemma StepTags(c: Config, s: State, a: Action)
    requires TagsCurrent(c, s)
    ensures TagsCurrent(c, Step(c, s, a))
  {
  }

  lemma {:induction false} RunTags(c: Config, states: seq<State>, actions: seq<Action>, n: nat)
    requires IsRun(c, states, actions) && n < |states|
    ensures TagsCurrent(c, states[n])
  {
    if n > 0 {
      RunTags(c, states, actions, n - 1);
      StepTags(c, states[n - 1], actions[n - 1]);
    }
  }

  /** A cancel about to be written names the order that the same iteration placed under its tag. */
  lemma CancelNamesOwnOrder(c: Config, states: seq<State>, actions: seq<Action>, n: nat, j: nat)
    requires IsRun(c, states, actions) && n < |states| && states[n].writer.Sending?
    requires var k := states[n].writer.k;
             && j < k < |c.templates| && c.templates[k].Withdraw?
             && c.templates[j].Place? && c.templates[j].tag == c.templates[k].tag
    ensures var s := states[n]; var tag := c.templates[s.writer.k].tag;
            tag in s.ids && s.ids[tag] == L.OrderId(c.bot, s.iteration, tag)
  {
    RunTags(c, states, actions, n);
    assert c.templates[j].Place?;
  }

  // ---------- When is an id sent again? ----------

  ghost predicate DistinctTags(c: Config) {
    forall i, j :: 0 <= i < j < |c.templates| && c.templates[i].Place? && c.templates[j].Place? ==>
      c.templates[i].tag != c.templates[j].tag
  }

  /** The load sequences never use a tag twice. */
  lemma SequencesHaveDistinctTags(bot: nat, which: nat)
    requires which < 3
    ensures DistinctTags(Config(bot, L.Sequences(bot)[which]))
  {
  }

  /** How many templates of the current iteration have been sent. */
  function Done(s: State): nat {
    match s.writer
    case Dialing => 0
    case Looping => 0
    case At(k) => k
    case Waiting(k) => k
    case Admitted(k) => if s.mutex == WriterHolds(true) then k + 1 else k
    case Sending(k) => k + 1
  }

  /** The id belongs to an order template of an earlier iteration or earlier in this one. */
  ghost predicate SentBefore(c: Config, s: State, id: string) {
    exists i: nat, k: nat ::
      && k < |c.templates| && c.templates[k].Place? && id == L.OrderId(c.bot, i, c.templates[k].tag)
      && (i < s.iteration || (i == s.iteration && k < Done(s)))
  }

  ghost predicate Fresh(c: Config, s: State) {
    && (s.tally.torn == 0 ==> s.tally.overwritten == 0 && forall id :: id in s.pending ==> SentBefore(c, s, id))
    && (s.writer.Waiting? || s.writer.Admitted? ==> s.writer.k < |c.templates| && c.templates[s.writer.k].Place?)
    && (s.mutex.WriterHolds? ==> s.writer.Admitted?)
  }

  lemma CurrentIsFresh(c: Config, s: State)
    requires DistinctTags(c) && Fresh(c, s) && s.tally.torn == 0 && s.writer.Admitted? && s.mutex == WriterHolds(false)
    ensures CurrentId(c, s) !in s.pending
  {
    var id, k := CurrentId(c, s), s.writer.k;
    if SentBefore(c, s, id) {
      var i: nat, j: nat :| j < |c.templates| && c.templates[j].Place? && id == L.OrderId(c.bot, i, c.templates[j].tag)
                            && (i < s.iteration || (i == s.iteration && j < Done(s)));
      L.OrderIdInjective(c.bot, s.iteration, c.templates[k].tag, c.bot, i, c.templates[j].tag);
    }
  }

  lemma StillSentBefore(c: Config, s: State, s': State, id: string)
    requires SentBefore(c, s, id)
    requires s.iteration < s'.iteration || (s.iteration == s'.iteration && Done(s) <= Done(s'))
    ensures SentBefore(c, s', id)
  {
  }

  /** Unless a write fails, the writer only moves forward, and only `Insert` adds to the table. */
  lemma Advances(c: Config, s: State, a: Action)
    requires s.mutex.WriterHolds? ==> s.writer.Admitted?
    requires s.writer.Waiting? || s.writer.Admitted? ==> s.writer.k < |c.templates| && c.templates[s.writer.k].Place?
    ensures var s' := Step(c, s, a);
            && (s'.tally.torn == s.tally.torn ==>
                  s.iteration < s'.iteration || (s.iteration == s'.iteration && Done(s) <= Done(s')))
            && s.tally.torn <= s'.tally.torn
            && (s'.writer.Waiting? || s'.writer.Admitted? ==>
                  s'.writer.k < |c.templates| && c.templates[s'.writer.k].Place?)
            && (s'.mutex.WriterHolds? ==> s'.writer.Admitted?)
  {
  }

  lemma Shrinks(c: Config, s: State, a: Action)
    ensures var s' := Step(c, s, a);
            if a.Insert? && s.writer.Admitted? && s.mutex == WriterHolds(false) && s.writer.k < |c.templates|
            then && s'.pending.Keys == s.pending.Keys + {CurrentId(c, s)}
                 && Done(s') == s.writer.k + 1 && s'.iteration == s.iteration
            else s'.pending.Keys <= s.pending.Keys && s'.tally.overwritten == s.tally.overwritten
  {
  }

  lemma StepFresh(c: Config, s: State, a: Action)
    requires DistinctTags(c) && Fresh(c, s)
    ensures Fresh(c, Step(c, s, a))
  {
    var s' := Step(c, s, a);
    Advances(c, s, a);
    Shrinks(c, s, a);
    if s'.tally.torn == 0 {
      forall id | id in s.pending ensures SentBefore(c, s', id) {
        StillSentBefore(c, s, s', id);
      }
      if a.Insert? && s.writer.Admitted? && s.mutex == WriterHolds(false) {
        InsertFresh(c, s, a.now);
      }
    }
  }

  lemma InsertFresh(c: Config, s: State, now: int)
    requires DistinctTags(c) && Fresh(c, s) && s.tally.torn == 0 && s.writer.Admitted? && s.mutex == WriterHolds(false)
    ensures var s' := Step(c, s, Insert(now));
            s'.tally.overwritten == 0 && SentBefore(c, s', CurrentId(c, s))
  {
    CurrentIsFresh(c, s);
    var s' := Step(c, s, Insert(now));
    assert Done(s') == s.writer.k + 1 && s'.iteration == s.iteration;
  }

  lemma {:induction false} RunFresh(c: Config, states: seq<State>, actions: seq<Action>, n: nat)
    requires DistinctTags(c) && IsRun(c, states, actions) && n < |states|
    ensures Fresh(c, states[n])
  {
    if n > 0 {
      RunFresh(c, states, actions, n - 1);
      StepFresh(c, states[n - 1], actions[n - 1]);
    }
  }

  /** A write fails, and the connection is given up. */
  predicate Tears(s: State, a: Action) {
    a == Write(false) && s.writer.Sending? && s.mutex.Free?
  }

  /** One of the first `n` steps did. */
  ghost predicate Torn(states: seq<State>, actions: seq<Action>, n: nat)
    requires n <= |actions| < |states|
  {
    n > 0 && (Torn(states, actions, n - 1) || Tears(states[n - 1], actions[n - 1]))
  }

  lemma TornNext(c: Config, s: State, a: Action)
    ensures Step(c, s, a).tally.torn == s.tally.torn + if Tears(s, a) then 1 else 0
  {
  }

  lemma {:induction false} TornIsHistory(c: Config, states: seq<State>, actions: seq<Action>, n: nat)
    requires IsRun(c, states, actions) && n < |states|
    ensures states[n].tally.torn > 0 <==> Torn(states, actions, n)
  {
    if n > 0 {
      TornIsHistory(c, states, actions, n - 1);
      TornNext(c, states[n - 1], actions[n - 1]);
    }
  }

  /** As long as no write has failed, no id is ever sent again while pending, and the counter is exactly
      the number of pending orders whenever the mutex is free. Read errors and reconnects do no harm. */
  lemma ExactUntilTorn(c: Config, states: seq<State>, actions: seq<Action>, n: nat)
    requires DistinctTags(c) && IsRun(c, states, actions) && n < |states| && !Torn(states, actions, n)
    ensures Resent(c, states, actions, n) == 0
    ensures states[n].mutex.Free? ==> states[n].inFlight == |states[n].pending|
  {
    TornIsHistory(c, states, actions, n);
    OverwrittenIsResent(c, states, actions, n);
    RunFresh(c, states, actions, n);
    RunInv(c, states, actions, n);
  }

  // ---------- Runs that reach the limits ----------

  type Run = Trace<State, Action>

  ghost predicate Runs(c: Config, r: Run) { IsRun(c, r.states, r.actions) }

  const Start: Run := Trace([Initial], [])

  lemma Go(c: Config, r: Run, a: Action) returns (r': Run)
    requires Runs(c, r)
    ensures Runs(c, r') && r'.Extends(r) && r'.Last() == Step(c, r.Last(), a)
  {
    r' := Trace(r.states + [Step(c, r.Last(), a)], r.actions + [a]);
  }

  /** How far the writer is from being let through with template `p`. */
  function Distance(c: Config, w: Writer, p: nat): nat {
    match w
    case Admitted(_) => 0
    case Waiting(_) => 1
    case Looping => 2 * p + 3
    case Dialing => 2 * p + 4
    case At(k) => Ahead(c, k, p)
    case Sending(k) => Ahead(c, k + 1, p) + 1
  }

  function Ahead(c: Config, k: nat, p: nat): nat {
    if k <= p then 2 * (p - k) + 2 else 2 * (if k < |c.templates| then |c.templates| - k else 0) + 2 * p + 4
  }

  /** What the writer does next when nothing holds it up. */
  function NextMove(w: Writer): Action {
    match w
    case Dialing => Dial
    case Looping => Begin
    case At(_) => Take
    case Waiting(_) => Pass
    case Sending(_) => Write(true)
    case Admitted(_) => Lock
  }

  lemma Closer(c: Config, s: State, p: nat)
    requires p < |c.templates| && c.templates[p].Place? && Inv(c, s)
    requires s.mutex.Free? && s.inFlight <= LIMIT && !s.writer.Admitted?
    ensures var s' := Step(c, s, NextMove(s.writer));
            && Distance(c, s'.writer, p) < Distance(c, s.writer, p)
            && s'.mutex.Free? && s'.inFlight == s.inFlight && s'.metrics.ordersSent == s.metrics.ordersSent
  {
  }

  lemma {:induction false} Admit(c: Config, r: Run, p: nat) returns (r': Run)
    requires Runs(c, r) && p < |c.templates| && c.templates[p].Place?
    requires r.Last().mutex.Free? && r.Last().inFlight <= LIMIT
    ensures Runs(c, r') && r'.Extends(r) && r'.Last().writer.Admitted? && r'.Last().mutex.Free?
    ensures r'.Last().inFlight == r.Last().inFlight && r'.Last().metrics.ordersSent == r.Last().metrics.ordersSent
    decreases Distance(c, r.Last().writer, p)
  {
    if r.Last().writer.Admitted? {
      r' := r;
    } else {
      RunInv(c, r.states, r.actions, |r.actions|);
      Closer(c, r.Last(), p);
      r' := Go(c, r, NextMove(r.Last().writer));
      r' := Admit(c, r', p);
    }
  }

  /** As long as the counter lets it, the writer sends one more order. */
  lemma SendOne(c: Config, r: Run, p: nat) returns (r': Run)
    requires Runs(c, r) && p < |c.templates| && c.templates[p].Place?
    requires r.Last().mutex.Free? && r.Last().inFlight <= LIMIT
    ensures Runs(c, r') && r'.Extends(r) && r'.Last().mutex.Free?
    ensures r'.Last().inFlight == r.Last().inFlight + 1
    ensures r'.Last().metrics.ordersSent == r.Last().metrics.ordersSent + 1
  {
    r' := Admit(c, r, p);
    RunInv(c, r'.states, r'.actions, |r'.actions|);
    r' := Go(c, r', Lock);
    r' := Go(c, r', Insert(0));
    r' := Go(c, r', Count);
  }

  /** The bound of 21 is met by every bot that sends orders at all: the check is made before the order is counted. */
  lemma {:induction false} LimitIsMet(c: Config, p: nat, n: nat) returns (r: Run)
    requires p < |c.templates| && c.templates[p].Place? && n <= 21
    ensures Runs(c, r) && r.Last().mutex.Free? && r.Last().inFlight == n
  {
    if n == 0 {
      r := Start;
    } else {
      r := LimitIsMet(c, p, n - 1);
      r := SendOne(c, r, p);
    }
  }

  /** A bot without an order template. */
  ghost predicate Idle(c: Config, s: State) {
    && s.inFlight == 0 && s.pending == map[] && (s.mutex.Free? || s.mutex == ReaderHolds(false) || s.mutex.CollectorHolds?)
    && (s.mutex.CollectorHolds? ==> !s.mutex.removed) && !s.writer.Waiting? && !s.writer.Admitted?
  }

  lemma StepIdle(c: Config, s: State, a: Action)
    requires Idle(c, s) && forall p :: 0 <= p < |c.templates| ==> !c.templates[p].Place?
    ensures Idle(c, Step(c, s, a))
  {
  }

  lemma {:induction false} RunIdle(c: Config, states: seq<State>, actions: seq<Action>, n: nat)
    requires IsRun(c, states, actions) && n < |states|
    requires forall p :: 0 <= p < |c.templates| ==> !c.templates[p].Place?
    ensures Idle(c, states[n])
  {
    if n > 0 {
      RunIdle(c, states, actions, n - 1);
      StepIdle(c, states[n - 1], actions[n - 1]);
    }
  }

  /** So the counts that some run of a bot reaches are exactly those up to 21, if it sends orders, and none but 0
      if it does not. */
  lemma LimitExactly(c: Config, n: int)
    ensures (exists r: Run :: Runs(c, r) && r.Last().mutex.Free? && r.Last().inFlight == n) <==>
            n == 0 || (0 < n <= 21 && exists p :: 0 <= p < |c.templates| && c.templates[p].Place?)
  {
    forall r: Run | Runs(c, r)
      ensures 0 <= r.Last().inFlight <= 21
      ensures r.Last().inFlight == 0 || exists p :: 0 <= p < |c.templates| && c.templates[p].Place?
    {
      Accounting(c, r.states, r.actions, |r.actions|);
      if forall p :: 0 <= p < |c.templates| ==> !c.templates[p].Place? {
        RunIdle(c, r.states, r.actions, |r.actions|);
      }
    }
    if n == 0 {
      assert Runs(c, Start) && Start.Last() == Initial;
    } else if 0 < n <= 21 && exists p :: 0 <= p < |c.templates| && c.templates[p].Place? {
      var p :| 0 <= p < |c.templates| && c.templates[p].Place?;
      var r := LimitIsMet(c, p, n);
    }
  }

  /** Whoever holds the mutex lets go of it. */
  lemma Release(c: Config, r: Run) returns (r': Run)
    requires Runs(c, r)
    ensures Runs(c, r') && r'.Extends(r) && r'.Last().mutex.Free?
    ensures r.Last().metrics.ordersSent <= r'.Last().metrics.ordersSent
  {
    RunInv(c, r.states, r.actions, |r.actions|);
    match r.Last().mutex
    case Free => r' := r;
    case WriterHolds(_) =>
      r' := Go(c, r, Insert(0));
      r' := Go(c, r', Count);
    case _ =>
      r' := Go(c, r, Decrement);
      r' := Go(c, r', Unlock);
  }

  lemma Later(m: map<string, int>) returns (now: int)
    ensures forall id :: id in m ==> now - m[id] > 5
  {
    now := 0;
    var ids := m.Keys;
    while ids != {}
      invariant forall id :: id in m && id !in ids ==> now - m[id] > 5
    {
      var id :| id in ids;
      ids := ids - {id};
      now := if now - m[id] > 5 then now else m[id] + 6;
    }
  }

  /** The collector takes out everything that is old enough. */
  lemma {:induction false} Collect(c: Config, r: Run) returns (r': Run)
    requires Runs(c, r) && r.Last().mutex.CollectorHolds? && !r.Last().mutex.removed
    requires forall id :: id in r.Last().pending ==> r.Last().mutex.now - r.Last().pending[id] > 5
    ensures Runs(c, r') && r'.Extends(r) && r'.Last().mutex.Free? && r'.Last().pending == map[]
    ensures r'.Last().metrics.ordersSent == r.Last().metrics.ordersSent
    decreases r.Last().pending.Keys
  {
    var s := r.Last();
    if s.pending == map[] {
      r' := Go(c, r, Unlock);
    } else {
      var id :| id in s.pending;
      r' := Go(c, r, Expire(id));
      r' := Go(c, r', Decrement);
      r' := Collect(c, r');
    }
  }

  /** However far the counter has run ahead, the bot never comes to a halt: every run goes on to send one more
      order, if only once the collector has emptied the table. */
  lemma NeverStalls(c: Config, r: Run, p: nat) returns (r': Run)
    requires Runs(c, r) && p < |c.templates| && c.templates[p].Place?
    ensures Runs(c, r') && r'.Extends(r) && r'.Last().metrics.ordersSent > r.Last().metrics.ordersSent
  {
    r' := Release(c, r);
    var now := Later(r'.Last().pending);
    r' := Go(c, r', Sweep(now));
    r' := Collect(c, r');
    RunInv(c, r'.states, r'.actions, |r'.actions|);
    r' := SendOne(c, r', p);
  }

  /** A failed write of the first order: the iteration does not advance. */
  lemma SendTorn(c: Config, r: Run) returns (r': Run)
    requires Runs(c, r) && c.templates != [] && c.templates[0].Place?
    requires r.Last().writer.Dialing? && r.Last().mutex.Free? && r.Last().inFlight <= LIMIT
    ensures Runs(c, r') && r'.Extends(r) && r'.Last().writer.Dialing? && r'.Last().mutex.Free?
    ensures var s, s' := r.Last(), r'.Last();
            var id := L.OrderId(c.bot, s.iteration, c.templates[0].tag);
            && s'.inFlight == s.inFlight + 1 && s'.iteration == s.iteration && s'.pending == s.pending[id := 0]
            && s'.tally.overwritten == s.tally.overwritten + if id in s.pending then 1 else 0
  {
    r' := Go(c, r, Dial);
    r' := Go(c, r', Begin);
    r' := Go(c, r', Take);
    r' := Go(c, r', Pass);
    r' := Go(c, r', Lock);
    r' := Go(c, r', Insert(0));
    r' := Go(c, r', Count);
    r' := Go(c, r', Write(false));
  }

  /** After a failed write the reconnected bot starts the iteration over: the same id is sent again while it
      is pending, and the counter runs ahead of the table. */
  lemma {:induction false} TornWritesLeak(c: Config, n: nat) returns (r: Run)
    requires c.templates != [] && c.templates[0].Place? && n <= 20
    ensures Runs(c, r) && r.Last().writer.Dialing? && r.Last().mutex.Free? && r.Last().iteration == 0
    ensures r.Last().pending == map[L.OrderId(c.bot, 0, c.templates[0].tag) := 0]
    ensures r.Last().tally.overwritten == n && r.Last().inFlight == n + 1
  {
    if n == 0 {
      r := SendTorn(c, Start);
    } else {
      r := TornWritesLeak(c, n - 1);
      r := SendTorn(c, r);
    }
  }

  /** Every load sequence the bots run can have any number of ids up to 20 sent again while pending, so that the
      counter stands at 21 with a single order in the table. */
  lemma LeakIsMet(bot: nat, which: nat, n: nat) returns (r: Run)
    requires which < 3 && n <= 20
    ensures var c := Config(bot, L.Sequences(bot)[which]);
            && Runs(c, r) && r.Last().mutex.Free? && r.Last().tally.overwritten == n
            && r.Last().inFlight == n + 1 && |r.Last().pending| == 1
  {
    var c := Config(bot, L.Sequences(bot)[which]);
    assert c.templates[0].Place?;
    r := TornWritesLeak(c, n);
  }
}
