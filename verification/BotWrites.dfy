/** What a bot does, told from the steps of the run: what it writes in each iteration, since when an order is pending,
    and what it counts. */
module BotWrites {
  import opened Options
  import opened BotRunner
  import L = LoadSequences

  // ---------- Each iteration, in order ----------

  /** The id that the message about to be written names. */
  function Names(c: Config, s: State): string
    requires s.writer.Sending? && s.writer.k < |c.templates|
  {
    match c.templates[s.writer.k]
    case Place(tag, _, _, _, _) => L.OrderId(c.bot, s.iteration, tag)
    case Withdraw(tag) => if tag in s.ids then s.ids[tag] else ""
  }

  predicate Begins(s: State, a: Action) { a.Begin? && s.writer.Looping? }

  predicate Sends(c: Config, s: State, a: Action) {
    a == Write(true) && s.writer.Sending? && s.writer.k < |c.templates|
  }

  /** What was written since the iteration was last begun. */
  ghost function Round(c: Config, states: seq<State>, actions: seq<Action>, n: nat): seq<string>
    requires n <= |actions| < |states|
  {
    if n == 0 || Begins(states[n - 1], actions[n - 1]) then []
    else
      Round(c, states, actions, n - 1)
        + if Sends(c, states[n - 1], actions[n - 1]) then [Names(c, states[n - 1])] else []
  }

  /** The ids that the first `k` templates name in iteration `i`. */
  function Expected(c: Config, i: nat, k: nat): seq<string>
    requires k <= |c.templates|
  {
    seq(k, j requires 0 <= j < k => L.OrderId(c.bot, i, c.templates[j].tag))
  }

  /** Every cancel comes after an order of its tag. */
  ghost predicate OrdersFirst(c: Config) {
    forall k :: 0 <= k < |c.templates| && c.templates[k].Withdraw? ==> Placed(c, k)
  }

  ghost predicate Placed(c: Config, k: nat)
    requires k < |c.templates|
  {
    exists j :: 0 <= j < k && c.templates[j].Place? && c.templates[j].tag == c.templates[k].tag
  }

  lemma SequencesPlaceFirst(bot: nat, which: nat)
    requires which < 3
    ensures OrdersFirst(Config(bot, L.Sequences(bot)[which]))
  {
    var c := Config(bot, L.Sequences(bot)[which]);
    if which == 2 {
      assert c.templates[0].Place? && c.templates[0].tag == c.templates[1].tag;
      assert c.templates[2].Place? && c.templates[2].tag == c.templates[3].tag;
    }
  }

  /** Where the writer is in the iteration. */
  function Position(w: Writer): Option<nat> {
    match w
    case At(k) => Some(k)
    case Waiting(k) => Some(k)
    case Admitted(k) => Some(k)
    case Sending(k) => Some(k)
    case _ => None
  }

  ghost predicate RoundOk(c: Config, s: State, round: seq<string>) {
    Position(s.writer).Some? ==>
      var k := Position(s.writer).value;
      && k <= |c.templates| && (!s.writer.At? ==> k < |c.templates|) && round == Expected(c, s.iteration, k)
  }

  /** What is about to be written names the id of this iteration. */
  lemma NamesThis(c: Config, s: State)
    requires OrdersFirst(c) && TagsCurrent(c, s) && s.writer.Sending? && s.writer.k < |c.templates|
    ensures Names(c, s) == L.OrderId(c.bot, s.iteration, c.templates[s.writer.k].tag)
  {
    var k := s.writer.k;
    if c.templates[k].Withdraw? {
      assert Placed(c, k);
      var j :| 0 <= j < k && c.templates[j].Place? && c.templates[j].tag == c.templates[k].tag;
      assert j < Tagged(s);
    }
  }

  /** A template is not passed over. */
  lemma TakesUp(c: Config, s: State)
    requires OrdersFirst(c) && TagsCurrent(c, s) && s.writer.At? && s.writer.k < |c.templates|
    ensures var w := Step(c, s, Take).writer; w == Waiting(s.writer.k) || w == Sending(s.writer.k)
  {
    var k := s.writer.k;
    if c.templates[k].Withdraw? {
      assert Placed(c, k);
      var j :| 0 <= j < k && c.templates[j].Place? && c.templates[j].tag == c.templates[k].tag;
      assert j < Tagged(s);
    }
  }

  lemma ExpectedMore(c: Config, i: nat, k: nat)
    requires k < |c.templates|
    ensures Expected(c, i, k + 1) == Expected(c, i, k) + [L.OrderId(c.bot, i, c.templates[k].tag)]
  {
  }

  /** How a step moves the writer, other than by beginning an iteration, taking a template up or writing. */
  lemma OtherMoves(c: Config, s: State, a: Action)
    requires !Begins(s, a) && !a.Take? && !a.Write?
    ensures var s' := Step(c, s, a);
            || Position(s'.writer) == None
            || (s'.iteration == s.iteration
                && (s'.writer == s.writer
                    || (Position(s'.writer) == Position(s.writer) && !s'.writer.At? && !s.writer.At?)))
  {
  }

  lemma RoundNext(c: Config, s: State, a: Action, round: seq<string>)
    requires OrdersFirst(c) && TagsCurrent(c, s) && RoundOk(c, s, round)
    ensures RoundOk(c, Step(c, s, a),
                    if Begins(s, a) then [] else round + if Sends(c, s, a) then [Names(c, s)] else [])
  {
    if Begins(s, a) {
      assert Expected(c, s.iteration, 0) == [];
    } else if a.Take? && s.writer.At? && s.writer.k < |c.templates| {
      TakesUp(c, s);
      assert Step(c, s, a).iteration == s.iteration;
    } else if Sends(c, s, a) {
      NamesThis(c, s);
      ExpectedMore(c, s.iteration, s.writer.k);
    } else if !a.Take? && !a.Write? {
      OtherMoves(c, s, a);
    }
  }

  lemma {:induction false} RunRounds(c: Config, states: seq<State>, actions: seq<Action>, n: nat)
    requires OrdersFirst(c) && IsRun(c, states, actions) && n < |states|
    ensures RoundOk(c, states[n], Round(c, states, actions, n))
  {
    if n > 0 {
      RunRounds(c, states, actions, n - 1);
      RunTags(c, states, actions, n - 1);
      RoundNext(c, states[n - 1], actions[n - 1], Round(c, states, actions, n - 1));
    }
  }

  /** The iteration is finished. */
  predicate Finishes(c: Config, s: State, a: Action) { a.Take? && s.writer.At? && s.writer.k >= |c.templates| }

  ghost function Iterations(c: Config, states: seq<State>, actions: seq<Action>, n: nat): nat
    requires n <= |actions| < |states|
  {
    if n == 0 then 0
    else Iterations(c, states, actions, n - 1) + if Finishes(c, states[n - 1], actions[n - 1]) then 1 else 0
  }

  lemma IterationNext(c: Config, s: State, a: Action)
    ensures Step(c, s, a).iteration == s.iteration + if Finishes(c, s, a) then 1 else 0
  {
  }

  lemma {:induction false} IterationIsCount(c: Config, states: seq<State>, actions: seq<Action>, n: nat)
    requires IsRun(c, states, actions) && n < |states|
    ensures states[n].iteration == Iterations(c, states, actions, n)
  {
    if n > 0 {
      IterationIsCount(c, states, actions, n - 1);
      IterationNext(c, states[n - 1], actions[n - 1]);
    }
  }

  /** In every run, when the writer is at template `k` it has written, since it last began, one message for each of
      the templates before, orders and cancels alike, in their order, each naming the id of this iteration; and an
      iteration that finishes has written them all. */
  lemma WritesInOrder(c: Config, states: seq<State>, actions: seq<Action>, n: nat)
    requires OrdersFirst(c) && IsRun(c, states, actions) && n < |actions|
    ensures var s, i := states[n], Iterations(c, states, actions, n);
            && (Position(s.writer).Some? ==>
                  && Position(s.writer).value <= |c.templates|
                  && Round(c, states, actions, n) == Expected(c, i, Position(s.writer).value))
            && (Finishes(c, s, actions[n]) ==> Round(c, states, actions, n) == Expected(c, i, |c.templates|))
  {
    RunRounds(c, states, actions, n);
    IterationIsCount(c, states, actions, n);
  }

  // ---------- Since when an order is pending ----------

  /** When the order that is pending under `id` was sent. */
  ghost function SentAt(c: Config, states: seq<State>, actions: seq<Action>, n: nat, id: string): Option<int>
    requires n <= |actions| < |states|
  {
    if n == 0 then None
    else if Inserts(c, states[n - 1], actions[n - 1], id) then Some(actions[n - 1].now)
    else if Removes(states[n - 1], actions[n - 1], id) then None
    else SentAt(c, states, actions, n - 1, id)
  }

  function SinceWhen(s: State, id: string): Option<int> { if id in s.pending then Some(s.pending[id]) else None }

  lemma SinceNext(c: Config, s: State, a: Action, id: string)
    ensures SinceWhen(Step(c, s, a), id)
         == if Inserts(c, s, a, id) then Some(a.now) else if Removes(s, a, id) then None else SinceWhen(s, id)
  {
  }

  /** In every run an order is pending since it was last sent: that is the time from which it ages. */
  lemma {:induction false} PendingSince(c: Config, states: seq<State>, actions: seq<Action>, n: nat, id: string)
    requires IsRun(c, states, actions) && n < |states|
    ensures SinceWhen(states[n], id) == SentAt(c, states, actions, n, id)
  {
    if n > 0 {
      PendingSince(c, states, actions, n - 1, id);
      SinceNext(c, states[n - 1], actions[n - 1], id);
    }
  }

  /** When the collector that holds the mutex looked at the clock. */
  ghost function SweptAt(states: seq<State>, actions: seq<Action>, n: nat): Option<int>
    requires n <= |actions| < |states|
  {
    if n == 0 then None
    else if actions[n - 1].Sweep? && states[n - 1].mutex.Free? then Some(actions[n - 1].now)
    else SweptAt(states, actions, n - 1)
  }

  lemma SweptNext(c: Config, s: State, a: Action)
    ensures var m := Step(c, s, a).mutex;
            m.CollectorHolds? ==>
              if a.Sweep? && s.mutex.Free? then m.now == a.now else s.mutex.CollectorHolds? && m.now == s.mutex.now
  {
  }

  lemma {:induction false} SweptIsHistory(c: Config, states: seq<State>, actions: seq<Action>, n: nat)
    requires IsRun(c, states, actions) && n < |states|
    ensures states[n].mutex.CollectorHolds? ==> SweptAt(states, actions, n) == Some(states[n].mutex.now)
  {
    if n > 0 {
      SweptIsHistory(c, states, actions, n - 1);
      SweptNext(c, states[n - 1], actions[n - 1]);
    }
  }

  /** In every run the collector takes an order out if and only if it was sent more than five seconds before the
      collector looked at the clock. */
  lemma ExpiresExactly(c: Config, states: seq<State>, actions: seq<Action>, n: nat, id: string)
    requires IsRun(c, states, actions) && n < |actions| && actions[n] == Expire(id) && id in states[n].pending
    requires states[n].mutex.CollectorHolds? && !states[n].mutex.removed
    ensures var swept, sent := SweptAt(states, actions, n), SentAt(c, states, actions, n, id);
            && swept.Some? && sent.Some?
            && (id !in states[n + 1].pending <==> swept.value - sent.value > 5)
  {
    SweptIsHistory(c, states, actions, n);
    PendingSince(c, states, actions, n, id);
    SinceNext(c, states[n], actions[n], id);
  }

  // ---------- What is counted ----------

  datatype Counter = Orders | Acks | Fills | Rejects | Stale

  /** The step is one that the counter is for. */
  ghost predicate Counts(c: Config, s: State, a: Action, what: Counter) {
    match what
    case Orders => exists id :: Inserts(c, s, a, id)
    case Acks => a.Handle? && a.kind.Ack? && s.mutex.Free? && a.id in s.pending
    case Fills => a.Handle? && a.kind.Fill? && s.mutex.Free? && a.id in s.pending
    case Rejects => a.Handle? && a.kind.Reject? && s.mutex.Free? && a.id in s.pending
    case Stale =>
      || (a.ReadError? && s.writer.Looping? && s.mutex.Free?) || Tears(s, a)
      || (a.Decrement? && s.mutex.CollectorHolds? && s.mutex.removed)
  }

  ghost function Counted(c: Config, states: seq<State>, actions: seq<Action>, n: nat, what: Counter): nat
    requires n <= |actions| < |states|
  {
    if n == 0 then 0
    else Counted(c, states, actions, n - 1, what) + if Counts(c, states[n - 1], actions[n - 1], what) then 1 else 0
  }

  function Shown(m: Metrics, what: Counter): nat {
    match what
    case Orders => m.ordersSent
    case Acks => m.acks
    case Fills => m.fills
    case Rejects => m.rejects
    case Stale => m.stale
  }

  function Weight(what: Counter): nat { if what.Acks? || what.Fills? then 2 else 1 }

  lemma OrdersNext(c: Config, s: State, a: Action)
    ensures Step(c, s, a).metrics.ordersSent == s.metrics.ordersSent + if Counts(c, s, a, Orders) then 1 else 0
  {
    if a.Insert? && s.writer.Admitted? && s.mutex == WriterHolds(false) && s.writer.k < |c.templates| {
      assert Inserts(c, s, a, CurrentId(c, s));
    }
  }

  lemma ShownNext(c: Config, s: State, a: Action, what: Counter)
    ensures Shown(Step(c, s, a).metrics, what)
         == Shown(s.metrics, what) + if Counts(c, s, a, what) then Weight(what) else 0
  {
    OrdersNext(c, s, a);
  }

  /** In every run the counters the bot reports are the numbers of steps they are for, acks and fills twice over. */
  lemma {:induction false} CountsExactly(c: Config, states: seq<State>, actions: seq<Action>, n: nat, what: Counter)
    requires IsRun(c, states, actions) && n < |states|
    ensures Shown(states[n].metrics, what) == Weight(what) * Counted(c, states, actions, n, what)
  {
    if n > 0 {
      CountsExactly(c, states, actions, n - 1, what);
      ShownNext(c, states[n - 1], actions[n - 1], what);
    }
  }
}
