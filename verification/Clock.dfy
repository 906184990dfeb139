/** The engine's clock: a shared timestamp that many goroutines advance by compare-and-swap. */
module Clocks {

  /** One whole call of `now`, as if nothing ran beside it. */
  function Tick(last: int, reading: int): int {
    if reading <= last then last + 1 else reading
  }

  class Clock {
    var last: int

    constructor ()
      ensures last == 0
    {
      last := 0;
    }

    /** The result is later than every earlier one and not before the caller's own reading. Other goroutines may
        push the shared value up in the meantime. */
    method Now(reading: int) returns (ts: int)
      modifies this
      ensures old(last) < ts == last && reading <= ts
    {
      var others: int := *;
      last := if others > last then others else last;
      ts := Tick(last, reading);
      last := ts;
    }
  }

  // ---------- Calls of `now` that interleave ----------

  /** Where a goroutine is: outside `now`, before the load, or between the load and the swap.
      `seen` counts the swaps that had succeeded when it loaded. */
  datatype Thread =
    | Idle
    | Looping(reading: int, ts: int)
    | Loaded(reading: int, ts: int, old_: int, seen: nat)

  datatype Swap = Swap(thread: nat, reading: int, value: int)

  datatype State = State(last: int, threads: map<nat, Thread>, swaps: seq<Swap>) {
    function At(t: nat): Thread { if t in threads then threads[t] else Idle }
    function Move(t: nat, p: Thread): State { this.(threads := threads[t := p]) }
  }

  datatype Action = Start(t: nat, reading: int) | Load(t: nat) | CompareAndSwap(t: nat)

  const Initial := State(0, map[], [])

  function Step(s: State, a: Action): State {
    match (a, s.At(a.t))
    case (Start(t, reading), Idle) => s.Move(t, Looping(reading, reading))
    case (Load(t), Looping(reading, ts)) =>
      s.Move(t, Loaded(reading, if ts <= s.last then s.last + 1 else ts, s.last, |s.swaps|))
    case (CompareAndSwap(t), Loaded(reading, ts, old_, _)) =>
      if s.last == old_
      then State(ts, s.threads[t := Idle], s.swaps + [Swap(t, reading, ts)])
      else s.Move(t, Looping(reading, ts))
    case _ => s
  }

  /** A run: the states passed through, one step of one goroutine at a time. */
  ghost predicate IsRun(states: seq<State>, actions: seq<Action>) {
    && |states| == |actions| + 1 && states[0] == Initial
    && forall i {:trigger actions[i]} :: 0 <= i < |actions| ==> states[i + 1] == Step(states[i], actions[i])
  }

  /** The shared value after the first `k` swaps. */
  function ValueAfter(s: State, k: nat): int
    requires k <= |s.swaps|
  {
    if k == 0 then 0 else s.swaps[k - 1].value
  }

  ghost predicate ThreadOk(s: State, t: nat, p: Thread) {
    match p
    case Idle => true
    case Looping(reading, ts) => reading <= ts && (ts == reading || ts <= s.last)
    case Loaded(reading, ts, old_, seen) =>
      && ts == Tick(old_, reading)
      && seen <= |s.swaps| && old_ == ValueAfter(s, seen)
      && (forall k :: seen <= k < |s.swaps| ==> s.swaps[k].thread != t)
  }

  ghost predicate Inv(s: State) {
    && s.last == ValueAfter(s, |s.swaps|)
    && (forall k {:trigger ValueAfter(s, k)} :: 0 <= k < |s.swaps| ==>
          s.swaps[k].value == Tick(ValueAfter(s, k), s.swaps[k].reading))
    && (forall t :: t in s.threads ==> ThreadOk(s, t, s.threads[t]))
  }

  lemma {:induction false} Climbs(s: State, i: nat, j: nat)
    requires Inv(s) && i < j <= |s.swaps|
    ensures ValueAfter(s, i) < ValueAfter(s, j)
  {
    if i < j - 1 {
      Climbs(s, i, j - 1);
    }
  }

  /** A goroutine that is not the one to move keeps what it knows. */
  lemma OthersOk(s: State, a: Action, t: nat)
    requires Inv(s) && t in s.threads && t != a.t
    ensures ThreadOk(Step(s, a), t, s.threads[t])
  {
  }

  lemma StepInv(s: State, a: Action)
    requires Inv(s)
    ensures Inv(Step(s, a))
  {
    var s' := Step(s, a);
    assert forall k :: 0 <= k <= |s.swaps| ==> ValueAfter(s', k) == ValueAfter(s, k);
    forall t | t in s'.threads && t != a.t ensures ThreadOk(s', t, s'.threads[t]) {
      OthersOk(s, a, t);
    }
    if a.t in s.threads {
      assert ThreadOk(s, a.t, s.threads[a.t]);
      if s.threads[a.t].Loaded? && s.threads[a.t].seen < |s.swaps| {
        Climbs(s, s.threads[a.t].seen, |s.swaps|);
      }
    }
  }

  lemma {:induction false} RunInv(states: seq<State>, actions: seq<Action>, n: nat)
    requires IsRun(states, actions) && n < |states|
    ensures Inv(states[n])
  {
    if n > 0 {
      RunInv(states, actions, n - 1);
      StepInv(states[n - 1], actions[n - 1]);
    }
  }

  function Later(a: int, b: int): int { if a < b then b else a }

  /** Every interleaving is equivalent to whole calls made one after another in the order of their
      successful swaps: each returns the later of its reading and the next value after the previous one. Hence the
      results are distinct, strictly increasing, and never below the caller's reading. */
  lemma NowIsLinearizable(states: seq<State>, actions: seq<Action>, n: nat)
    requires IsRun(states, actions) && n < |states|
    ensures var s := states[n];
            forall k {:trigger ValueAfter(s, k)} :: 0 <= k < |s.swaps| ==>
              s.swaps[k].value == Later(ValueAfter(s, k) + 1, s.swaps[k].reading)
    ensures var s := states[n];
            forall i, j :: 0 <= i < j < |s.swaps| ==> s.swaps[i].value < s.swaps[j].value
  {
    RunInv(states, actions, n);
    Increasing(states[n]);
    var s := states[n];
    forall k | 0 <= k < |s.swaps| ensures s.swaps[k].value == Later(ValueAfter(s, k) + 1, s.swaps[k].reading) {
    }
  }

  lemma Increasing(s: State)
    requires Inv(s)
    ensures forall i, j :: 0 <= i < j < |s.swaps| ==> s.swaps[i].value < s.swaps[j].value
  {
    forall i, j | 0 <= i < j < |s.swaps| ensures s.swaps[i].value < s.swaps[j].value {
      Climbs(s, i + 1, j + 1);
    }
  }

  /** A swap succeeds if and only if no swap has succeeded since the load; when it fails, the swaps
      made since the load are all by other goroutines. */
  lemma SwapFailsOnlyByAnother(states: seq<State>, actions: seq<Action>, n: nat, t: nat)
    requires IsRun(states, actions) && n < |states| && states[n].At(t).Loaded?
    ensures var s := states[n]; var s' := Step(s, CompareAndSwap(t)); var seen := s.At(t).seen;
            && seen <= |s.swaps|
            && (|s'.swaps| == |s.swaps| + 1 <==> seen == |s.swaps|)
            && (s'.swaps == s.swaps <==> seen < |s.swaps|)
            && (forall k :: seen <= k < |s.swaps| ==> s.swaps[k].thread != t)
  {
    RunInv(states, actions, n);
    var s := states[n];
    assert ThreadOk(s, t, s.threads[t]);
    if s.At(t).seen < |s.swaps| {
      Climbs(s, s.At(t).seen, |s.swaps|);
    }
  }
}
