/** The lifecycle told from the steps of the run alone: what each step writes to the log, how each delivery ends, and
    which submissions wait at the API. */
module LifecycleRuns {
  import opened Options
  import opened Lifecycle

  // ---------- What is written to the log ----------

  /** The records a step writes. A publish that is lost writes nothing. */
  ghost function Written(s: State, a: Action): seq<Event> {
    match a
    case Announce(id, r, p) => if (id, r) in s.confirming && !p.Lost? then [Created(id, r.lang, r.team)] else []
    case Handle(role, w) => WrittenFor(s, role, w)
    case Test(at, success, _, p) =>
      if at < |s.log| && s.log[at].SandboxReady? && !p.Lost?
      then [TestComplete(s.log[at].id, s.log[at].team, success)] else []
    case Noise => [Malformed]
    case _ => []
  }

  ghost function WrittenFor(s: State, role: Role, w: Work): seq<Event> {
    var c := s.Of(role);
    if c.done.Some? || c.next >= |s.log| then []
    else
      match (role, s.log[c.next], w)
      case (Build, Created(id, lang, team), Succeeds(p)) => if p.Lost? then [] else [BuildComplete(id, lang, team)]
      case (Build, Created(id, _, _), Fails(p, _)) => if p.Lost? then [] else [BuildFailed(id)]
      case (Sandbox, BuildComplete(id, _, team), Succeeds(p)) =>
        if p.Lost? || id in s.pods then [] else [SandboxReady(id, team)]
      case (Sandbox, BuildComplete(id, _, _), Fails(p, _)) => if p.Lost? then [] else [SandboxFailed(id)]
      case _ => []
  }

  ghost function AllWritten(states: seq<State>, actions: seq<Action>, n: nat): seq<Event>
    requires n <= |actions| < |states|
  {
    if n == 0 then [] else AllWritten(states, actions, n - 1) + Written(states[n - 1], actions[n - 1])
  }

  lemma BuildWrites(s: State, w: Work)
    ensures Step(s, Handle(Build, w)).log == s.log + WrittenFor(s, Build, w)
  {
  }

  lemma SandboxWrites(s: State, w: Work)
    ensures Step(s, Handle(Sandbox, w)).log == s.log + WrittenFor(s, Sandbox, w)
  {
  }

  lemma WrittenNext(s: State, a: Action)
    ensures Step(s, a).log == s.log + Written(s, a)
  {
    if a.Handle? {
      if a.role.Build? {
        BuildWrites(s, a.w);
      } else {
        SandboxWrites(s, a.w);
      }
    }
  }

  /** In every run the log is what its steps wrote, in order. */
  lemma {:induction false} LogExactly(states: seq<State>, actions: seq<Action>, n: nat)
    requires IsRun(states, actions) && n < |states|
    ensures states[n].log == AllWritten(states, actions, n)
  {
    if n > 0 {
      LogExactly(states, actions, n - 1);
      WrittenNext(states[n - 1], actions[n - 1]);
    }
  }

  lemma {:induction false} LogGrows(states: seq<State>, actions: seq<Action>, m: nat, n: nat)
    requires IsRun(states, actions) && m <= n < |states|
    ensures states[m].log <= states[n].log
  {
    if m < n {
      LogGrows(states, actions, m, n - 1);
      WrittenNext(states[n - 1], actions[n - 1]);
    }
  }

  // ---------- How a delivery ends ----------

  /** How the work on record `o` ends, or `None` when the process ends before the record is done. A sandbox that is
      already there cannot be created, and one that is not cannot be found. */
  ghost function Ending(s: State, role: Role, o: nat, w: Work): Option<Outcome>
    requires o < |s.log|
  {
    match (role, s.log[o], w)
    case (Build, Created(_, _, _), Succeeds(Sent)) => Some(Published(|s.log|))
    case (Build, Created(_, _, _), Fails(_, _)) => Some(Failed)
    case (Build, Created(_, _, _), _) => None
    case (Sandbox, BuildComplete(id, _, _), Succeeds(Sent)) => if id in s.pods then None else Some(Published(|s.log|))
    case (Sandbox, BuildComplete(_, _, _), Fails(_, _)) => Some(Failed)
    case (Sandbox, BuildComplete(id, _, _), AlreadyExists) => if id in s.pods then Some(Existing) else None
    case (Sandbox, BuildComplete(_, _, _), _) => None
    case _ => Some(Skipped)
  }

  /** The step handles record `o` to its end. */
  ghost predicate Ends(s: State, a: Action, role: Role, o: nat) {
    && a.Handle? && a.role == role && s.Of(role).done.None? && s.Of(role).next == o < |s.log|
    && Ending(s, role, o, a.w).Some?
  }

  /** The last of the first `n` steps that did, or -1. */
  ghost function LastEnd(states: seq<State>, actions: seq<Action>, n: nat, role: Role, o: nat): (m: int)
    requires n <= |actions| < |states|
    ensures -1 <= m < n
    ensures m >= 0 ==> Ends(states[m], actions[m], role, o)
  {
    if n == 0 then -1
    else if Ends(states[n - 1], actions[n - 1], role, o) then n - 1
    else LastEnd(states, actions, n - 1, role, o)
  }

  /** The step commits record `o`; a commit may be applied although it is reported as failed. */
  ghost predicate Commits(s: State, a: Action, role: Role, o: nat) {
    a.Commit? && a.role == role && s.Of(role).done.Some? && s.Of(role).next == o && (a.ok || a.applied)
  }

  lemma HandleEnds(s: State, role: Role, w: Work)
    requires s.Of(role).done.None? && s.Of(role).next < |s.log|
    ensures var c, c' := s.Of(role), Step(s, Handle(role, w)).Of(role);
            && c'.outcomes == c.outcomes && c'.committed == c.committed
            && c'.done == Ending(s, role, c.next, w) && (c'.done.Some? ==> c'.next == c.next)
  {
  }

  /** What a step does to a consumer, other than by handling a record. */
  ghost predicate Otherwise(s: State, a: Action, role: Role) {
    var c, c' := s.Of(role), Step(s, a).Of(role);
    && (c'.done.Some? ==> c'.done == c.done && c'.next == c.next)
    && c'.outcomes == (if Commits(s, a, role, c.next) then c.outcomes[c.next := c.done.value] else c.outcomes)
    && c'.committed == (if Commits(s, a, role, c.next) then c.next + 1 else c.committed)
  }

  lemma HandleOtherwise(s: State, r: Role, w: Work, role: Role)
    requires !(r == role && s.Of(role).done.None? && s.Of(role).next < |s.log|)
    ensures Step(s, Handle(r, w)).Of(role) == s.Of(role)
  {
  }

  lemma ConsumerOtherwise(s: State, a: Action, role: Role)
    requires a.Commit? || a.Crash? || a.DropRecords?
    ensures Otherwise(s, a, role)
  {
  }

  lemma RestOtherwise(s: State, a: Action, role: Role)
    requires !a.Handle? && !a.Commit? && !a.Crash? && !a.DropRecords?
    ensures Step(s, a).Of(role) == s.Of(role)
  {
  }

  lemma OtherEnds(s: State, a: Action, role: Role)
    requires !(a.Handle? && a.role == role && s.Of(role).done.None? && s.Of(role).next < |s.log|)
    ensures Otherwise(s, a, role)
  {
    if a.Handle? {
      HandleOtherwise(s, a.role, a.w, role);
    } else if a.Commit? || a.Crash? || a.DropRecords? {
      ConsumerOtherwise(s, a, role);
    } else {
      RestOtherwise(s, a, role);
    }
  }

  /** What is done, and what was committed, ended as the last step that handled it did. */
  ghost predicate EndsOk(states: seq<State>, actions: seq<Action>, n: nat, role: Role)
    requires n <= |actions| < |states|
  {
    var c := states[n].Of(role);
    && (c.done.Some? ==> EndedAs(states, actions, n, role, c.next, c.done.value))
    && (forall o :: o in c.outcomes ==> EndedAs(states, actions, n, role, o, c.outcomes[o]))
  }

  ghost predicate EndedAs(states: seq<State>, actions: seq<Action>, n: nat, role: Role, o: nat, out: Outcome)
    requires n <= |actions| < |states|
  {
    var m := LastEnd(states, actions, n, role, o);
    m >= 0 && Ending(states[m], role, o, actions[m].w) == Some(out)
  }

  /** A step that does not handle record `o` to its end leaves what was last. */
  lemma StillEndedAs(states: seq<State>, actions: seq<Action>, n: nat, role: Role, o: nat, out: Outcome)
    requires n < |actions| < |states| && EndedAs(states, actions, n, role, o, out)
    requires !Ends(states[n], actions[n], role, o)
    ensures EndedAs(states, actions, n + 1, role, o, out)
  {
  }

  lemma EndsNext(states: seq<State>, actions: seq<Action>, n: nat, role: Role)
    requires n < |actions| < |states| && states[n + 1] == Step(states[n], actions[n])
    requires Inv(states[n]) && EndsOk(states, actions, n, role)
    ensures EndsOk(states, actions, n + 1, role)
  {
    var s, a, c, c' := states[n], actions[n], states[n].Of(role), states[n + 1].Of(role);
    assert forall o :: o in c.outcomes ==> o < c.committed <= c.next;
    forall o | o in c.outcomes ensures EndedAs(states, actions, n + 1, role, o, c.outcomes[o]) {
      StillEndedAs(states, actions, n, role, o, c.outcomes[o]);
    }
    if a.Handle? && a.role == role && c.done.None? && c.next < |s.log| {
      HandleEnds(s, role, a.w);
    } else {
      OtherEnds(s, a, role);
      if c.done.Some? {
        StillEndedAs(states, actions, n, role, c.next, c.done.value);
      }
    }
  }

  lemma {:induction false} RunEnds(states: seq<State>, actions: seq<Action>, n: nat, role: Role)
    requires IsRun(states, actions) && n < |states|
    ensures EndsOk(states, actions, n, role)
  {
    if n > 0 {
      RunEnds(states, actions, n - 1, role);
      RunInv(states, actions, n - 1);
      assert states[n] == Step(states[n - 1], actions[n - 1]);
      EndsNext(states, actions, n - 1, role);
    }
  }

  /** In every run a committed record that was not thrown away ended as the last delivery of it did. */
  lemma OutcomeExactly(states: seq<State>, actions: seq<Action>, n: nat, role: Role, o: nat)
    requires IsRun(states, actions) && n < |states| && o < states[n].Of(role).committed
    requires !Thrown(states, actions, n, role, o)
    ensures var m := LastEnd(states, actions, n, role, o);
            && o in states[n].Of(role).outcomes && m >= 0
            && Some(states[n].Of(role).outcomes[o]) == Ending(states[m], role, o, actions[m].w)
  {
    CommitImpliesOutcome(states, actions, n, role, o);
    RunEnds(states, actions, n, role);
    assert EndedAs(states, actions, n, role, o, states[n].Of(role).outcomes[o]);
  }

  /** The report of a failure. */
  ghost function Report(role: Role, id: string): Event { if role.Build? then BuildFailed(id) else SandboxFailed(id) }

  /** In every run, a record committed after a failure has the report of that failure behind it in the log, unless
      the publish on the delivery that was committed was lost; then that step wrote nothing. */
  lemma FailureIsReported(states: seq<State>, actions: seq<Action>, n: nat, role: Role, o: nat)
    requires IsRun(states, actions) && n < |states|
    requires o in states[n].Of(role).outcomes && states[n].Of(role).outcomes[o].Failed?
    ensures var m, log := LastEnd(states, actions, n, role, o), states[n].log;
            && 0 <= m < n && o < |states[m].log| <= |log| && actions[m].Handle? && actions[m].w.Fails?
            && (log[o].Created? || log[o].BuildComplete?)
            && if actions[m].w.publish.Lost? then states[m + 1].log == states[m].log
               else |states[m].log| < |log| && log[|states[m].log|] == Report(role, log[o].id)
  {
    RunEnds(states, actions, n, role);
    assert EndedAs(states, actions, n, role, o, Failed);
    var m := LastEnd(states, actions, n, role, o);
    WrittenNext(states[m], actions[m]);
    assert states[m + 1] == Step(states[m], actions[m]);
    LogGrows(states, actions, m, n);
    LogGrows(states, actions, m + 1, n);
  }

  /** The committed offset is the one behind the record last committed. */
  ghost function LastCommitted(states: seq<State>, actions: seq<Action>, n: nat, role: Role): nat
    requires n <= |actions| < |states|
  {
    if n == 0 then 0
    else if Commits(states[n - 1], actions[n - 1], role, states[n - 1].Of(role).next)
    then states[n - 1].Of(role).next + 1
    else LastCommitted(states, actions, n - 1, role)
  }

  lemma OffsetNext(s: State, a: Action, role: Role)
    ensures var c := s.Of(role);
            Step(s, a).Of(role).committed == if Commits(s, a, role, c.next) then c.next + 1 else c.committed
  {
    if a.Handle? && a.role == role && s.Of(role).done.None? && s.Of(role).next < |s.log| {
      HandleEnds(s, role, a.w);
    } else {
      OtherEnds(s, a, role);
    }
  }

  lemma {:induction false} OffsetExactly(states: seq<State>, actions: seq<Action>, n: nat, role: Role)
    requires IsRun(states, actions) && n < |states|
    ensures states[n].Of(role).committed == LastCommitted(states, actions, n, role)
  {
    if n > 0 {
      OffsetExactly(states, actions, n - 1, role);
      OffsetNext(states[n - 1], actions[n - 1], role);
    }
  }

  // ---------- What waits at the API ----------

  /** A letter, a digit, a dash or an underscore, by its ASCII code. */
  predicate TeamCode(c: char) {
    var n := c as int; 65 <= n <= 90 || 97 <= n <= 122 || 48 <= n <= 57 || n == 45 || n == 95
  }

  /** The three languages are let in, with a team name of up to 64 letters, digits, dashes and underscores. */
  lemma AdmissibleExactly(r: Submission)
    ensures Admissible(r) <==>
            && (r.lang == "cpp" || r.lang == "rust" || r.lang == "go") && 1 <= |r.team| <= 64
            && forall i :: 0 <= i < |r.team| ==> TeamCode(r.team[i])
  {
    assert forall i :: 0 <= i < |r.team| ==> (TeamChar(r.team[i]) <==> TeamCode(r.team[i]));
  }

  ghost predicate Registers(s: State, a: Action, id: string) {
    a.Register? && a.id == id && id !in s.issued && Admissible(a.r)
  }

  /** The submission is no longer held: it was announced, with the publish acknowledged, or the process ended. */
  ghost predicate Lapses(s: State, a: Action, id: string) {
    a.ApiCrash? || (a.Announce? && a.id == id && a.p.Sent? && (a.id, a.r) in s.confirming)
  }

  ghost predicate Held(states: seq<State>, actions: seq<Action>, n: nat, id: string)
    requires n <= |actions| < |states|
  {
    && n > 0
    && (|| Registers(states[n - 1], actions[n - 1], id)
        || (Held(states, actions, n - 1, id) && !Lapses(states[n - 1], actions[n - 1], id)))
  }

  lemma WorkLeavesApi(s: State, role: Role, w: Work)
    ensures var s' := Step(s, Handle(role, w)); s'.pending == s.pending && s'.confirming == s.confirming
  {
  }

  lemma HeldNext(s: State, a: Action, id: string)
    ensures id in Step(s, a).pending <==> Registers(s, a, id) || (id in s.pending && !Lapses(s, a, id))
  {
    if a.Handle? {
      WorkLeavesApi(s, a.role, a.w);
    }
  }

  /** In every run the API holds a submission from its registration until it is announced or the process ends. */
  lemma {:induction false} HeldExactly(states: seq<State>, actions: seq<Action>, n: nat, id: string)
    requires IsRun(states, actions) && n < |states|
    ensures id in states[n].pending <==> Held(states, actions, n, id)
  {
    if n > 0 {
      HeldExactly(states, actions, n - 1, id);
      HeldNext(states[n - 1], actions[n - 1], id);
    }
  }

  /** A confirmation looks the submission up. */
  ghost predicate Looks(s: State, a: Action, id: string, r: Submission) {
    a == Confirm(id) && id in s.pending && s.pending[id] == r
  }

  /** A confirmation announces it, or fails to. */
  ghost predicate Answers(s: State, a: Action, id: string, r: Submission) {
    a.Announce? && a.id == id && a.r == r && (id, r) in s.confirming
  }

  /** How many confirmations of a submission are under way. */
  ghost function UnderWay(states: seq<State>, actions: seq<Action>, n: nat, id: string, r: Submission): int
    requires n <= |actions| < |states|
  {
    if n == 0 || actions[n - 1].ApiCrash? then 0
    else
      UnderWay(states, actions, n - 1, id, r)
        + (if Looks(states[n - 1], actions[n - 1], id, r) then 1 else 0)
        - (if Answers(states[n - 1], actions[n - 1], id, r) then 1 else 0)
  }

  lemma UnderWayNext(s: State, a: Action, id: string, r: Submission)
    requires !a.ApiCrash?
    ensures Step(s, a).confirming[(id, r)]
         == s.confirming[(id, r)] + (if Looks(s, a, id, r) then 1 else 0) - (if Answers(s, a, id, r) then 1 else 0)
  {
    if a.Handle? {
      WorkLeavesApi(s, a.role, a.w);
    }
  }

  /** In every run an announcement answers a confirmation of its own. */
  lemma {:induction false} ConfirmedExactly(states: seq<State>, actions: seq<Action>, n: nat, id: string, r: Submission)
    requires IsRun(states, actions) && n < |states|
    ensures states[n].confirming[(id, r)] == UnderWay(states, actions, n, id, r)
  {
    if n > 0 && !actions[n - 1].ApiCrash? {
      ConfirmedExactly(states, actions, n - 1, id, r);
      UnderWayNext(states[n - 1], actions[n - 1], id, r);
    }
  }

  // ---------- Sandboxes ----------

  /** A test run ends and its sandbox is deleted. */
  ghost predicate Deletes(s: State, a: Action, id: string) {
    a.Test? && a.deleted && a.at < |s.log| && s.log[a.at].SandboxReady? && s.log[a.at].id == id
  }

  ghost predicate Stands(states: seq<State>, actions: seq<Action>, n: nat, id: string)
    requires n <= |actions| < |states|
  {
    && n > 0
    && (|| Places(states[n - 1], actions[n - 1], id)
        || (Stands(states, actions, n - 1, id) && !Deletes(states[n - 1], actions[n - 1], id)))
  }

  lemma StandsNext(s: State, a: Action, id: string)
    ensures id in Step(s, a).pods <==> Places(s, a, id) || (id in s.pods && !Deletes(s, a, id))
  {
    if a.Handle? {
      if a.role.Build? {
        BuildPods(s, a.w);
      } else {
        SandboxPods(s, a.w, id);
      }
    }
  }

  lemma BuildPods(s: State, w: Work)
    ensures Step(s, Handle(Build, w)).pods == s.pods
  {
  }

  lemma SandboxPods(s: State, w: Work, id: string)
    ensures id in Step(s, Handle(Sandbox, w)).pods <==> Places(s, Handle(Sandbox, w), id) || id in s.pods
  {
  }

  /** In every run a sandbox stands from the step that left it in place until the end of a test deletes it. */
  lemma {:induction false} StandsExactly(states: seq<State>, actions: seq<Action>, n: nat, id: string)
    requires IsRun(states, actions) && n < |states|
    ensures id in states[n].pods <==> Stands(states, actions, n, id)
  {
    if n > 0 {
      StandsExactly(states, actions, n - 1, id);
      StandsNext(states[n - 1], actions[n - 1], id);
    }
  }
}
