/** The life of a submission across the services: they read and write one log, each commits a record only after
    handling it, and publishes, commits and whole processes may fail at any point. */
module Lifecycle {
  import opened Options

  datatype Event =
    | Created(id: string, lang: string, team: string)
    | BuildComplete(id: string, lang: string, team: string)
    | BuildFailed(id: string)
    | SandboxReady(id: string, team: string)
    | SandboxFailed(id: string)
    | TestComplete(id: string, team: string, success: bool)
    | Malformed

  /** What a submitter registered. */
  datatype Submission = Submission(lang: string, team: string)

  predicate TeamChar(c: char) {
    'A' <= c <= 'Z' || 'a' <= c <= 'z' || '0' <= c <= '9' || c == '_' || c == '-'
  }

  predicate Admissible(r: Submission) {
    r.lang in {"cpp", "rust", "go"} && 0 < |r.team| <= 64 && forall i :: 0 <= i < |r.team| ==> TeamChar(r.team[i])
  }

  // ---------- The two consumers ----------

  datatype Role = Build | Sandbox

  /** Which records a consumer acts on. */
  predicate Wanted(role: Role, e: Event) { if role.Build? then e.Created? else e.BuildComplete? }

  /** What it publishes on success. */
  function Product(role: Role, e: Event): Event
    requires Wanted(role, e)
  {
    if role.Build? then BuildComplete(e.id, e.lang, e.team) else SandboxReady(e.id, e.team)
  }

  function Failure(role: Role, e: Event): Event
    requires Wanted(role, e)
  {
    if role.Build? then BuildFailed(e.id) else SandboxFailed(e.id)
  }

  /** A publish is acknowledged, fails, or fails although the record was written. A process that dies between its
      work and the publish is one whose publish is lost. */
  datatype Publish = Sent | Lost | Unsure

  /** A failed deployment is cleaned up, unless the cleanup fails and leaves the sandbox in place. */
  datatype Work = Succeeds(publish: Publish) | Fails(publish: Publish, leftover: bool) | AlreadyExists

  /** How the delivery that was committed ended; `at` is where the product is in the log. */
  datatype Outcome = Skipped | Published(at: nat) | Failed | Existing

  /** `next` is the record to handle, `done` how the record just handled ended. The rest is history:
      how each committed record ended, and which records a poll with errors threw away since they were last
      up for delivery. */
  datatype Consumer = Consumer(committed: nat, next: nat, done: Option<Outcome>,
                               outcomes: map<nat, Outcome>, dropped: set<nat>) {
    function Restarted(): Consumer {
      this.(next := committed, done := None, dropped := set o | o in dropped && o < committed)
    }
  }

  /** `issued`, `deployed` and `lost` are history: every submission ever registered, the ids a sandbox was ever
      left in place for, and those whose first such sandbox did not get its sandbox.ready written. */
  datatype State = State(log: seq<Event>, pending: map<string, Submission>, confirming: multiset<(string, Submission)>,
                         issued: map<string, Submission>, pods: set<string>, deployed: set<string>, lost: set<string>,
                         build: Consumer, sandbox: Consumer)
  {
    function Of(role: Role): Consumer { if role.Build? then build else sandbox }
    function With(role: Role, c: Consumer): State { if role.Build? then this.(build := c) else this.(sandbox := c) }
    function Append(es: seq<Event>): State { this.(log := log + es) }

    /** A sandbox is left in place for `id`, and its sandbox.ready is written or not. */
    function Placed(id: string, written: bool): State {
      this.(pods := pods + {id}, deployed := deployed + {id},
            lost := if written || id in deployed then lost else lost + {id})
    }
  }

  const Start := Consumer(0, 0, None, map[], {})

  const Initial := State([], map[], multiset{}, map[], {}, {}, {}, Start, Start)

  datatype Action =
    | Register(id: string, r: Submission)          // a submission is announced under a fresh id
    | Confirm(id: string)                          // a confirm handler looks the submission up
    | Announce(id: string, r: Submission, p: Publish)  // ... and publishes it
    | ApiCrash
    | Handle(role: Role, w: Work)
    | Commit(role: Role, ok: bool, applied: bool)
    | Crash(role: Role)
    | DropRecords(role: Role, n: nat)              // a poll returns errors beside n records
    | Test(at: nat, success: bool, deleted: bool, p: Publish)  // a test run started by a sandbox.ready ends
    | Noise                                        // anything else on the topic

  function Range(lo: nat, n: nat): (r: set<nat>)
    ensures forall o :: o in r <==> lo <= o < lo + n
  {
    if n == 0 then {} else Range(lo, n - 1) + {lo + n - 1}
  }

  function Step(s: State, a: Action): State {
    match a
    case Register(id, r) =>
      if Admissible(r) && id !in s.issued then s.(pending := s.pending[id := r], issued := s.issued[id := r]) else s
    case Confirm(id) => if id in s.pending then s.(confirming := s.confirming + multiset{(id, s.pending[id])}) else s
    case Announce(id, r, p) =>
      if (id, r) !in s.confirming then s
      else
        var s1 := s.(confirming := s.confirming - multiset{(id, r)});
        (match p
         case Sent => s1.Append([Created(id, r.lang, r.team)]).(pending := s.pending - {id})
         case Lost => s1
         case Unsure => s1.Append([Created(id, r.lang, r.team)]))
    case ApiCrash => s.(pending := map[], confirming := multiset{})
    case Handle(role, w) =>
      var c := s.Of(role);
      if c.done.Some? || c.next >= |s.log| then s
      else if !Wanted(role, s.log[c.next]) then s.With(role, c.(done := Some(Skipped)))
      else Worked(s, role, w, s.log[c.next])
    case Commit(role, ok, applied) =>
      var c := s.Of(role);
      if c.done.None? then s
      else
        s.With(role, Committed(c, ok, applied))
    case Crash(role) => s.With(role, s.Of(role).Restarted())
    case DropRecords(role, n) =>
      var c := s.Of(role);
      if c.done.Some? || c.next + n > |s.log| then s
      else s.With(role, c.(next := c.next + n, dropped := c.dropped + Range(c.next, n)))
    case Test(at, success, deleted, p) =>
      if at >= |s.log| || !s.log[at].SandboxReady? then s
      else
        var s1 := if deleted then s.(pods := s.pods - {s.log[at].id}) else s;
        if p.Lost? then s1 else s1.Append([TestComplete(s.log[at].id, s.log[at].team, success)])
    case Noise => s.Append([Malformed])
  }

  /** A commit that fails may have been applied all the same; either way the process ends. */
  function Committed(c: Consumer, ok: bool, applied: bool): Consumer
    requires c.done.Some?
  {
    var c1 := if ok || applied
              then c.(committed := c.next + 1, outcomes := c.outcomes[c.next := c.done.value]) else c;
    if ok then c1.(next := c.next + 1, done := None) else c1.Restarted()
  }

  /** A consumer acts on a record it wants. A failed publish of the product ends the process; a failed publish of
      a failure does not. A sandbox that already exists is taken for a success. */
  function Worked(s: State, role: Role, w: Work, e: Event): State
    requires Wanted(role, e)
  {
    var c := s.Of(role);
    match w
    case Succeeds(p) =>
      if role.Sandbox? && e.id in s.pods then s
      else
        var s1 := if role.Sandbox? then s.Placed(e.id, !p.Lost?) else s;
        (match p
         case Sent => s1.Append([Product(role, e)]).With(role, c.(done := Some(Published(|s.log|))))
         case Lost => s1.With(role, c.Restarted())
         case Unsure => s1.Append([Product(role, e)]).With(role, c.Restarted()))
    case Fails(p, leftover) =>
      var s1 := if role.Sandbox? && leftover && e.id !in s.pods then s.Placed(e.id, false) else s;
      (if p.Lost? then s1 else s1.Append([Failure(role, e)])).With(role, c.(done := Some(Failed)))
    case AlreadyExists =>
      if role.Sandbox? && e.id in s.pods then s.With(role, c.(done := Some(Existing))) else s
  }

  ghost predicate IsRun(states: seq<State>, actions: seq<Action>) {
    && |states| == |actions| + 1 && states[0] == Initial
    && forall i {:trigger actions[i]} :: 0 <= i < |actions| ==> states[i + 1] == Step(states[i], actions[i])
  }

  // ---------- Causality ----------

  /** Record `i` was caused by an earlier record. */
  ghost predicate Caused(log: seq<Event>, i: nat)
    requires i < |log|
  {
    match log[i]
    case BuildComplete(id, lang, team) => exists j :: 0 <= j < i && log[j] == Created(id, lang, team)
    case BuildFailed(id) => exists j :: 0 <= j < i && log[j].Created? && log[j].id == id
    case SandboxReady(id, team) =>
      exists j :: 0 <= j < i && log[j].BuildComplete? && log[j].id == id && log[j].team == team
    case SandboxFailed(id) => exists j :: 0 <= j < i && log[j].BuildComplete? && log[j].id == id
    case TestComplete(id, team, _) => exists j :: 0 <= j < i && log[j] == SandboxReady(id, team)
    case _ => true
  }

  /** Record `e` says what was registered under its id. */
  ghost predicate Agrees(issued: map<string, Submission>, e: Event) {
    match e
    case Created(id, lang, team) => id in issued && issued[id] == Submission(lang, team)
    case BuildComplete(id, lang, team) => id in issued && issued[id] == Submission(lang, team)
    case SandboxReady(id, team) => id in issued && issued[id].team == team
    case TestComplete(id, team, _) => id in issued && issued[id].team == team
    case _ => true
  }

  ghost predicate LogOk(s: State) {
    forall i :: 0 <= i < |s.log| ==> Caused(s.log, i) && Agrees(s.issued, s.log[i])
  }

  ghost predicate ApiOk(s: State) {
    && (forall id :: id in s.pending ==> id in s.issued && s.issued[id] == s.pending[id])
    && (forall c :: c in s.confirming ==> c.0 in s.issued && s.issued[c.0] == c.1)
    && (forall id :: id in s.issued ==> Admissible(s.issued[id]))
  }

  /** What the end of a delivery says about the log. */
  ghost predicate OutcomeOk(role: Role, log: seq<Event>, o: nat, out: Outcome) {
    && o < |log|
    && (out.Skipped? <==> !Wanted(role, log[o]))
    && (out.Published? ==> o < out.at < |log| && log[out.at] == Product(role, log[o]))
    && (out.Existing? ==> role.Sandbox?)
  }

  ghost predicate ConsumerOk(role: Role, log: seq<Event>, c: Consumer) {
    && c.committed <= c.next <= |log|
    && (c.done.Some? ==> OutcomeOk(role, log, c.next, c.done.value))
    && (forall o :: o in c.outcomes ==> o < c.committed && o !in c.dropped && OutcomeOk(role, log, o, c.outcomes[o]))
    && (forall o :: o in c.dropped ==> o < c.next)
    && (forall o :: 0 <= o < c.next ==> o in c.dropped || o in c.outcomes)
  }

  ghost predicate Inv(s: State) {
    LogOk(s) && ApiOk(s) && ConsumerOk(Build, s.log, s.build) && ConsumerOk(Sandbox, s.log, s.sandbox)
  }

  lemma AppendOk(s: State, e: Event)
    requires Inv(s) && Caused(s.log + [e], |s.log|) && Agrees(s.issued, e)
    ensures Inv(s.Append([e]))
  {
    var log := s.log + [e];
    forall i | 0 <= i < |s.log| ensures Caused(log, i) {
      assert Caused(s.log, i) && log[i] == s.log[i];
      assert forall j :: 0 <= j < i ==> log[j] == s.log[j];
    }
    GrowOk(Build, s.log, e, s.build);
    GrowOk(Sandbox, s.log, e, s.sandbox);
  }

  /** Nothing a consumer relies on changes when the log grows. */
  lemma GrowOk(role: Role, log: seq<Event>, e: Event, c: Consumer)
    requires ConsumerOk(role, log, c)
    ensures ConsumerOk(role, log + [e], c)
  {
  }

  lemma AnnounceOk(s: State, id: string, r: Submission, p: Publish)
    requires Inv(s)
    ensures Inv(Step(s, Announce(id, r, p)))
  {
    if (id, r) in s.confirming {
      AppendOk(s, Created(id, r.lang, r.team));
    }
  }

  lemma ApiStep(s: State, a: Action)
    requires Inv(s) && (a.Register? || a.Confirm? || a.ApiCrash?)
    ensures Inv(Step(s, a))
  {
  }

  lemma WithOk(s: State, role: Role, c: Consumer)
    requires Inv(s) && ConsumerOk(role, s.log, c)
    ensures Inv(s.With(role, c))
  {
  }

  lemma RestartedOk(role: Role, log: seq<Event>, c: Consumer)
    requires ConsumerOk(role, log, c)
    ensures ConsumerOk(role, log, c.Restarted())
  {
  }

  lemma CommittedOk(role: Role, log: seq<Event>, c: Consumer, ok: bool, applied: bool)
    requires ConsumerOk(role, log, c) && c.done.Some?
    ensures ConsumerOk(role, log, Committed(c, ok, applied))
  {
  }

  lemma SucceedsOk(s: State, role: Role, e: Event)
    requires Inv(s) && s.Of(role).done.None? && s.Of(role).next < |s.log|
    requires e == s.log[s.Of(role).next] && Wanted(role, e)
    ensures Inv(s.Append([Product(role, e)]))
    ensures ConsumerOk(role, s.log + [Product(role, e)], s.Of(role).(done := Some(Published(|s.log|))))
  {
    var n, p := s.Of(role).next, Product(role, e);
    assert Agrees(s.issued, s.log[n]);
    assert (s.log + [p])[n] == e;
    AppendOk(s, p);
    GrowOk(role, s.log, p, s.Of(role));
  }

  lemma FailsOk(s: State, role: Role, e: Event)
    requires Inv(s) && s.Of(role).done.None? && s.Of(role).next < |s.log|
    requires e == s.log[s.Of(role).next] && Wanted(role, e)
    ensures Inv(s.Append([Failure(role, e)]))
    ensures ConsumerOk(role, s.log + [Failure(role, e)], s.Of(role).(done := Some(Failed)))
    ensures ConsumerOk(role, s.log, s.Of(role).(done := Some(Failed)))
  {
    var n, f := s.Of(role).next, Failure(role, e);
    assert (s.log + [f])[n] == e;
    AppendOk(s, f);
    GrowOk(role, s.log, f, s.Of(role));
  }

  lemma SucceededOk(s: State, role: Role, p: Publish, e: Event)
    requires Inv(s) && s.Of(role).done.None? && s.Of(role).next < |s.log|
    requires e == s.log[s.Of(role).next] && Wanted(role, e)
    ensures Inv(Worked(s, role, Succeeds(p), e))
  {
    var c := s.Of(role);
    var s1 := if role.Sandbox? then s.Placed(e.id, !p.Lost?) else s;
    assert Inv(s1);
    SucceedsOk(s1, role, e);
    match p
    case Sent => WithOk(s1.Append([Product(role, e)]), role, c.(done := Some(Published(|s.log|))));
    case Lost =>
      RestartedOk(role, s.log, c);
      WithOk(s1, role, c.Restarted());
    case Unsure =>
      GrowOk(role, s.log, Product(role, e), c);
      RestartedOk(role, s.log + [Product(role, e)], c);
      WithOk(s1.Append([Product(role, e)]), role, c.Restarted());
  }

  lemma WorkedOk(s: State, role: Role, w: Work, e: Event)
    requires Inv(s) && s.Of(role).done.None? && s.Of(role).next < |s.log|
    requires e == s.log[s.Of(role).next] && Wanted(role, e)
    ensures Inv(Worked(s, role, w, e))
  {
    var c := s.Of(role);
    match w
    case Succeeds(p) => SucceededOk(s, role, p, e);
    case Fails(p, leftover) =>
      var s1 := if role.Sandbox? && leftover && e.id !in s.pods then s.Placed(e.id, false) else s;
      FailsOk(s1, role, e);
      if p.Lost? {
        WithOk(s1, role, c.(done := Some(Failed)));
      } else {
        WithOk(s1.Append([Failure(role, e)]), role, c.(done := Some(Failed)));
      }
    case AlreadyExists =>
      if role.Sandbox? && e.id in s.pods {
        WithOk(s, role, c.(done := Some(Existing)));
      }
  }

  lemma HandleOk(s: State, role: Role, w: Work)
    requires Inv(s)
    ensures Inv(Step(s, Handle(role, w)))
  {
    var c := s.Of(role);
    if c.done.None? && c.next < |s.log| {
      if Wanted(role, s.log[c.next]) {
        WorkedOk(s, role, w, s.log[c.next]);
      } else {
        WithOk(s, role, c.(done := Some(Skipped)));
      }
    }
  }

  lemma CommitOk(s: State, role: Role, ok: bool, applied: bool)
    requires Inv(s)
    ensures Inv(Step(s, Commit(role, ok, applied)))
  {
    if s.Of(role).done.Some? {
      CommittedOk(role, s.log, s.Of(role), ok, applied);
      WithOk(s, role, Committed(s.Of(role), ok, applied));
    }
  }

  lemma CrashOk(s: State, role: Role)
    requires Inv(s)
    ensures Inv(Step(s, Crash(role)))
  {
    RestartedOk(role, s.log, s.Of(role));
    WithOk(s, role, s.Of(role).Restarted());
  }

  lemma DropOk(s: State, role: Role, n: nat)
    requires Inv(s)
    ensures Inv(Step(s, DropRecords(role, n)))
  {
    var c := s.Of(role);
    if c.done.None? && c.next + n <= |s.log| {
      WithOk(s, role, c.(next := c.next + n, dropped := c.dropped + Range(c.next, n)));
    }
  }

  lemma TestOk(s: State, at: nat, success: bool, deleted: bool, p: Publish)
    requires Inv(s)
    ensures Inv(Step(s, Test(at, success, deleted, p)))
  {
    if at < |s.log| && s.log[at].SandboxReady? {
      var e := TestComplete(s.log[at].id, s.log[at].team, success);
      assert Agrees(s.issued, s.log[at]);
      assert (s.log + [e])[at] == s.log[at];
      AppendOk(s, e);
    }
  }

  lemma NoiseOk(s: State)
    requires Inv(s)
    ensures Inv(Step(s, Noise))
  {
    AppendOk(s, Malformed);
  }

  lemma StepInv(s: State, a: Action)
    requires Inv(s)
    ensures Inv(Step(s, a))
  {
    match a
    case Test(at, success, deleted, p) => TestOk(s, at, success, deleted, p);
    case Noise => NoiseOk(s);
    case Handle(role, w) => HandleOk(s, role, w);
    case Commit(role, ok, applied) => CommitOk(s, role, ok, applied);
    case Crash(role) => CrashOk(s, role);
    case DropRecords(role, n) => DropOk(s, role, n);
    case Announce(id, r, p) => AnnounceOk(s, id, r, p);
    case _ => ApiStep(s, a);
  }

  lemma {:induction false} RunInv(states: seq<State>, actions: seq<Action>, n: nat)
    requires IsRun(states, actions) && n < |states|
    ensures Inv(states[n])
  {
    if n > 0 {
      RunInv(states, actions, n - 1);
      StepInv(states[n - 1], actions[n - 1]);
    }
  }

  // ---------- What holds of every run ----------

  /** Records `a`, `b` and `c` lead up to the test.complete at `i`, with the same id, team and language. */
  ghost predicate LeadsTo(log: seq<Event>, a: int, b: int, c: int, i: int) {
    && 0 <= a < b < c < i < |log| && log[i].TestComplete? && log[a].Created?
    && log[a] == Created(log[i].id, log[a].lang, log[i].team)
    && log[b] == BuildComplete(log[i].id, log[a].lang, log[i].team)
    && log[c] == SandboxReady(log[i].id, log[i].team)
  }

  lemma History(s: State, i: nat) returns (a: int, b: int, c: int)
    requires LogOk(s) && ApiOk(s) && i < |s.log| && s.log[i].TestComplete?
    ensures LeadsTo(s.log, a, b, c, i) && Admissible(Submission(s.log[a].lang, s.log[a].team))
  {
    var log := s.log;
    assert Caused(log, i);
    c :| 0 <= c < i && log[c] == SandboxReady(log[i].id, log[i].team);
    assert Caused(log, c);
    b :| 0 <= b < c && log[b].BuildComplete? && log[b].id == log[c].id && log[b].team == log[c].team;
    assert Caused(log, b);
    a :| 0 <= a < b && log[a] == Created(log[b].id, log[b].lang, log[b].team);
    assert Agrees(s.issued, log[a]);
  }

  /** Every test.complete has its whole history before it in the log: a sandbox.ready, before that a
      build.complete, before that a submission.created, all of the same submission and team; and what was
      created had passed the checks of the submission API. */
  lemma Provenance(states: seq<State>, actions: seq<Action>, n: nat, i: nat)
    requires IsRun(states, actions) && n < |states| && i < |states[n].log| && states[n].log[i].TestComplete?
    ensures exists a, b, c :: LeadsTo(states[n].log, a, b, c, i)
                              && Admissible(Submission(states[n].log[a].lang, states[n].log[a].team))
  {
    RunInv(states, actions, n);
    var a, b, c := History(states[n], i);
  }

  /** Every build.complete follows a submission.created with the same id, language and team, every sandbox.ready a
      build.complete with the same id and team, every test.complete a sandbox.ready with the same id and team. */
  lemma Causality(states: seq<State>, actions: seq<Action>, n: nat, i: nat)
    requires IsRun(states, actions) && n < |states| && i < |states[n].log|
    ensures Caused(states[n].log, i)
  {
    RunInv(states, actions, n);
  }

  predicate HasTeam(e: Event) { e.Created? || e.BuildComplete? || e.SandboxReady? || e.TestComplete? }

  /** All records about one submission name the same team, whatever was redelivered or repeated. */
  lemma OneTeam(states: seq<State>, actions: seq<Action>, n: nat, i: nat, j: nat)
    requires IsRun(states, actions) && n < |states| && i < |states[n].log| && j < |states[n].log|
    requires HasTeam(states[n].log[i]) && HasTeam(states[n].log[j]) && states[n].log[i].id == states[n].log[j].id
    ensures states[n].log[i].team == states[n].log[j].team
  {
    RunInv(states, actions, n);
    assert Agrees(states[n].issued, states[n].log[i]) && Agrees(states[n].issued, states[n].log[j]);
  }

  /** A poll that reports errors beside records throws record `o` away. */
  ghost predicate Throws(s: State, a: Action, role: Role, o: nat) {
    && a.DropRecords? && a.role == role && s.Of(role).done.None? && s.Of(role).next + a.n <= |s.log|
    && s.Of(role).next <= o < s.Of(role).next + a.n
  }

  /** The step starts the consumer over, so that the records from the committed offset on are delivered again. */
  ghost predicate Rewinds(s: State, a: Action, role: Role) {
    var c := s.Of(role);
    || a == Crash(role)
    || (a.Commit? && a.role == role && c.done.Some? && !a.ok)
    || (&& a.Handle? && a.role == role && c.done.None? && c.next < |s.log| && Wanted(role, s.log[c.next])
        && a.w.Succeeds? && !a.w.publish.Sent? && !(role.Sandbox? && s.log[c.next].id in s.pods))
  }

  /** Among the first `n` steps, one throws record `o` away and none after it has it delivered again. */
  ghost predicate Thrown(states: seq<State>, actions: seq<Action>, n: nat, role: Role, o: nat)
    requires n <= |actions| < |states|
  {
    && n > 0
    && (|| Throws(states[n - 1], actions[n - 1], role, o)
        || (&& Thrown(states, actions, n - 1, role, o)
            && !(Rewinds(states[n - 1], actions[n - 1], role) && o >= states[n].Of(role).committed)))
  }

  lemma WorkThrows(s: State, r: Role, w: Work, e: Event, role: Role, o: nat)
    requires Wanted(r, e)
    ensures var s' := Worked(s, r, w, e);
            var again := r == role && w.Succeeds? && !w.publish.Sent? && !(role.Sandbox? && e.id in s.pods);
            o in s'.Of(role).dropped <==> o in s.Of(role).dropped && !(again && o >= s'.Of(role).committed)
  {
  }

  lemma ThrownNext(s: State, a: Action, role: Role, o: nat)
    ensures o in Step(s, a).Of(role).dropped <==>
            || Throws(s, a, role, o)
            || (o in s.Of(role).dropped && !(Rewinds(s, a, role) && o >= Step(s, a).Of(role).committed))
  {
    if a.Handle? && s.Of(a.role).done.None? && s.Of(a.role).next < |s.log| {
      var e := s.log[s.Of(a.role).next];
      if Wanted(a.role, e) {
        WorkThrows(s, a.role, a.w, e, role, o);
      }
    }
  }

  lemma {:induction false} DroppedIsHistory(states: seq<State>, actions: seq<Action>, n: nat, role: Role, o: nat)
    requires IsRun(states, actions) && n < |states|
    ensures o in states[n].Of(role).dropped <==> Thrown(states, actions, n, role, o)
  {
    if n > 0 {
      DroppedIsHistory(states, actions, n - 1, role, o);
      ThrownNext(states[n - 1], actions[n - 1], role, o);
    }
  }

  /** A committed record was handled if and only if no poll that reported errors threw it away since it was last up
      for delivery; and if the build or the deployment of the delivery that was committed succeeded, its product is
      in the log behind it. */
  lemma CommitImpliesOutcome(states: seq<State>, actions: seq<Action>, n: nat, role: Role, o: nat)
    requires IsRun(states, actions) && n < |states| && o < states[n].Of(role).committed
    ensures var c, log := states[n].Of(role), states[n].log;
            && o < |log|
            && (o in c.outcomes <==> !Thrown(states, actions, n, role, o))
            && (o in c.outcomes ==>
                  && (c.outcomes[o].Skipped? <==> !Wanted(role, log[o]))
                  && (c.outcomes[o].Published? ==>
                        o < c.outcomes[o].at < |log| && log[c.outcomes[o].at] == Product(role, log[o])))
  {
    RunInv(states, actions, n);
    DroppedIsHistory(states, actions, n, role, o);
  }

  /** Nothing is thrown away in a run in which no poll reports errors beside records. */
  lemma {:induction false} NoDrops(states: seq<State>, actions: seq<Action>, n: nat, role: Role)
    requires IsRun(states, actions) && n < |states|
    requires forall i :: 0 <= i < n ==> !(actions[i].DropRecords? && actions[i].role == role)
    ensures states[n].Of(role).dropped == {}
  {
    if n > 0 {
      NoDrops(states, actions, n - 1, role);
      DropsNothing(states[n - 1], actions[n - 1], role);
    }
  }

  lemma WorkDropsNothing(s: State, role: Role, w: Work, e: Event, r: Role)
    requires Wanted(role, e)
    ensures Worked(s, role, w, e).Of(r).dropped <= s.Of(r).dropped
  {
  }

  lemma DropsNothing(s: State, a: Action, role: Role)
    requires !(a.DropRecords? && a.role == role)
    ensures Step(s, a).Of(role).dropped <= s.Of(role).dropped
  {
    if a.Handle? && s.Of(a.role).next < |s.log| && Wanted(a.role, s.log[s.Of(a.role).next]) {
      WorkDropsNothing(s, a.role, a.w, s.log[s.Of(a.role).next], role);
    }
  }

  // ---------- Sandboxes that already exist ----------

  ghost predicate HasReady(log: seq<Event>, id: string) {
    exists i :: 0 <= i < |log| && log[i].SandboxReady? && log[i].id == id
  }

  /** The first sandbox left in place for an id decides: if its report is not written, it is still in place,
      since only a test started by a report takes a sandbox away. */
  ghost predicate ReportsOk(s: State) {
    && s.lost <= s.pods <= s.deployed
    && forall id :: HasReady(s.log, id) <==> id in s.deployed && id !in s.lost
  }

  /** A record is taken for done because its sandbox exists only if a sandbox was left in place for it. */
  ghost predicate ExistingOk(s: State) {
    && (s.sandbox.done == Some(Existing) ==> Deployed(s, s.sandbox.next))
    && forall o :: o in s.sandbox.outcomes && s.sandbox.outcomes[o].Existing? ==> Deployed(s, o)
  }

  ghost predicate Deployed(s: State, o: nat) {
    o < |s.log| && s.log[o].BuildComplete? && s.log[o].id in s.deployed
  }

  lemma ReadyAppended(log: seq<Event>, e: Event)
    ensures forall id :: HasReady(log + [e], id) <==> HasReady(log, id) || (e.SandboxReady? && e.id == id)
  {
    var log' := log + [e];
    assert log'[|log|] == e;
    forall id | HasReady(log, id) ensures HasReady(log', id) {
      var i :| 0 <= i < |log| && log[i].SandboxReady? && log[i].id == id;
      assert log'[i] == log[i];
    }
  }

  lemma WorkReports(s: State, role: Role, w: Work, e: Event)
    requires ReportsOk(s) && Wanted(role, e)
    ensures ReportsOk(Worked(s, role, w, e))
  {
    ReadyAppended(s.log, Product(role, e));
    ReadyAppended(s.log, Failure(role, e));
  }

  lemma StepReports(s: State, a: Action)
    requires ReportsOk(s)
    ensures ReportsOk(Step(s, a))
  {
    match a
    case Announce(id, r, p) => ReadyAppended(s.log, Created(id, r.lang, r.team));
    case Handle(role, w) =>
      var c := s.Of(role);
      if c.done.None? && c.next < |s.log| && Wanted(role, s.log[c.next]) {
        WorkReports(s, role, w, s.log[c.next]);
      }
    case Test(at, success, deleted, p) =>
      if at < |s.log| && s.log[at].SandboxReady? {
        assert HasReady(s.log, s.log[at].id);
        ReadyAppended(s.log, TestComplete(s.log[at].id, s.log[at].team, success));
      }
    case Noise => ReadyAppended(s.log, Malformed);
    case _ =>
  }

  ghost predicate Grows(s: State, s': State) {
    s.log <= s'.log && s.deployed <= s'.deployed && s.lost <= s'.lost
  }

  lemma WorkGrows(s: State, role: Role, w: Work, e: Event)
    requires Wanted(role, e)
    ensures Grows(s, Worked(s, role, w, e))
  {
  }

  /** History is never taken back. */
  lemma StepGrows(s: State, a: Action)
    ensures Grows(s, Step(s, a))
  {
    if a.Handle? && s.Of(a.role).next < |s.log| && Wanted(a.role, s.log[s.Of(a.role).next]) {
      WorkGrows(s, a.role, a.w, s.log[s.Of(a.role).next]);
    }
  }

  /** What a step can do to the record that the sandbox consumer is at. */
  ghost predicate ConsumerMoves(s: State, s': State) {
    var c, c' := s.sandbox, s'.sandbox;
    && (c'.done == Some(Existing) ==>
          && c'.next == c.next
          && (c.done == Some(Existing)
              || (c.next < |s.log| && s.log[c.next].BuildComplete? && s.log[c.next].id in s.pods)))
    && (c'.outcomes == c.outcomes
        || (c.done.Some? && c'.outcomes == c.outcomes[c.next := c.done.value]))
  }

  lemma WorkMoves(s: State, w: Work)
    requires s.sandbox.next < |s.log| && s.log[s.sandbox.next].BuildComplete?
    ensures ConsumerMoves(s, Worked(s, Sandbox, w, s.log[s.sandbox.next]))
  {
  }

  lemma BuildMovesNothing(s: State, w: Work, e: Event)
    requires e.Created?
    ensures Worked(s, Build, w, e).sandbox == s.sandbox
  {
  }

  lemma StepConsumer(s: State, a: Action)
    ensures ConsumerMoves(s, Step(s, a))
  {
    if a.Handle? && s.Of(a.role).done.None? && s.Of(a.role).next < |s.log| {
      var e := s.log[s.Of(a.role).next];
      if a.role.Sandbox? && e.BuildComplete? {
        WorkMoves(s, a.w);
      } else if a.role.Build? && e.Created? {
        BuildMovesNothing(s, a.w, e);
      }
    }
  }

  lemma StepExisting(s: State, a: Action)
    requires ReportsOk(s) && ExistingOk(s)
    ensures ExistingOk(Step(s, a))
  {
    var s' := Step(s, a);
    StepGrows(s, a);
    StepConsumer(s, a);
    forall o: nat | Deployed(s, o) ensures Deployed(s', o) {
      assert s'.log[o] == s.log[o];
    }
  }

  lemma {:induction false} RunReports(states: seq<State>, actions: seq<Action>, n: nat)
    requires IsRun(states, actions) && n < |states|
    ensures ReportsOk(states[n]) && ExistingOk(states[n])
  {
    if n > 0 {
      RunReports(states, actions, n - 1);
      StepReports(states[n - 1], actions[n - 1]);
      StepExisting(states[n - 1], actions[n - 1]);
    }
  }

  /** The step leaves a sandbox in place for `id`. */
  ghost predicate Places(s: State, a: Action, id: string) {
    && a.Handle? && a.role.Sandbox? && s.sandbox.done.None? && s.sandbox.next < |s.log|
    && s.log[s.sandbox.next].BuildComplete? && s.log[s.sandbox.next].id == id && id !in s.pods
    && (a.w.Succeeds? || (a.w.Fails? && a.w.leftover))
  }

  /** ... and its sandbox.ready is written. */
  ghost predicate Reports(a: Action) {
    a.Handle? && a.w.Succeeds? && !a.w.publish.Lost?
  }

  datatype First = NoSandbox | Reported | Unreported

  /** What became of the first sandbox that the first `n` steps left in place for `id`. */
  ghost function FirstSandbox(states: seq<State>, actions: seq<Action>, n: nat, id: string): First
    requires n <= |actions| < |states|
  {
    if n == 0 then NoSandbox
    else
      var before := FirstSandbox(states, actions, n - 1, id);
      if before != NoSandbox || !Places(states[n - 1], actions[n - 1], id) then before
      else if Reports(actions[n - 1]) then Reported else Unreported
  }

  lemma WorkPlaces(s: State, w: Work, e: Event, id: string)
    requires e.BuildComplete?
    ensures var s' := Worked(s, Sandbox, w, e);
            var places := e.id == id && id !in s.pods && (w.Succeeds? || (w.Fails? && w.leftover));
            && (id in s'.deployed <==> id in s.deployed || places)
            && (id in s'.lost <==> id in s.lost || (places && id !in s.deployed && !(w.Succeeds? && !w.publish.Lost?)))
  {
  }

  lemma BuildPlacesNothing(s: State, w: Work, e: Event)
    requires e.Created?
    ensures Worked(s, Build, w, e).deployed == s.deployed && Worked(s, Build, w, e).lost == s.lost
  {
  }

  lemma PlacedNext(s: State, a: Action, id: string)
    ensures id in Step(s, a).deployed <==> id in s.deployed || Places(s, a, id)
    ensures id in Step(s, a).lost <==> id in s.lost || (Places(s, a, id) && id !in s.deployed && !Reports(a))
  {
    if a.Handle? && s.Of(a.role).done.None? && s.Of(a.role).next < |s.log| {
      var e := s.log[s.Of(a.role).next];
      if a.role.Sandbox? && e.BuildComplete? {
        WorkPlaces(s, a.w, e, id);
      } else if a.role.Build? && e.Created? {
        BuildPlacesNothing(s, a.w, e);
      }
    }
  }

  lemma {:induction false} LostIsHistory(states: seq<State>, actions: seq<Action>, n: nat, id: string)
    requires IsRun(states, actions) && n < |states|
    ensures id in states[n].deployed <==> FirstSandbox(states, actions, n, id) != NoSandbox
    ensures id in states[n].lost <==> FirstSandbox(states, actions, n, id) == Unreported
  {
    if n > 0 {
      LostIsHistory(states, actions, n - 1, id);
      PlacedNext(states[n - 1], actions[n - 1], id);
    }
  }

  /** In every run a submission has its sandbox.ready in the log if and only if the first step that left a sandbox
      in place for it wrote the report. */
  lemma ReadyExactly(states: seq<State>, actions: seq<Action>, n: nat, id: string)
    requires IsRun(states, actions) && n < |states|
    ensures HasReady(states[n].log, id) <==> FirstSandbox(states, actions, n, id) == Reported
  {
    RunReports(states, actions, n);
    LostIsHistory(states, actions, n, id);
  }

  /** So has, with its team, a build.complete that was committed because its sandbox already existed. */
  lemma ExistingIsReported(states: seq<State>, actions: seq<Action>, n: nat, o: nat)
    requires IsRun(states, actions) && n < |states|
    requires o in states[n].sandbox.outcomes && states[n].sandbox.outcomes[o].Existing?
    ensures var s := states[n];
            && o < |s.log| && s.log[o].BuildComplete?
            && ((exists i :: 0 <= i < |s.log| && s.log[i] == SandboxReady(s.log[o].id, s.log[o].team)) <==>
                FirstSandbox(states, actions, n, s.log[o].id) == Reported)
  {
    RunReports(states, actions, n);
    RunInv(states, actions, n);
    var s := states[n];
    assert Deployed(s, o);
    ReadyExactly(states, actions, n, s.log[o].id);
    if HasReady(s.log, s.log[o].id) {
      ReadyNamesTeam(s, o);
    }
  }

  lemma ReadyNamesTeam(s: State, o: nat)
    requires LogOk(s) && o < |s.log| && s.log[o].BuildComplete? && HasReady(s.log, s.log[o].id)
    ensures exists i :: 0 <= i < |s.log| && s.log[i] == SandboxReady(s.log[o].id, s.log[o].team)
  {
    var i :| 0 <= i < |s.log| && s.log[i].SandboxReady? && s.log[i].id == s.log[o].id;
    assert Agrees(s.issued, s.log[i]) && Agrees(s.issued, s.log[o]);
  }

  /** The first report decides for good. */
  lemma {:induction false} FirstStays(states: seq<State>, actions: seq<Action>, m: nat, n: nat, id: string)
    requires m <= n <= |actions| < |states| && FirstSandbox(states, actions, m, id) != NoSandbox
    ensures FirstSandbox(states, actions, n, id) == FirstSandbox(states, actions, m, id)
  {
    if m < n {
      FirstStays(states, actions, m, n - 1, id);
    }
  }

  /** A submission whose first sandbox went unreported is never reported ready and never tested: every later
      delivery finds the sandbox in place. */
  lemma LostForever(states: seq<State>, actions: seq<Action>, m: nat, n: nat, id: string)
    requires IsRun(states, actions) && m <= n < |states| && FirstSandbox(states, actions, m, id) == Unreported
    ensures id in states[n].pods
    ensures forall i :: 0 <= i < |states[n].log| ==>
              var e := states[n].log[i]; (e.SandboxReady? || e.TestComplete?) ==> e.id != id
  {
    FirstStays(states, actions, m, n, id);
    LostIsHistory(states, actions, n, id);
    RunReports(states, actions, n);
    RunInv(states, actions, n);
    Untested(states[n], id);
  }

  lemma Untested(s: State, id: string)
    requires LogOk(s) && !HasReady(s.log, id)
    ensures forall i :: 0 <= i < |s.log| ==>
              var e := s.log[i]; (e.SandboxReady? || e.TestComplete?) ==> e.id != id
  {
    forall i | 0 <= i < |s.log| && s.log[i].TestComplete? ensures s.log[i].id != id {
      assert Caused(s.log, i);
    }
  }

  // ---------- Two runs that end badly ----------

  ghost predicate Reachable(s: State) {
    exists states, actions :: IsRun(states, actions) && s == states[|actions|]
  }

  lemma ReachableStep(s: State, a: Action)
    requires Reachable(s)
    ensures Reachable(Step(s, a))
  {
    var states, actions :| IsRun(states, actions) && s == states[|actions|];
    var states', actions' := states + [Step(s, a)], actions + [a];
    assert IsRun(states', actions') && states'[|actions'|] == Step(s, a);
  }

  /** A submission is announced. */
  lemma OneCreated() returns (s: State)
    ensures Reachable(s) && s.log == [Created("x", "go", "t")] && s.build == s.sandbox == Start && s.pods == {}
  {
    var r := Submission("go", "t");
    var states, actions: seq<Action> := [Initial], [];
    assert IsRun(states, actions) && states[|actions|] == Initial;
    ReachableStep(Initial, Register("x", r));
    var s1 := Step(Initial, Register("x", r));
    ReachableStep(s1, Confirm("x"));
    var s2 := Step(s1, Confirm("x"));
    ReachableStep(s2, Announce("x", r, Sent));
    s := Step(s2, Announce("x", r, Sent));
  }

  /** When a poll reports errors beside a record, the record is skipped and the next commit passes it: the
      submission is never built. */
  lemma DropLosesBuild() returns (s: State)
    ensures Reachable(s) && s.log == [Created("x", "go", "t"), Malformed]
    ensures s.build.committed == 2 && 0 !in s.build.outcomes
  {
    var s0 := OneCreated();
    ReachableStep(s0, Noise);
    var s1 := Step(s0, Noise);
    ReachableStep(s1, DropRecords(Build, 1));
    var s2 := Step(s1, DropRecords(Build, 1));
    assert s2.log == [Created("x", "go", "t"), Malformed] && s2.build.next == 1 && s2.build.outcomes == map[];
    ReachableStep(s2, Handle(Build, AlreadyExists));
    var s3 := Step(s2, Handle(Build, AlreadyExists));
    ReachableStep(s3, Commit(Build, true, true));
    s := Step(s3, Commit(Build, true, true));
  }

  /** When the report of a new sandbox is lost, the redelivery finds the sandbox in place and commits without
      reporting it: no test ever starts. */
  lemma LostReportIsNotRetried() returns (s: State)
    ensures Reachable(s) && s.log == [Created("x", "go", "t"), BuildComplete("x", "go", "t")]
    ensures s.sandbox.committed == 2 && 1 in s.sandbox.outcomes && s.sandbox.outcomes[1] == Existing
  {
    var s0 := OneCreated();
    ReachableStep(s0, Handle(Build, Succeeds(Sent)));
    var s1 := Step(s0, Handle(Build, Succeeds(Sent)));
    assert s1.log == [Created("x", "go", "t"), BuildComplete("x", "go", "t")] && s1.sandbox == Start && s1.pods == {};
    ReachableStep(s1, Handle(Sandbox, AlreadyExists));
    var s2 := Step(s1, Handle(Sandbox, AlreadyExists));
    ReachableStep(s2, Commit(Sandbox, true, true));
    var s3 := Step(s2, Commit(Sandbox, true, true));
    assert s3.sandbox.committed == s3.sandbox.next == 1 && s3.sandbox.done.None?;
    ReachableStep(s3, Handle(Sandbox, Succeeds(Lost)));
    var s4 := Step(s3, Handle(Sandbox, Succeeds(Lost)));
    assert s4.pods == {"x"} && s4.log == s1.log && s4.sandbox.next == 1;
    ReachableStep(s4, Handle(Sandbox, AlreadyExists));
    var s5 := Step(s4, Handle(Sandbox, AlreadyExists));
    ReachableStep(s5, Commit(Sandbox, true, true));
    s := Step(s5, Commit(Sandbox, true, true));
  }
}
