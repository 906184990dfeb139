/** The telemetry ingester: events are buffered in memory, taken off in batches, and written with retries, while
    further events keep arriving. */
module TelemetryIngester {
  import opened Options

  datatype Metrics = Metrics(p50: int, p90: int, p99: int, tps: real, correctness: real, composite: real)

  /** A scored event. */
  datatype Scored = Scored(id: string, team: string, run: string, emitted: int, metrics: Metrics)

  /** An event as one attempt writes it, scored at time `at`. */
  datatype Entry = Entry(event: Scored, at: int)

  /** A row of the score table. */
  datatype Row = Row(team: string, metrics: Metrics, scoredAt: int)

  type Table = map<string, Row>

  // ---------- The score table ----------

  /** Insert, or on conflict update everything but the team name. */
  function Upsert(t: Table, e: Entry): Table {
    var id := e.event.id;
    t[id := Row(if id in t then t[id].team else e.event.team, e.event.metrics, e.at)]
  }

  /** Write a batch, event by event. */
  function Apply(t: Table, w: seq<Entry>): Table {
    if w == [] then t else Upsert(Apply(t, w[..|w| - 1]), w[|w| - 1])
  }

  function Lookup(t: Table, id: string): Option<Row> { if id in t then Some(t[id]) else None }

  /** The team name of the first entry about `id`. */
  function FirstTeam(w: seq<Entry>, id: string): Option<string> {
    if w == [] then None
    else
      var f := FirstTeam(w[..|w| - 1], id);
      if f.Some? then f else if w[|w| - 1].event.id == id then Some(w[|w| - 1].event.team) else None
  }

  /** The last entry about `id`. */
  function LastEntry(w: seq<Entry>, id: string): Option<Entry> {
    if w == [] then None
    else if w[|w| - 1].event.id == id then Some(w[|w| - 1])
    else LastEntry(w[..|w| - 1], id)
  }

  /** The row for `id` once `w` has been written over `before`. */
  function RowAfter(before: Option<Row>, w: seq<Entry>, id: string): Option<Row> {
    match (before, FirstTeam(w, id), LastEntry(w, id))
    case (Some(row), _, Some(e)) => Some(Row(row.team, e.event.metrics, e.at))
    case (None, Some(team), Some(e)) => Some(Row(team, e.event.metrics, e.at))
    case _ => before
  }

  /** What writing does to each row: an existing team name stays, a new one is the first written, and the metrics
      and the time are the last written. */
  lemma {:induction false} ApplyRow(t: Table, w: seq<Entry>, id: string)
    ensures Lookup(Apply(t, w), id) == RowAfter(Lookup(t, id), w, id)
    ensures FirstTeam(w, id).Some? <==> LastEntry(w, id).Some?
  {
    if w != [] {
      ApplyRow(t, w[..|w| - 1], id);
    }
  }

  lemma {:induction false} FirstTeamIs(w: seq<Entry>, id: string, i: nat)
    requires i < |w| && w[i].event.id == id && forall j :: 0 <= j < i ==> w[j].event.id != id
    ensures FirstTeam(w, id) == Some(w[i].event.team)
  {
    if i < |w| - 1 {
      FirstTeamIs(w[..|w| - 1], id, i);
    } else {
      NoTeam(w[..i], id);
    }
  }

  lemma {:induction false} NoTeam(w: seq<Entry>, id: string)
    requires forall j :: 0 <= j < |w| ==> w[j].event.id != id
    ensures FirstTeam(w, id) == None && LastEntry(w, id) == None
  {
    if w != [] {
      NoTeam(w[..|w| - 1], id);
    }
  }

  lemma {:induction false} LastEntryIs(w: seq<Entry>, id: string, i: nat)
    requires i < |w| && w[i].event.id == id && forall j :: i < j < |w| ==> w[j].event.id != id
    ensures LastEntry(w, id) == Some(w[i])
  {
    if i < |w| - 1 {
      LastEntryIs(w[..|w| - 1], id, i);
    }
  }

  /** After the writes `w`, the row for an id holds the team name first written for it, and the metrics and the
      time last written. */
  lemma ScoreRow(w: seq<Entry>, id: string, first: nat, last: nat)
    requires first <= last < |w| && w[first].event.id == id && w[last].event.id == id
    requires (forall j :: 0 <= j < first ==> w[j].event.id != id) && (forall j :: last < j < |w| ==> w[j].event.id != id)
    ensures Lookup(Apply(map[], w), id) == Some(Row(w[first].event.team, w[last].event.metrics, w[last].at))
  {
    ApplyRow(map[], w, id);
    FirstTeamIs(w, id, first);
    LastEntryIs(w, id, last);
  }

  /** An id has a row if and only if it was written. */
  lemma HasRow(w: seq<Entry>, id: string)
    ensures id in Apply(map[], w) <==> exists j :: 0 <= j < |w| && w[j].event.id == id
  {
    ApplyRow(map[], w, id);
    if forall j :: 0 <= j < |w| ==> w[j].event.id != id {
      NoTeam(w, id);
    } else {
      HasTeam(w, id);
    }
  }

  lemma {:induction false} HasTeam(w: seq<Entry>, id: string)
    requires exists j :: 0 <= j < |w| && w[j].event.id == id
    ensures FirstTeam(w, id).Some?
  {
    var n := |w| - 1;
    if w[n].event.id != id {
      var j :| 0 <= j < |w| && w[j].event.id == id;
      assert w[..n][j] == w[j];
      HasTeam(w[..n], id);
    }
  }

  function Events(w: seq<Entry>): seq<Scored> {
    seq(|w|, i requires 0 <= i < |w| => w[i].event)
  }

  lemma {:induction false} SameEvents(w: seq<Entry>, w': seq<Entry>, id: string)
    requires Events(w) == Events(w')
    ensures FirstTeam(w, id) == FirstTeam(w', id) && (LastEntry(w, id).Some? <==> LastEntry(w', id).Some?)
  {
    assert |w| == |Events(w)| == |w'|;
    if w != [] {
      var n := |w| - 1;
      assert w[n].event == Events(w)[n] == w'[n].event;
      assert Events(w[..n]) == Events(w)[..n] == Events(w')[..n] == Events(w'[..n]);
      SameEvents(w[..n], w'[..n], id);
    }
  }

  /** Writing a batch again, at other times, leaves the table as if it had been written only then. */
  lemma ApplyAgain(t: Table, w: seq<Entry>, w': seq<Entry>)
    requires Events(w) == Events(w')
    ensures Apply(Apply(t, w), w') == Apply(t, w')
  {
    var once, twice := Apply(t, w'), Apply(Apply(t, w), w');
    forall id ensures Lookup(twice, id) == Lookup(once, id) {
      ApplyRow(t, w, id);
      ApplyRow(t, w', id);
      ApplyRow(Apply(t, w), w', id);
      SameEvents(w, w', id);
    }
    SameRows(once, twice);
  }

  lemma SameRows(t: Table, u: Table)
    requires forall id :: Lookup(t, id) == Lookup(u, id)
    ensures t == u
  {
    forall id ensures id in t <==> id in u {
      assert Lookup(t, id) == Lookup(u, id);
    }
    forall id | id in t ensures t[id] == u[id] {
      assert Lookup(t, id) == Lookup(u, id);
    }
  }

  lemma {:induction false} ApplyConcat(t: Table, a: seq<Entry>, b: seq<Entry>)
    ensures Apply(t, a + b) == Apply(Apply(t, a), b)
  {
    if b == [] {
      assert a + b == a;
    } else {
      var c := b[..|b| - 1];
      ApplyConcat(t, a, c);
      assert (a + b)[..|a + b| - 1] == a + c;
    }
  }

  // ---------- Buffering, taking and writing as interleaved steps ----------

  /** A batch taken off the buffer: how often it was tried, and what each attempt that reached the tables wrote. */
  datatype Batch = Batch(items: seq<Scored>, tries: nat, landed: seq<seq<Entry>>)

  /** `writing` says that the last batch is still being tried. `handled` is history: every event that came in. */
  datatype State = State(handled: seq<Scored>, buffer: seq<Scored>, batches: seq<Batch>, writing: bool,
                         rows: Table, telemetry: seq<Scored>)

  const Initial := State([], [], [], false, map[], [])

  /** An attempt writes everything or nothing. It may be reported as failed although it went through; and as written
      although it did not, since an error on closing the results is dropped. */
  datatype Action =
    | Arrival(e: Scored)
    | TakeOff
    | Attempt(times: seq<int>, lands: bool, reported: bool)
    | GiveUp

  const TRIES := 3

  function Stamped(items: seq<Scored>, times: seq<int>): seq<Entry>
    requires |times| == |items|
  {
    seq(|items|, i requires 0 <= i < |items| => Entry(items[i], times[i]))
  }

  function Tried(b: Batch, times: seq<int>, lands: bool): Batch
    requires |times| == |b.items|
  {
    Batch(b.items, b.tries + 1, if lands then b.landed + [Stamped(b.items, times)] else b.landed)
  }

  function Step(s: State, a: Action): State {
    match a
    case Arrival(e) => s.(handled := s.handled + [e], buffer := s.buffer + [e])
    case TakeOff =>
      if s.writing || s.buffer == [] then s
      else s.(buffer := [], batches := s.batches + [Batch(s.buffer, 0, [])], writing := true)
    case Attempt(times, lands, reported) =>
      if !s.writing || s.batches == [] || |times| != |s.batches[|s.batches| - 1].items| then s
      else
        var n := |s.batches| - 1;
        var b := s.batches[n];
        State(s.handled, s.buffer, s.batches[..n] + [Tried(b, times, lands)],
              !reported && b.tries + 1 < TRIES,
              if lands then Apply(s.rows, Stamped(b.items, times)) else s.rows,
              if lands then s.telemetry + b.items else s.telemetry)
    case GiveUp =>
      if s.writing && s.batches != [] && s.batches[|s.batches| - 1].tries > 0 then s.(writing := false) else s
  }

  /** A run: one step after another, whichever goroutine makes it. */
  datatype Run = Begin | Then(before: Run, a: Action) {
    predicate Extends(r: Run) { this == r || (Then? && before.Extends(r)) }
  }

  /** The state a run leads to. */
  function After(r: Run): State {
    match r
    case Begin => Initial
    case Then(before, a) => Step(After(before), a)
  }

  // ---------- What the batches add up to ----------

  /** All events taken off, in order. */
  function Items(bs: seq<Batch>): seq<Scored> {
    if bs == [] then [] else Items(bs[..|bs| - 1]) + bs[|bs| - 1].items
  }

  /** What of a batch is in the score table: its last landing. */
  function Final(b: Batch): seq<Entry> {
    if b.landed == [] then [] else b.landed[|b.landed| - 1]
  }

  function Effective(bs: seq<Batch>): seq<Entry> {
    if bs == [] then [] else Effective(bs[..|bs| - 1]) + Final(bs[|bs| - 1])
  }

  function Repeat(items: seq<Scored>, n: nat): seq<Scored> {
    if n == 0 then [] else Repeat(items, n - 1) + items
  }

  /** Every event of every batch, once for each time the batch landed. */
  function Copies(bs: seq<Batch>): seq<Scored> {
    if bs == [] then [] else Copies(bs[..|bs| - 1]) + Repeat(bs[|bs| - 1].items, |bs[|bs| - 1].landed|)
  }

  ghost predicate BatchOk(b: Batch) {
    && b.items != [] && |b.landed| <= b.tries <= TRIES
    && forall k :: 0 <= k < |b.landed| ==> Events(b.landed[k]) == b.items
  }

  ghost predicate BatchesOk(bs: seq<Batch>) {
    forall i :: 0 <= i < |bs| ==> BatchOk(bs[i])
  }

  /** The tables hold what the batches landed. */
  ghost predicate Tables(bs: seq<Batch>, rows: Table, telemetry: seq<Scored>) {
    rows == Apply(map[], Effective(bs)) && telemetry == Copies(bs)
  }

  ghost predicate Trying(s: State) {
    s.writing ==> s.batches != [] && s.batches[|s.batches| - 1].tries < TRIES
  }

  ghost predicate Inv(s: State) {
    && Items(s.batches) + s.buffer == s.handled
    && Tables(s.batches, s.rows, s.telemetry) && BatchesOk(s.batches) && Trying(s)
  }

  lemma Appended(bs: seq<Batch>, b: Batch)
    ensures Items(bs + [b]) == Items(bs) + b.items
    ensures Effective(bs + [b]) == Effective(bs) + Final(b)
    ensures Copies(bs + [b]) == Copies(bs) + Repeat(b.items, |b.landed|)
  {
    assert (bs + [b])[..|bs|] == bs;
  }

  lemma StampedEvents(items: seq<Scored>, times: seq<int>)
    requires |times| == |items|
    ensures Events(Stamped(items, times)) == items
  {
  }

  lemma TriedOk(b: Batch, times: seq<int>, lands: bool)
    requires BatchOk(b) && b.tries < TRIES && |times| == |b.items|
    ensures BatchOk(Tried(b, times, lands))
  {
    StampedEvents(b.items, times);
  }

  /** A landing replaces what earlier landings of the same batch left in the score table. */
  lemma LandedAgain(before: seq<Entry>, b: Batch, w: seq<Entry>)
    requires BatchOk(b) && Events(w) == b.items
    ensures Apply(Apply(map[], before + Final(b)), w) == Apply(map[], before + w)
  {
    ApplyConcat(map[], before, Final(b));
    ApplyConcat(map[], before, w);
    if b.landed != [] {
      ApplyAgain(Apply(map[], before), Final(b), w);
    }
  }

  /** What one more landing of the last batch makes of the sums. */
  lemma LandingSums(front: seq<Batch>, b: Batch, times: seq<int>)
    requires |times| == |b.items|
    ensures var bs, bs' := front + [b], front + [Tried(b, times, true)];
            Items(bs') == Items(bs) && Copies(bs') == Copies(bs) + b.items
  {
    Appended(front, b);
    Appended(front, Tried(b, times, true));
    RepeatMore(Copies(front), b.items, |b.landed|);
  }

  lemma RepeatMore(front: seq<Scored>, items: seq<Scored>, n: nat)
    ensures front + Repeat(items, n + 1) == front + Repeat(items, n) + items
  {
  }

  lemma LandingRows(front: seq<Batch>, b: Batch, times: seq<int>)
    requires BatchOk(b) && |times| == |b.items|
    ensures Apply(map[], Effective(front + [Tried(b, times, true)]))
         == Apply(Apply(map[], Effective(front + [b])), Stamped(b.items, times))
  {
    var w := Stamped(b.items, times);
    Appended(front, b);
    Appended(front, Tried(b, times, true));
    StampedEvents(b.items, times);
    LandedAgain(Effective(front), b, w);
  }

  lemma FailureSums(front: seq<Batch>, b: Batch, times: seq<int>)
    requires |times| == |b.items|
    ensures var bs, bs' := front + [b], front + [Tried(b, times, false)];
            Items(bs') == Items(bs) && Copies(bs') == Copies(bs) && Effective(bs') == Effective(bs)
  {
    Appended(front, b);
    Appended(front, Tried(b, times, false));
  }

  lemma AttemptTables(front: seq<Batch>, b: Batch, times: seq<int>, lands: bool, rows: Table, telemetry: seq<Scored>)
    requires BatchOk(b) && |times| == |b.items| && Tables(front + [b], rows, telemetry)
    ensures Items(front + [Tried(b, times, lands)]) == Items(front + [b])
    ensures Tables(front + [Tried(b, times, lands)],
                   if lands then Apply(rows, Stamped(b.items, times)) else rows,
                   if lands then telemetry + b.items else telemetry)
  {
    if lands {
      LandingSums(front, b, times);
      LandingRows(front, b, times);
    } else {
      FailureSums(front, b, times);
    }
  }

  lemma AllOk(front: seq<Batch>, b: Batch)
    requires BatchOk(b) && BatchesOk(front)
    ensures BatchesOk(front + [b])
  {
  }

  lemma AttemptOk(s: State, times: seq<int>, lands: bool, reported: bool)
    requires BatchesOk(s.batches) && Trying(s) && s.writing && |times| == |s.batches[|s.batches| - 1].items|
    ensures var s' := Step(s, Attempt(times, lands, reported)); BatchesOk(s'.batches) && Trying(s')
  {
    var n := |s.batches| - 1;
    assert BatchesOk(s.batches[..n]);
    TriedOk(s.batches[n], times, lands);
    AllOk(s.batches[..n], Tried(s.batches[n], times, lands));
  }

  lemma AttemptInv(s: State, times: seq<int>, lands: bool, reported: bool)
    requires Inv(s) && s.writing && |times| == |s.batches[|s.batches| - 1].items|
    ensures Inv(Step(s, Attempt(times, lands, reported)))
  {
    var n := |s.batches| - 1;
    assert s.batches[..n] + [s.batches[n]] == s.batches;
    AttemptOk(s, times, lands, reported);
    AttemptTables(s.batches[..n], s.batches[n], times, lands, s.rows, s.telemetry);
  }

  lemma TakeOffInv(s: State)
    requires Inv(s) && !s.writing && s.buffer != []
    ensures Inv(Step(s, TakeOff))
  {
    var b := Batch(s.buffer, 0, []);
    Appended(s.batches, b);
    AllOk(s.batches, b);
    assert Effective(s.batches) + [] == Effective(s.batches) && Copies(s.batches) + [] == Copies(s.batches);
    assert Items(s.batches + [b]) + [] == s.handled;
  }

  lemma StepInv(s: State, a: Action)
    requires Inv(s)
    ensures Inv(Step(s, a))
  {
    match a
    case Arrival(e) => assert Items(s.batches) + (s.buffer + [e]) == Items(s.batches) + s.buffer + [e];
    case TakeOff =>
      if !s.writing && s.buffer != [] {
        TakeOffInv(s);
      }
    case Attempt(times, lands, reported) =>
      if s.writing && |times| == |s.batches[|s.batches| - 1].items| {
        AttemptInv(s, times, lands, reported);
      }
    case GiveUp =>
  }

  /** In every run: the batches taken so far, concatenated, and the buffer are everything handled, in order; the
      score table is as if each batch that landed had been written once, at its last landing; and the telemetry
      table holds every batch once for each landing. */
  lemma {:induction false} NothingLost(r: Run)
    ensures var s := After(r);
            && Items(s.batches) + s.buffer == s.handled
            && s.rows == Apply(map[], Effective(s.batches))
            && s.telemetry == Copies(s.batches)
            && Inv(s)
  {
    if r.Then? {
      NothingLost(r.before);
      StepInv(After(r.before), r.a);
    }
  }

  /** How a batch may change from one state to a later one. */
  ghost predicate Kept(b: Batch, b': Batch, frozen: bool) {
    b'.items == b.items && b.landed <= b'.landed && b.tries <= b'.tries && (frozen ==> b' == b)
  }

  lemma StepKeeps(s: State, a: Action, i: nat)
    requires i < |s.batches|
    ensures var s' := Step(s, a);
            && i < |s'.batches| && Kept(s.batches[i], s'.batches[i], i < |s.batches| - 1 || !s.writing)
            && ((i < |s.batches| - 1 || !s.writing) ==> (i < |s'.batches| - 1 || !s'.writing))
  {
  }

  /** A batch taken off never changes its events, whatever comes in later, and once it is no longer being tried
      nothing about it changes. */
  lemma {:induction false} BatchesStay(r: Run, r': Run, i: nat)
    requires r'.Extends(r) && i < |After(r).batches|
    ensures var s, s' := After(r), After(r');
            && i < |s'.batches| && Kept(s.batches[i], s'.batches[i], i < |s.batches| - 1 || !s.writing)
            && ((i < |s.batches| - 1 || !s.writing) ==> (i < |s'.batches| - 1 || !s'.writing))
    decreases r'
  {
    if r' != r {
      BatchesStay(r, r'.before, i);
      StepKeeps(After(r'.before), r'.a, i);
    }
  }

  // ---------- Which events end up where ----------

  lemma {:induction false} RepeatLength(items: seq<Scored>, n: nat)
    ensures |Repeat(items, n)| == n * |items|
  {
    if n > 0 {
      RepeatLength(items, n - 1);
    }
  }

  lemma {:induction false} CopiesLength(bs: seq<Batch>)
    requires BatchesOk(bs)
    ensures |Effective(bs)| <= |Copies(bs)|
    ensures |Effective(bs)| == |Copies(bs)| <==> forall i :: 0 <= i < |bs| ==> |bs[i].landed| <= 1
  {
    if bs != [] {
      var front, b := bs[..|bs| - 1], bs[|bs| - 1];
      CopiesLength(front);
      RepeatLength(b.items, |b.landed|);
      if b.landed != [] {
        assert Events(Final(b)) == b.items;
        assert |Final(b)| == |b.items| > 0;
        Times(|b.landed|, |b.items|);
      }
      assert forall i :: 0 <= i < |front| ==> front[i] == bs[i];
    }
  }

  lemma Times(n: nat, k: nat)
    requires n > 0 && k > 0
    ensures n * k >= k && (n * k == k <==> n == 1)
  {
    if n > 1 {
      assert n * k == (n - 1) * k + k;
    }
  }

  lemma EventsConcat(w: seq<Entry>, w': seq<Entry>)
    ensures Events(w + w') == Events(w) + Events(w')
  {
  }

  lemma CopyOnce(b: Batch)
    requires BatchOk(b) && |b.landed| <= 1
    ensures Repeat(b.items, |b.landed|) == Events(Final(b))
  {
    if b.landed != [] {
      assert Repeat(b.items, 1) == Repeat(b.items, 0) + b.items == b.items;
    }
  }

  lemma {:induction false} CopiesOnce(bs: seq<Batch>)
    requires BatchesOk(bs) && forall i :: 0 <= i < |bs| ==> |bs[i].landed| <= 1
    ensures Copies(bs) == Events(Effective(bs))
  {
    if bs != [] {
      var front, b := bs[..|bs| - 1], bs[|bs| - 1];
      CopiesOnce(front);
      CopyOnce(b);
      EventsConcat(Effective(front), Final(b));
    }
  }

  // ---------- What became of each batch, told from the steps of the run ----------

  /** The step is an attempt at batch `i`. */
  ghost predicate Tries(s: State, a: Action, i: nat) {
    && a.Attempt? && s.writing && i + 1 == |s.batches| && |a.times| == |s.batches[i].items|
  }

  ghost function Attempts(r: Run, i: nat): seq<Action> {
    match r
    case Begin => []
    case Then(before, a) => Attempts(before, i) + if Tries(After(before), a, i) then [a] else []
  }

  /** The last attempt at the batch was taken for a success. */
  ghost predicate Acknowledged(attempts: seq<Action>) {
    attempts != [] && attempts[|attempts| - 1].Attempt? && attempts[|attempts| - 1].reported
  }

  /** A flush was cancelled between attempts at batch `i`. */
  ghost predicate Cancelled(r: Run, i: nat) {
    && r.Then?
    && (|| Cancelled(r.before, i)
        || (&& r.a.GiveUp? && After(r.before).writing && i + 1 == |After(r.before).batches|
            && After(r.before).batches[i].tries > 0))
  }

  ghost function Landings(items: seq<Scored>, attempts: seq<Action>): seq<seq<Entry>> {
    if attempts == [] then []
    else
      var a := attempts[|attempts| - 1];
      Landings(items, attempts[..|attempts| - 1])
        + if a.Attempt? && a.lands && |a.times| == |items| then [Stamped(items, a.times)] else []
  }

  ghost predicate Lands(a: Action) { a.Attempt? && a.lands }

  /** Batch `i` is no longer being tried. */
  predicate Finished(s: State, i: nat) { i < |s.batches| && (i + 1 < |s.batches| || !s.writing) }

  ghost predicate BatchStory(r: Run, i: nat)
    requires i < |After(r).batches|
  {
    var s, tried := After(r), Attempts(r, i);
    var b := s.batches[i];
    && b.tries == |tried| <= TRIES && b.landed == Landings(b.items, tried)
    && (forall k :: 0 <= k < |tried| ==> tried[k].Attempt? && |tried[k].times| == |b.items|)
    && (forall k :: 0 <= k < |tried| - 1 ==> !tried[k].reported)
    && (Cancelled(r, i) ==> |tried| < TRIES && !Acknowledged(tried))
    && (Finished(s, i) <==> |tried| == TRIES || Acknowledged(tried) || Cancelled(r, i))
  }

  lemma {:induction false} NothingYet(r: Run, i: nat)
    requires i >= |After(r).batches|
    ensures Attempts(r, i) == [] && !Cancelled(r, i)
  {
    if r.Then? {
      NothingYet(r.before, i);
    }
  }

  lemma LandingsMore(items: seq<Scored>, attempts: seq<Action>, a: Action)
    ensures Landings(items, attempts + [a])
         == Landings(items, attempts)
            + if a.Attempt? && a.lands && |a.times| == |items| then [Stamped(items, a.times)] else []
  {
    assert (attempts + [a])[..|attempts|] == attempts;
  }

  lemma StoryAttempt(r: Run, a: Action, i: nat)
    requires i < |After(r).batches| && BatchStory(r, i) && Tries(After(r), a, i) && Trying(After(r))
    ensures i < |After(Then(r, a)).batches| && BatchStory(Then(r, a), i)
  {
    LandingsMore(After(r).batches[i].items, Attempts(r, i), a);
  }

  lemma StoryOther(r: Run, a: Action, i: nat)
    requires i < |After(r).batches| && BatchStory(r, i) && !Tries(After(r), a, i) && Trying(After(r))
    ensures i < |After(Then(r, a)).batches| && BatchStory(Then(r, a), i)
  {
    assert Attempts(Then(r, a), i) == Attempts(r, i);
  }

  lemma StoryBegins(r: Run, a: Action, i: nat)
    requires |After(r).batches| <= i < |After(Then(r, a)).batches|
    ensures BatchStory(Then(r, a), i)
  {
    NothingYet(r, i);
    assert a.TakeOff? && After(Then(r, a)) == Step(After(r), a);
    assert Attempts(Then(r, a), i) == [];
  }

  lemma {:induction false} Story(r: Run, i: nat)
    requires i < |After(r).batches|
    ensures BatchStory(r, i)
  {
    var s := After(r.before);
    if i >= |s.batches| {
      StoryBegins(r.before, r.a, i);
    } else {
      Story(r.before, i);
      StillTrying(r.before);
      if Tries(s, r.a, i) {
        StoryAttempt(r.before, r.a, i);
      } else {
        StoryOther(r.before, r.a, i);
      }
    }
  }

  lemma StillTrying(r: Run)
    ensures Trying(After(r))
  {
    NothingLost(r);
  }

  ghost predicate Landed(attempts: seq<Action>) {
    exists k :: 0 <= k < |attempts| && Lands(attempts[k])
  }

  lemma {:induction false} LandingsExist(items: seq<Scored>, attempts: seq<Action>)
    requires forall k :: 0 <= k < |attempts| ==> attempts[k].Attempt? && |attempts[k].times| == |items|
    ensures Landings(items, attempts) == [] <==> !Landed(attempts)
  {
    if attempts != [] {
      var front := attempts[..|attempts| - 1];
      LandingsExist(items, front);
      assert forall k :: 0 <= k < |front| ==> attempts[k] == front[k];
    }
  }

  ghost predicate Twice(attempts: seq<Action>) {
    exists k, l :: 0 <= k < l < |attempts| && Lands(attempts[k]) && Lands(attempts[l])
  }

  lemma TwiceMore(attempts: seq<Action>, a: Action)
    ensures Twice(attempts + [a]) <==> Twice(attempts) || (Landed(attempts) && Lands(a))
  {
    var more := attempts + [a];
    assert more[|attempts|] == a && forall k :: 0 <= k < |attempts| ==> more[k] == attempts[k];
    if Twice(attempts) {
      var k, l :| 0 <= k < l < |attempts| && Lands(attempts[k]) && Lands(attempts[l]);
      assert Lands(more[k]) && Lands(more[l]);
    }
    if Landed(attempts) && Lands(a) {
      var k :| 0 <= k < |attempts| && Lands(attempts[k]);
      assert Lands(more[k]) && Lands(more[|attempts|]);
    }
  }

  lemma {:induction false} LandingsTwice(items: seq<Scored>, attempts: seq<Action>)
    requires forall k :: 0 <= k < |attempts| ==> attempts[k].Attempt? && |attempts[k].times| == |items|
    ensures |Landings(items, attempts)| <= 1 <==> !Twice(attempts)
  {
    if attempts != [] {
      var front, a := attempts[..|attempts| - 1], attempts[|attempts| - 1];
      LandingsTwice(items, front);
      LandingsExist(items, front);
      assert front + [a] == attempts;
      TwiceMore(front, a);
    }
  }

  /** In every run, a batch that is no longer being tried is missing from the tables if and only if none of the
      attempts at it landed; and this without three attempts reported as failed if and only if, besides, its flush
      was cancelled or its last attempt was taken for a success. */
  lemma LostExactly(r: Run, i: nat)
    requires Finished(After(r), i)
    ensures var tried, b := Attempts(r, i), After(r).batches[i];
            && (b.landed == [] <==> !Landed(tried))
            && ((|tried| == 3 && !Acknowledged(tried)) <==> !(Cancelled(r, i) || Acknowledged(tried)))
            && (forall k :: 0 <= k < |tried| - 1 ==> tried[k].Attempt? && !tried[k].reported)
  {
    Story(r, i);
    StoryLands(r, i);
  }

  lemma StoryLands(r: Run, i: nat)
    requires i < |After(r).batches| && BatchStory(r, i)
    ensures var tried, b := Attempts(r, i), After(r).batches[i];
            && (b.landed == [] <==> !Landed(tried))
            && (|b.landed| <= 1 <==> !Twice(tried))
  {
    LandingsExist(After(r).batches[i].items, Attempts(r, i));
    LandingsTwice(After(r).batches[i].items, Attempts(r, i));
  }

  /** That can happen at the first attempt: the events are in no table and will not be tried again. */
  lemma LostSilently(e: Scored, t: int) returns (r: Run)
    ensures Finished(After(r), 0) && |Attempts(r, 0)| == 1 && After(r).batches[0].items == [e]
    ensures After(r).telemetry == [] && After(r).rows == map[] && After(r).buffer == []
  {
    var r1 := Then(Begin, Arrival(e));
    assert After(r1).buffer == [e] && After(r1).batches == [];
    var r2 := Then(r1, TakeOff);
    assert After(r2) == Step(After(r1), TakeOff);
    assert After(r2).batches == [Batch([e], 0, [])];
    NothingYet(r1, 0);
    assert Attempts(r2, 0) == [];
    r := Then(r2, Attempt([t], false, true));
    assert After(r) == Step(After(r2), Attempt([t], false, true));
  }

  lemma OnceAt(r: Run, i: nat)
    requires i < |After(r).batches|
    ensures |After(r).batches[i].landed| <= 1 <==> !Twice(Attempts(r, i))
  {
    Story(r, i);
    StoryLands(r, i);
  }

  /** No batch landed twice, told from the batches and from the steps. */
  ghost predicate AllOnce(bs: seq<Batch>) {
    forall i :: 0 <= i < |bs| ==> |bs[i].landed| <= 1
  }

  ghost predicate NoneTwice(r: Run, n: nat) {
    forall i :: 0 <= i < n ==> !Twice(Attempts(r, i))
  }

  lemma OnceExactly(r: Run)
    ensures AllOnce(After(r).batches) <==> NoneTwice(r, |After(r).batches|)
  {
    forall i: nat | i < |After(r).batches| ensures |After(r).batches[i].landed| <= 1 <==> !Twice(Attempts(r, i)) {
      OnceAt(r, i);
    }
  }

  /** The telemetry table holds exactly the events that are in the score table, in order, if and only if no batch
      had two attempts that landed. The first of two is one that was reported as failed, by `LostExactly`. */
  lemma TelemetryExactly(r: Run)
    ensures var s := After(r); s.telemetry == Events(Effective(s.batches)) <==> NoneTwice(r, |s.batches|)
  {
    OnceExactly(r);
    NothingLost(r);
    CopiesExactly(After(r).batches);
  }

  lemma CopiesExactly(bs: seq<Batch>)
    requires BatchesOk(bs)
    ensures Copies(bs) == Events(Effective(bs)) <==> AllOnce(bs)
  {
    CopiesLength(bs);
    if AllOnce(bs) {
      CopiesOnce(bs);
    }
  }

  lemma LandsOnce(s: State, e: Scored, t: int, reported: bool)
    requires s.writing && s.batches != [] && s.batches[|s.batches| - 1].items == [e]
    ensures var s' := Step(s, Attempt([t], true, reported));
            && s'.batches != [] && s'.batches[|s'.batches| - 1].items == [e]
            && s'.batches[|s'.batches| - 1].tries == s.batches[|s.batches| - 1].tries + 1
            && s'.writing == (!reported && s.batches[|s.batches| - 1].tries + 1 < TRIES)
            && s'.telemetry == s.telemetry + [e] && s'.rows == Upsert(s.rows, Entry(e, t))
  {
    var w := Stamped([e], [t]);
    assert w == [Entry(e, t)] && w[..0] == [];
    assert Apply(s.rows, w) == Upsert(Apply(s.rows, w[..0]), w[0]);
  }

  /** It is not so when an attempt goes through and is reported as failed: the retry inserts the events again. */
  lemma TelemetryDoubled(e: Scored, t: int, t': int) returns (r: Run)
    ensures After(r).telemetry == [e, e] && After(r).rows == map[e.id := Row(e.team, e.metrics, t')]
  {
    var r1 := Then(Begin, Arrival(e));
    assert After(r1).buffer == [e] && After(r1).batches == [];
    var r2 := Then(r1, TakeOff);
    assert After(r2) == Step(After(r1), TakeOff);
    LandsOnce(After(r2), e, t, false);
    var r3 := Then(r2, Attempt([t], true, false));
    assert After(r3) == Step(After(r2), Attempt([t], true, false));
    LandsOnce(After(r3), e, t', true);
    r := Then(r3, Attempt([t'], true, true));
    assert After(r) == Step(After(r3), Attempt([t'], true, true));
  }

  // ---------- One flush ----------

  /** Only events came in between. */
  ghost predicate Arrivals(r: Run, r': Run) {
    r' == r || (r'.Then? && r'.a.Arrival? && Arrivals(r, r'.before))
  }

  /** What the flush that began after `r` has done by `r'`: what was buffered is a batch of its own, tried `tries`
      times, the last of them with success if `ok`; earlier batches are as they were; and what came in since is in
      the buffer. */
  ghost predicate Flushing(r: Run, r': Run, tries: nat, ok: bool) {
    var s, s' := After(r), After(r');
    var n := |s.batches|;
    && r'.Extends(r) && s.handled <= s'.handled && s'.buffer == s'.handled[|s.handled|..]
    && |s'.batches| == n + 1 && s'.batches[..n] == s.batches
    && s'.batches[n].items == s.buffer && s'.batches[n].tries == tries && ok == Acknowledged(Attempts(r', n))
  }

  /** The end of a flush: nothing is being written, and if there was anything to flush, the score table is as if
      the batch was written once, or not at all if no attempt went through. */
  ghost predicate Flushed(r: Run, r': Run, ok: bool) {
    var s, s' := After(r), After(r');
    && !s'.writing
    && if s.buffer == [] then r' == r
       else && (exists tries :: 0 < tries <= 3 && Flushing(r, r', tries, ok))
            && s'.rows == Apply(s.rows, Final(s'.batches[|s.batches|]))
  }

  lemma FlushingBegins(r: Run)
    requires !After(r).writing && After(r).buffer != []
    ensures Flushing(r, Then(r, TakeOff), 0, false) && After(Then(r, TakeOff)).writing
  {
    NothingYet(r, |After(r).batches|);
  }

  lemma {:induction false} FlushingArrivals(r: Run, r1: Run, r2: Run, tries: nat, ok: bool)
    requires Flushing(r, r1, tries, ok) && Arrivals(r1, r2)
    ensures Flushing(r, r2, tries, ok) && After(r2).writing == After(r1).writing
    decreases r2
  {
    if r2 != r1 {
      FlushingArrivals(r, r1, r2.before, tries, ok);
    }
  }

  lemma AttemptAcknowledged(r: Run, a: Action, i: nat)
    requires Tries(After(r), a, i)
    ensures Acknowledged(Attempts(Then(r, a), i)) == a.reported
  {
  }

  lemma FlushingAttempt(r: Run, r': Run, tries: nat, a: Action)
    requires Flushing(r, r', tries, false) && After(r').writing && a.Attempt? && |a.times| == |After(r).buffer|
    ensures Flushing(r, Then(r', a), tries + 1, a.reported)
    ensures After(Then(r', a)).writing == (!a.reported && tries + 1 < TRIES)
  {
    AttemptAcknowledged(r', a, |After(r).batches|);
  }

  lemma FlushingEnds(r: Run, r': Run, tries: nat, ok: bool)
    requires Flushing(r, r', tries, ok) && 0 < tries <= TRIES && !After(r').writing && After(r).buffer != []
    ensures Flushed(r, r', ok)
  {
    NothingLost(r);
    NothingLost(r');
    LastWritten(After(r).batches, After(r').batches);
  }

  lemma LastWritten(bs: seq<Batch>, bs': seq<Batch>)
    requires |bs'| == |bs| + 1 && bs'[..|bs|] == bs
    ensures Apply(map[], Effective(bs')) == Apply(Apply(map[], Effective(bs)), Final(bs'[|bs|]))
  {
    ApplyConcat(map[], Effective(bs), Final(bs'[|bs|]));
  }

  lemma GivenUp(r: Run, r': Run, tries: nat)
    requires Flushing(r, r', tries, false) && After(r').writing && 0 < tries <= TRIES && After(r).buffer != []
    ensures Flushed(r, Then(r', GiveUp), false) && !After(Then(r', GiveUp)).writing
    ensures var s, s' := After(r'), After(Then(r', GiveUp));
            s'.batches == s.batches && s'.buffer == s.buffer && s'.rows == s.rows && s'.telemetry == s.telemetry
  {
    assert Flushing(r, Then(r', GiveUp), tries, false);
    FlushingEnds(r, Then(r', GiveUp), tries, false);
  }

  lemma Attempted(s: State, times: seq<int>, lands: bool, reported: bool)
    requires s.writing && s.batches != [] && |times| == |s.batches[|s.batches| - 1].items|
    ensures var s', items := Step(s, Attempt(times, lands, reported)), s.batches[|s.batches| - 1].items;
            && s'.buffer == s.buffer && |s'.batches| == |s.batches|
            && (forall i :: 0 <= i < |s.batches| ==> s'.batches[i].items == s.batches[i].items)
            && s'.rows == (if lands then Apply(s.rows, Stamped(items, times)) else s.rows)
            && s'.telemetry == (if lands then s.telemetry + items else s.telemetry)
  {
  }

  // ---------- The ingester ----------

  const BLANK := Scored("", "", "", 0, Metrics(0, 0, 0, 0.0, 0.0, 0.0))

  class Ingester {
    var buffer: array<Scored>   // the backing array, reused from batch to batch
    var len: nat                // how much of it is in use
    var rows: Table
    var telemetry: seq<Scored>
    ghost var taken: seq<array<Scored>>       // the batches taken off so far
    ghost var history: Run                    // every step so far

    constructor ()
      ensures Valid() && history == Begin && fresh(buffer)
    {
      buffer := new Scored[1000](_ => BLANK);
      len, rows, telemetry := 0, map[], [];
      taken, history := [], Begin;
    }

    ghost function Now(): State
      reads this
    {
      After(history)
    }

    /** Buffer and tables are those of the run made so far, and no array handed out as a batch is the buffer or
        has changed. */
    ghost predicate Valid()
      reads this, buffer, taken
    {
      && len <= buffer.Length && buffer[..len] == Now().buffer
      && rows == Now().rows && telemetry == Now().telemetry
      && |taken| == |Now().batches|
      && (forall i :: 0 <= i < |taken| ==> taken[i] != buffer && taken[i][..] == Now().batches[i].items)
    }

    /** A larger backing array with the same contents. */
    method Grown() returns (grown: array<Scored>)
      requires len <= buffer.Length
      ensures fresh(grown) && grown.Length > len && grown[..len] == buffer[..len]
    {
      grown := new Scored[2 * len + 1](i => BLANK);
      for i := 0 to len
        invariant grown[..i] == buffer[..i]
      {
        grown[i] := buffer[i];
      }
    }

    /** Append to the buffer, which grows when it is full. */
    method Handle(e: Scored)
      requires Valid()
      modifies this`buffer, this`len, this`history, buffer
      ensures Valid() && history == Then(old(history), Arrival(e))
      ensures buffer == old(buffer) || fresh(buffer)
    {
      if len == buffer.Length {
        buffer := Grown();
      }
      buffer[len] := e;
      assert buffer[..len + 1] == old(buffer[..len]) + [e];
      len, history := len + 1, Then(history, Arrival(e));
    }

    /** Take what is buffered off as a batch of its own; the backing array is kept for what comes next. */
    method Take() returns (batch: array<Scored>)
      requires Valid() && !Now().writing && len > 0
      modifies this`len, this`taken, this`history
      ensures Valid() && history == Then(old(history), TakeOff)
      ensures fresh(batch) && batch[..] == old(buffer[..len]) && taken == old(taken) + [batch]
    {
      batch := new Scored[len](i requires 0 <= i < len <= buffer.Length reads this, buffer => buffer[i]);
      assert batch[..] == buffer[..len];
      len, taken, history := 0, taken + [batch], Then(history, TakeOff);
    }

    /** What the statements queued for a batch make of the score table, with the time each was queued. */
    method Queue(batch: array<Scored>) returns (times: seq<int>, table: Table)
      ensures |times| == batch.Length && table == Apply(rows, Stamped(batch[..], times))
    {
      times, table := [], rows;
      for i := 0 to batch.Length
        invariant |times| == i && table == Apply(rows, Stamped(batch[..i], times))
      {
        var at: int := *;
        StampedAppend(batch[..i], times, batch[i], at);
        assert batch[..i] + [batch[i]] == batch[..i + 1];
        times, table := times + [at], Upsert(table, Entry(batch[i], at));
      }
      assert batch[..batch.Length] == batch[..];
    }

    /** One attempt at the batch, all or nothing, whatever is reported. */
    method WriteBatch(batch: array<Scored>) returns (ok: bool)
      requires Valid() && Now().writing && taken != [] && batch == taken[|taken| - 1]
      modifies this`rows, this`telemetry, this`history
      ensures Valid() && history.Then? && history.before == old(history)
      ensures history.a.Attempt? && |history.a.times| == batch.Length && ok == history.a.reported
    {
      assert batch[..] == Now().batches[|taken| - 1].items;
      var times, table := Queue(batch);
      var lands: bool := *;
      if lands {
        rows, telemetry := table, telemetry + batch[..];
      }
      ok := *;
      Attempted(Now(), times, lands, ok);
      history := Then(history, Attempt(times, lands, ok));
    }

    /** What the consumer handles while a flush does not hold the mutex. */
    method Meanwhile()
      requires Valid()
      modifies this`buffer, this`len, this`history, buffer
      ensures Valid() && Arrivals(old(history), history)
      ensures buffer == old(buffer) || fresh(buffer)
    {
      var more: nat := *;
      while more > 0
        invariant Valid() && Arrivals(old(history), history)
        invariant buffer == old(buffer) || fresh(buffer)
      {
        var e: Scored := *;
        Handle(e);
        more := more - 1;
      }
    }

    /** An attempt, and what comes in until the next. */
    method Again(batch: array<Scored>, ghost begun: Run, ghost tries: nat) returns (ok: bool)
      requires Valid() && Now().writing && taken != [] && batch == taken[|taken| - 1]
      requires Flushing(begun, history, tries, false) && batch.Length == |After(begun).buffer|
      modifies this`buffer, this`len, this`rows, this`telemetry, this`history, buffer
      ensures Valid() && (buffer == old(buffer) || fresh(buffer))
      ensures Flushing(begun, history, tries + 1, ok) && Now().writing == (!ok && tries + 1 < TRIES)
    {
      ok := WriteBatch(batch);
      FlushingAttempt(begun, old(history), tries, history.a);
      ghost var before := history;
      Meanwhile();
      FlushingArrivals(begun, before, history, tries + 1, ok);
    }

    /** The flush is cancelled. */
    method Abandon(ghost begun: Run, ghost tries: nat)
      requires Valid() && Now().writing && Flushing(begun, history, tries, false)
      requires 0 < tries <= TRIES && After(begun).buffer != []
      modifies this`history
      ensures Valid() && Flushed(begun, history, false)
    {
      GivenUp(begun, history, tries);
      history := Then(history, GiveUp);
    }

    /** Up to three attempts at the batch just taken, fewer when the flush is cancelled in between. */
    method Try(batch: array<Scored>, ghost begun: Run) returns (ok: bool)
      requires Valid() && Now().writing && taken != [] && batch == taken[|taken| - 1]
      requires Flushing(begun, history, 0, false) && batch.Length == |After(begun).buffer| > 0
      modifies this`buffer, this`len, this`rows, this`telemetry, this`history, buffer
      ensures Valid() && Flushed(begun, history, ok)
    {
      ok := false;
      var attempt := 0;
      while attempt < TRIES && !ok
        invariant 0 <= attempt <= TRIES && (ok ==> attempt > 0) && Valid()
        invariant buffer == old(buffer) || fresh(buffer)
        invariant Flushing(begun, history, attempt, ok) && Now().writing == (attempt < TRIES && !ok)
      {
        var cancelled: bool := *;
        if attempt > 0 && cancelled {
          Abandon(begun, attempt);
          return;
        }
        ok := Again(batch, begun, attempt);
        attempt := attempt + 1;
      }
      FlushingEnds(begun, history, attempt, ok);
    }

    /** Take a batch and try to write it, up to three times, with any number of events coming in whenever the
        mutex is free. */
    method Flush() returns (ok: bool)
      requires Valid() && !Now().writing
      modifies this, buffer
      ensures Valid() && Flushed(old(history), history, ok) && old(taken) <= taken
    {
      if len == 0 {
        return true;
      }
      FlushingBegins(history);
      var batch := Take();
      Meanwhile();
      FlushingArrivals(old(history), Then(old(history), TakeOff), history, 0, false);
      ok := Try(batch, old(history));
    }
  }

  lemma StampedAppend(items: seq<Scored>, times: seq<int>, e: Scored, at: int)
    requires |items| == |times|
    ensures Stamped(items + [e], times + [at]) == Stamped(items, times) + [Entry(e, at)]
    ensures forall t ::
              Apply(t, Stamped(items + [e], times + [at])) == Upsert(Apply(t, Stamped(items, times)), Entry(e, at))
  {
    var w := Stamped(items, times) + [Entry(e, at)];
    assert Stamped(items + [e], times + [at]) == w;
    assert w[..|w| - 1] == Stamped(items, times);
  }
}
