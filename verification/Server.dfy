/** The engine as its clients see it: connections come and go, and every sequence of calls is a run of `EngineRuns`. */
module Servers {
  import opened Orders
  import opened BookSpec
  import opened Engine
  import opened Clocks
  import Runs = EngineRuns

  /** What the events do to the book, the sessions and the clock of a run. A later stamp is what the clock gives to
      a caller who reads it. */
  lemma Connected(states: seq<Runs.State>, events: seq<Runs.Event>, addr: string, stamp: nat)
    requires Runs.IsRun(states, events) && states[|events|].last < stamp
    ensures var s, id := states[|events|], Runs.SessionId(addr, stamp);
            var s' := Runs.Step(s, Runs.Connect(addr, stamp));
            && id !in s.open && s'.book == s.book && s'.last == stamp && s'.open == s.open + {id}
  {
    Runs.RunInv(states, events, |events|);
    Runs.FreshSession(states[|events|], addr, stamp);
  }

  lemma EnteredOrder(s: Runs.State, id: string, m: Request, stamp: nat)
    requires s.last < stamp && id in s.open
    ensures var s' := Runs.Step(s, Runs.NewOrder(id, m, stamp));
            s'.book == Submit(s.book, id, m, stamp).book && s'.last == stamp && s'.open == s.open
  {
  }

  lemma Cancelled(s: Runs.State, id: string, orderId: string)
    requires id in s.open
    ensures var s' := Runs.Step(s, Runs.CancelOrder(id, orderId));
            s'.book == Cancel(s.book, id, orderId).0 && s'.last == s.last && s'.open == s.open
  {
    Runs.StrikeIsCancel(s, id, orderId);
  }

  lemma Disconnected(s: Runs.State, id: string)
    requires id in s.open
    ensures var s' := Runs.Step(s, Runs.Disconnect(id));
            s'.book == CancelSession(s.book, id) && s'.last == s.last && s'.open == s.open - {id}
  {
    Runs.StrikeIsCancel(s, id, "");
  }

  /** Messages, as letters to the session that gets them. */
  ghost function Addressed(to: string, sent: seq<Message>): seq<Runs.Letter> {
    seq(|sent|, i requires 0 <= i < |sent| => Runs.Letter(to, sent[i].id, sent[i].body))
  }

  lemma AllAbout(to: string, sent: seq<Message>, id: string, lo: int, hi: int)
    requires Stamped(sent, id, lo, hi)
    ensures Addressed(to, sent) == Runs.Letters(to, id, Bodies(sent))
  {
    var ls := Runs.Letters(to, id, Bodies(sent));
    assert |ls| == |sent| && forall i :: 0 <= i < |sent| ==> ls[i] == Addressed(to, sent)[i];
  }

  /** One more event makes a longer run. */
  lemma RunExtended(states: seq<Runs.State>, events: seq<Runs.Event>, e: Runs.Event)
    requires Runs.IsRun(states, events)
    ensures Runs.IsRun(states + [Runs.Step(states[|events|], e)], events + [e])
  {
  }

  class Server {
    const ob: Orderbook
    const clock: Clock
    var sessions: map<string, Session>    // the open ones, by id
    ghost var states: seq<Runs.State>     // the run so far
    ghost var events: seq<Runs.Event>

    constructor ()
      ensures Valid() && events == [] && sessions == map[]
      ensures fresh(Repr())
    {
      ob := new Orderbook();
      clock := new Clock();
      sessions := map[];
      states, events := [Runs.Initial], [];
      new;
      Runs.EmptyGood(EmptyBook, 0);
    }

    ghost function State(): Runs.State
      requires |events| < |states|
      reads this
    {
      states[|events|]
    }

    /** Everything the server is made of. */
    ghost function Repr(): set<object>
      reads ob.bids, ob.asks
    {
      {this, ob, ob.bids, ob.asks, clock} + ob.Members()
    }

    /** The heaps and the map are coherent, and the book and the open sessions are those of the run so far. */
    ghost predicate Valid()
      reads this, ob, ob.bids, ob.asks, ob.bids.members, ob.asks.members, clock
    {
      BookReady(ob, clock) && Tracks(ob.Abs(), clock.last)
    }

    ghost predicate Tracks(b: Book, now: int)
      reads this
    {
      && Runs.IsRun(states, events)
      && State().book == b && State().last <= now && State().open == sessions.Keys
      && forall id :: id in sessions ==> Belongs(id, sessions[id])
    }

    ghost predicate Belongs(id: string, s: Session) { s.id == id && s.ob == ob && s.clock == clock }

    method Stamp() returns (stamp: nat)
      requires Valid()
      modifies clock
      ensures Valid() && old(clock.last) < stamp == clock.last && State().last < stamp
    {
      var reading: int := *;
      ghost var before := clock.last;
      stamp := clock.Now(reading);
      GoodLater(ob.Abs(), before, stamp);
    }

    /** A connection is accepted and gets a session of its own. */
    method Connect(addr: string) returns (id: string)
      requires Valid()
      modifies this`sessions, this`states, this`events, clock
      ensures Valid() && id !in old(sessions) && sessions.Keys == old(sessions.Keys) + {id}
      ensures events == old(events) + [Runs.Connect(addr, clock.last)] && clock.last >= 0
      ensures State() == Runs.Step(old(State()), Runs.Connect(addr, clock.last))
    {
      var stamp := Stamp();
      id := Runs.SessionId(addr, stamp);
      Connected(states, events, addr, stamp);
      var s := new Session(id, ob, clock);
      sessions := sessions[id := s];
      Record(Runs.Connect(addr, stamp));
    }

    ghost method Record(e: Runs.Event)
      requires Runs.IsRun(states, events)
      modifies this`states, this`events
      ensures Runs.IsRun(states, events) && events == old(events) + [e]
      ensures State() == Runs.Step(old(State()), e)
    {
      RunExtended(states, events, e);
      states, events := states + [Runs.Step(State(), e)], events + [e];
    }

    /** A message from an open session is handled. One of an unknown type is no event. */
    method Receive(id: string, kind: string, m: Request) returns (sent: seq<Message>)
      requires Valid() && id in sessions
      modifies this`states, this`events, ob`orders, ob.bids, ob.asks, ob.Members(), clock
      ensures Valid() && sent != [] && Stamped(sent, m.id, old(clock.last), clock.last)
      ensures events == old(events) + Runs.EventOf(id, kind, m, sent[0].timestamp) && sent[0].timestamp >= 0
      ensures var es := Runs.EventOf(id, kind, m, sent[0].timestamp);
              State() == if es == [] then old(State()) else Runs.Step(old(State()), es[0])
      ensures fresh(ob.Members() - old(ob.Members()))
      ensures var es := Runs.EventOf(id, kind, m, sent[0].timestamp);
              es != [] ==> Addressed(id, sent) == Runs.Sent(old(State()), es[0])
      ensures Bodies(sent) == Runs.RepliesTo(old(ob.Abs()), id, kind, m, sent[0].timestamp)
    {
      sent := sessions[id].Receive(kind, m);
      assert old(clock.last) < sent[0].timestamp <= clock.last;
      AllAbout(id, sent, m.id, old(clock.last), clock.last);
      match kind
      case "order" =>
        EnteredOrder(State(), id, m, sent[0].timestamp);
        Record(Runs.NewOrder(id, m, sent[0].timestamp));
      case "cancel" =>
        Cancelled(State(), id, m.id);
        Record(Runs.CancelOrder(id, m.id));
      case _ =>
    }

    method Forget(id: string)
      requires Tracks(ob.Abs(), clock.last) && id in sessions
      modifies this`sessions, this`states, this`events
      ensures Tracks(CancelSession(ob.Abs(), id), clock.last) && sessions.Keys == old(sessions.Keys) - {id}
      ensures events == old(events) + [Runs.Disconnect(id)]
      ensures State() == Runs.Step(old(State()), Runs.Disconnect(id))
    {
      Disconnected(State(), id);
      Record(Runs.Disconnect(id));
      sessions := sessions - {id};
    }

    /** One call. */
    method Do(c: Call) returns (ghost stamp: nat)
      requires Valid()
      modifies Repr()
      ensures Valid() && fresh(Repr() - old(Repr()))
      ensures var es := EventsOf(c, old(State()).open, stamp);
              State() == if es == [] then old(State()) else Runs.Step(old(State()), es[0])
    {
      stamp := 0;
      match c
      case Open(addr) =>
        var id := Connect(addr);
        stamp := clock.last;
      case Send(id, kind, m) =>
        if id in sessions {
          var sent := Receive(id, kind, m);
          stamp := sent[0].timestamp;
        }
      case HangUp(id) =>
        if id in sessions {
          Disconnect(id);
        }
    }

    /** One more call. */
    method Follow(c: Call, ghost calls: seq<Call>, ghost stamps: seq<nat>) returns (ghost stamps': seq<nat>)
      requires Valid() && |stamps| == |calls| && State() == After(calls, stamps)
      modifies Repr()
      ensures Valid() && fresh(Repr() - old(Repr()))
      ensures |stamps'| == |calls| + 1 && State() == After(calls + [c], stamps')
    {
      ghost var stamp := Do(c);
      AfterOne(calls, stamps, c, stamp);
      stamps' := stamps + [stamp];
    }

    /** A connection is gone. */
    method Disconnect(id: string)
      requires Valid() && id in sessions
      modifies this`sessions, this`states, this`events, ob`orders, ob.bids, ob.asks, ob.Members()`index
      ensures Valid() && sessions.Keys == old(sessions.Keys) - {id} && ob.Members() <= old(ob.Members())
      ensures events == old(events) + [Runs.Disconnect(id)]
      ensures State() == Runs.Step(old(State()), Runs.Disconnect(id))
    {
      var s := sessions[id];
      Forget(id);
      s.Close();
    }
  }

  /** What a client can do. Messages and hang-ups are heeded while their session is open. */
  datatype Call =
    | Open(addr: string)
    | Send(id: string, kind: string, m: Request)
    | HangUp(id: string)

  /** The events of a call, given the open sessions and the stamp the clock gave. */
  ghost function EventsOf(c: Call, open: set<string>, stamp: nat): seq<Runs.Event> {
    match c
    case Open(addr) => [Runs.Connect(addr, stamp)]
    case Send(id, kind, m) => if id in open then Runs.EventOf(id, kind, m, stamp) else []
    case HangUp(id) => if id in open then [Runs.Disconnect(id)] else []
  }

  /** The state of the specification after some calls. */
  ghost function After(calls: seq<Call>, stamps: seq<nat>): Runs.State
    requires |stamps| == |calls|
  {
    if calls == [] then Runs.Initial
    else
      var n := |calls| - 1;
      var s := After(calls[..n], stamps[..n]);
      var es := EventsOf(calls[n], s.open, stamps[n]);
      if es == [] then s else Runs.Step(s, es[0])
  }

  lemma AfterOne(calls: seq<Call>, stamps: seq<nat>, c: Call, stamp: nat)
    requires |stamps| == |calls|
    ensures var s := After(calls, stamps);
            var es := EventsOf(c, s.open, stamp);
            After(calls + [c], stamps + [stamp]) == if es == [] then s else Runs.Step(s, es[0])
  {
    assert (calls + [c])[..|calls|] == calls && (stamps + [stamp])[..|stamps|] == stamps;
  }

  lemma FrontAndLast(calls: seq<Call>)
    requires calls != []
    ensures calls[..|calls| - 1] + [calls[|calls| - 1]] == calls
  {
  }

  /** Whatever clients do, the engine built of heaps, map, sessions and clock keeps the book of the specification,
      for the stamps its clock gave out. */
  method Serve(calls: seq<Call>) returns (server: Server, ghost stamps: seq<nat>)
    ensures server.Valid() && |stamps| == |calls| && fresh(server.Repr())
    ensures server.State() == After(calls, stamps) && server.ob.Abs() == After(calls, stamps).book
    ensures server.sessions.Keys == After(calls, stamps).open
  {
    if calls == [] {
      server := new Server();
      stamps := [];
    } else {
      var n := |calls| - 1;
      server, stamps := Serve(calls[..n]);
      stamps := server.Follow(calls[n], calls[..n], stamps);
      FrontAndLast(calls);
    }
  }
}
