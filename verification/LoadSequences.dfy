/** The order sequences the load bots loop over, and what each does to an engine of its own. */
module LoadSequences {
  import opened Options
  import opened Orders
  import opened BookSpec
  import opened Decimals

  datatype Step =
    | Place(tag: string, side: string, kind: string, price: real, quantity: int)
    | Withdraw(tag: string)

  function OrderId(bot: nat, iteration: nat, tag: string): string {
    "b" + Decimal(bot) + "-i" + Decimal(iteration) + "-" + tag
  }

  /** Every bot has its own price band. */
  function BasePrice(bot: nat): real { ((bot + 1) * 1000) as real }

  function BasicMatch(bot: nat): seq<Step> {
    var p := BasePrice(bot);
    [Place("bid1", "buy", "limit", p, 10), Place("ask1", "sell", "limit", p, 10)]
  }

  function PartialFillLadder(bot: nat): seq<Step> {
    var p := BasePrice(bot);
    [Place("bid-0", "buy", "limit", p, 5), Place("bid-1", "buy", "limit", p - 1.0, 5),
     Place("bid-2", "buy", "limit", p - 2.0, 5), Place("sweep", "sell", "market", 0.0, 15)]
  }

  function CancelCorrectness(bot: nat): seq<Step> {
    var p := BasePrice(bot);
    [Place("resting", "buy", "limit", p, 10), Withdraw("resting"),
     Place("probe", "sell", "limit", p, 10), Withdraw("probe")]
  }

  function Sequences(bot: nat): seq<seq<Step>> {
    [BasicMatch(bot), PartialFillLadder(bot), CancelCorrectness(bot)]
  }

  // ---------- Order ids ----------

  lemma NoDash(n: nat)
    ensures '-' !in Decimal(n)
  {
  }

  /** A letter, a number and a dash in front of a text determine the number and the text. */
  lemma NumberedInjective(c: char, n: nat, x: string, n': nat, x': string)
    requires c != '-' && [c] + Decimal(n) + "-" + x == [c] + Decimal(n') + "-" + x'
    ensures n == n' && x == x'
  {
    NoDash(n);
    NoDash(n');
    SplitFirst([c] + Decimal(n), x, [c] + Decimal(n'), x', '-');
    assert ([c] + Decimal(n))[1..] == Decimal(n) && ([c] + Decimal(n'))[1..] == Decimal(n');
    DecimalInjective(n, n');
  }

  /** Different bots, iterations or tags never share an order id. */
  lemma OrderIdInjective(b: nat, i: nat, tag: string, b': nat, i': nat, tag': string)
    requires OrderId(b, i, tag) == OrderId(b', i', tag')
    ensures b == b' && i == i' && tag == tag'
  {
    var x, x' := "i" + Decimal(i) + "-" + tag, "i" + Decimal(i') + "-" + tag';
    assert OrderId(b, i, tag) == ['b'] + Decimal(b) + "-" + x;
    assert OrderId(b', i', tag') == ['b'] + Decimal(b') + "-" + x';
    NumberedInjective('b', b, x, b', x');
    NumberedInjective('i', i, tag, i', tag');
  }

  predicate ValidTag(tag: string) {
    |tag| <= 20 && forall i :: 0 <= i < |tag| ==> IdChar(tag[i])
  }

  /** Bot and iteration numbers are 64-bit, so the engine accepts every id the bots make. */
  lemma OrderIdValid(bot: nat, iteration: nat, tag: string)
    requires bot < 0x8000_0000_0000_0000 && iteration < 0x8000_0000_0000_0000 && ValidTag(tag)
    ensures ValidId(OrderId(bot, iteration, tag))
  {
    assert Pow10(19) > 0x8000_0000_0000_0000 by { Pow10Of19(); }
    DecimalLength(bot, 19);
    DecimalLength(iteration, 19);
    DecimalDigits(bot);
    DecimalDigits(iteration);
    var a, c := Decimal(bot), Decimal(iteration);
    assert forall i :: 0 <= i < |a| ==> IdChar(a[i]);
    assert forall i :: 0 <= i < |c| ==> IdChar(c[i]);
  }

  lemma Pow10Of19()
    ensures Pow10(19) == 10_000_000_000_000_000_000
  {
    assert Pow10(5) == 100_000;
    assert Pow10(10) == 10_000_000_000;
    assert Pow10(15) == 1_000_000_000_000_000;
  }

  // ---------- Playing a sequence against the engine ----------

  /** The book, and the id last used for each tag. */
  datatype Stage = Stage(book: Book, ids: map<string, string>, replies: seq<Body>)

  /** One step, with the entry time the engine gives to an order. A cancel of a tag never used is skipped. */
  function Play(st: Stage, session: string, bot: nat, iteration: nat, s: Step, stamp: int): Stage {
    match s
    case Place(tag, side, kind, price, quantity) =>
      var id := OrderId(bot, iteration, tag);
      var r := Submit(st.book, session, Request(id, side, kind, price, quantity), stamp);
      Stage(r.book, st.ids[tag := id], st.replies + r.replies)
    case Withdraw(tag) =>
      if tag !in st.ids then st
      else
        var (book, reply) := Cancel(st.book, session, st.ids[tag]);
        Stage(book, st.ids, st.replies + [reply])
  }

  function PlayAll(st: Stage, session: string, bot: nat, iteration: nat, steps: seq<Step>, stamps: seq<int>): Stage
    requires |stamps| == |steps|
    decreases |steps|
  {
    if steps == [] then st
    else PlayAll(Play(st, session, bot, iteration, steps[0], stamps[0]), session, bot, iteration, steps[1..], stamps[1..])
  }

  // ---------- Single moves ----------

  /** A limit order that meets nothing on the other side rests. */
  lemma RestsAlone(b: Book, session: string, m: Request, stamp: int)
    requires Refused(b, m).None? && KindOf(m).Limit? && b.On(SideOf(m).Opposite()) == []
    ensures var r := Submit(b, session, m, stamp);
            && r.replies == [Ack]
            && r.book == Rest(b, NewResting(m, session, stamp, m.quantity))
  {
  }

  /** An order that wants exactly what the only crossing queue holds empties it. */
  lemma {:induction false} SweepsAll(side: Side, kind: Kind, limit: real, want: int, q: seq<Resting>)
    requires want == Depth(q) && forall i :: 0 <= i < |q| ==> 0 < q[i].remaining && Crosses(side, kind, limit, q[i].price)
    ensures var out := Walk(side, kind, limit, want, q);
            out.queue == [] && out.left == 0 && Fills(out.trades) == SweepFills(want, q)
    decreases |q|
  {
    if q != [] {
      DepthPositive(q[1..]);
      assert AfterTrade(q, q[0].remaining) == q[1..];
      SweepsAll(side, kind, limit, want - q[0].remaining, q[1..]);
      var rest := Walk(side, kind, limit, want - q[0].remaining, q[1..]).trades;
      assert Fills([FirstTrade(want, q)] + rest) == [FillOf(FirstTrade(want, q))] + Fills(rest);
    }
  }

  /** A fill for each order of the queue, at its price and for all of it. */
  function SweepFills(want: int, q: seq<Resting>): seq<Body>
    decreases |q|
  {
    if q == [] then []
    else [Fill(q[0].remaining, q[0].price, want - q[0].remaining)] + SweepFills(want - q[0].remaining, q[1..])
  }

  lemma {:induction false} DepthPositive(q: seq<Resting>)
    requires forall i :: 0 <= i < |q| ==> 0 < q[i].remaining
    ensures 0 <= Depth(q)
  {
    if q != [] {
      DepthPositive(q[1..]);
    }
  }

  lemma Sweeps(b: Book, session: string, m: Request, stamp: int)
    requires Refused(b, m).None? && m.quantity == Depth(b.On(SideOf(m).Opposite()))
    requires var q := b.On(SideOf(m).Opposite());
             forall i :: 0 <= i < |q| ==> 0 < q[i].remaining && Crosses(SideOf(m), KindOf(m), m.price, q[i].price)
    ensures var r := Submit(b, session, m, stamp);
            && r.replies == [Ack] + SweepFills(m.quantity, b.On(SideOf(m).Opposite()))
            && r.book == b.With(SideOf(m).Opposite(), [])
  {
    Accepted(b, session, m, stamp);
    SweepsAll(SideOf(m), KindOf(m), m.price, m.quantity, b.On(SideOf(m).Opposite()));
  }

  lemma PlayTwo(st: Stage, session: string, bot: nat, n: nat, steps: seq<Step>, ts: seq<int>)
    requires |steps| == |ts| >= 2
    ensures PlayAll(st, session, bot, n, steps, ts)
         == PlayAll(Play(Play(st, session, bot, n, steps[0], ts[0]), session, bot, n, steps[1], ts[1]),
                    session, bot, n, steps[2..], ts[2..])
  {
  }

  /** A limit order placed where nothing can cross it is acknowledged and rests. */
  lemma PlaceRests(st: Stage, session: string, bot: nat, n: nat, s: Step, stamp: int)
    requires bot < 0x8000_0000_0000_0000 && n < 0x8000_0000_0000_0000
    requires s.Place? && ValidTag(s.tag) && s.kind == "limit" && s.side in {"buy", "sell"}
    requires s.price > 0.0 && s.quantity > 0
    requires OrderId(bot, n, s.tag) !in BookIds(st.book)
    requires (if s.side == "buy" then st.book.asks else st.book.bids) == []
    ensures var side := if s.side == "buy" then Buy else Sell;
            var id := OrderId(bot, n, s.tag);
            Play(st, session, bot, n, s, stamp)
            == Stage(Rest(st.book, Resting(id, side, s.price, s.quantity, s.quantity, stamp, session)),
                     st.ids[s.tag := id], st.replies + [Ack])
  {
    OrderIdValid(bot, n, s.tag);
    RestsAlone(st.book, session, Request(OrderId(bot, n, s.tag), s.side, s.kind, s.price, s.quantity), stamp);
  }

  /** An order placed for exactly what crossing orders hold fills completely and clears them. */
  lemma PlaceSweeps(st: Stage, session: string, bot: nat, n: nat, s: Step, stamp: int)
    requires bot < 0x8000_0000_0000_0000 && n < 0x8000_0000_0000_0000
    requires s.Place? && ValidTag(s.tag) && s.kind in {"limit", "market"} && s.side == "sell" && s.quantity > 0
    requires s.kind == "limit" ==> s.price > 0.0
    requires st.book.asks == [] && s.quantity == Depth(st.book.bids) && OrderId(bot, n, s.tag) !in BookIds(st.book)
    requires forall i :: 0 <= i < |st.book.bids| ==>
               0 < st.book.bids[i].remaining && (s.kind == "limit" ==> s.price <= st.book.bids[i].price)
    ensures var st' := Play(st, session, bot, n, s, stamp);
            st'.book == EmptyBook && st'.replies == st.replies + ([Ack] + SweepFills(s.quantity, st.book.bids))
  {
    OrderIdValid(bot, n, s.tag);
    Sweeps(st.book, session, Request(OrderId(bot, n, s.tag), s.side, s.kind, s.price, s.quantity), stamp);
  }

  /** Cancelling the only order on the book empties it. */
  lemma WithdrawClears(st: Stage, session: string, bot: nat, n: nat, tag: string, stamp: int, r: Resting)
    requires st.book == Book([r], []) || st.book == Book([], [r])
    requires tag in st.ids && st.ids[tag] == r.id && r.session == session
    ensures Play(st, session, bot, n, Withdraw(tag), stamp) == st.(book := EmptyBook, replies := st.replies + [CancelAck])
  {
    var q := [r];
    assert q[0] == r;
    assert q[0].id in Ids(q) && q[0].id in SessionIds(q, session);
    assert Drop(q, {r.id}) == [] + Drop(q[1..], {r.id}) == [];
  }

  // ---------- Each sequence, once ----------

  /** What the engine answers to a round of each sequence. */
  function RoundReplies(bot: nat, which: nat): seq<Body> {
    var p := ((bot + 1) * 1000) as real;
    match which
    case 0 => [Ack, Ack, Fill(10, p, 0)]
    case 1 => [Ack, Ack, Ack, Ack, Fill(5, p, 10), Fill(5, p - 1.0, 5), Fill(5, p - 2.0, 0)]
    case _ => [Ack, CancelAck, Ack, CancelAck]
  }

  lemma BasicMatchClears(st: Stage, session: string, bot: nat, n: nat, ts: seq<int>)
    requires bot < 0x8000_0000_0000_0000 && n < 0x8000_0000_0000_0000 && st.book == EmptyBook && |ts| == 2
    ensures var st' := PlayAll(st, session, bot, n, BasicMatch(bot), ts);
            st'.book == EmptyBook && st'.replies == st.replies + RoundReplies(bot, 0)
  {
    var steps := BasicMatch(bot);
    PlayTwo(st, session, bot, n, steps, ts);
    PlaceRests(st, session, bot, n, steps[0], ts[0]);
    var st1 := Play(st, session, bot, n, steps[0], ts[0]);
    var r := Resting(OrderId(bot, n, "bid1"), Buy, BasePrice(bot), 10, 10, ts[0], session);
    assert st1.book == Book([r], []);
    Distinct(bot, n, "bid1", "ask1");
    IdsCons(r, []);
    assert [r] + [] == [r] && Depth([r]) == 10;
    PlaceSweeps(st1, session, bot, n, steps[1], ts[1]);
    SweepOne(10, r);
    assert st.replies + [Ack] + ([Ack] + [Fill(10, BasePrice(bot), 0)]) == st.replies + RoundReplies(bot, 0);
  }

  lemma SweepOne(want: int, r: Resting)
    ensures SweepFills(want, [r]) == [Fill(r.remaining, r.price, want - r.remaining)]
  {
    assert [r][1..] == [];
  }

  lemma Distinct(bot: nat, n: nat, tag: string, tag': string)
    requires tag != tag'
    ensures OrderId(bot, n, tag) != OrderId(bot, n, tag')
  {
    if OrderId(bot, n, tag) == OrderId(bot, n, tag') {
      OrderIdInjective(bot, n, tag, bot, n, tag');
    }
  }

  /** Place an order on an empty book and take it back. */
  lemma PlaceAndWithdraw(st: Stage, session: string, bot: nat, n: nat, s: Step, t: int, t': int)
    requires bot < 0x8000_0000_0000_0000 && n < 0x8000_0000_0000_0000 && st.book == EmptyBook
    requires s.Place? && ValidTag(s.tag) && s.kind == "limit" && s.side in {"buy", "sell"}
    requires s.price > 0.0 && s.quantity > 0
    ensures var st' := Play(Play(st, session, bot, n, s, t), session, bot, n, Withdraw(s.tag), t');
            st'.book == EmptyBook && st'.replies == st.replies + [Ack, CancelAck]
  {
    PlaceRests(st, session, bot, n, s, t);
    var side := if s.side == "buy" then Buy else Sell;
    var r := Resting(OrderId(bot, n, s.tag), side, s.price, s.quantity, s.quantity, t, session);
    assert Insert(side, r, []) == [r] + [] == [r];
    WithdrawClears(Play(st, session, bot, n, s, t), session, bot, n, s.tag, t', r);
  }

  lemma CancelCorrectnessClears(st: Stage, session: string, bot: nat, n: nat, ts: seq<int>)
    requires bot < 0x8000_0000_0000_0000 && n < 0x8000_0000_0000_0000 && st.book == EmptyBook && |ts| == 4
    ensures var st' := PlayAll(st, session, bot, n, CancelCorrectness(bot), ts);
            st'.book == EmptyBook && st'.replies == st.replies + RoundReplies(bot, 2)
  {
    var steps := CancelCorrectness(bot);
    PlayTwo(st, session, bot, n, steps, ts);
    PlaceAndWithdraw(st, session, bot, n, steps[0], ts[0], ts[1]);
    var st2 := Play(Play(st, session, bot, n, steps[0], ts[0]), session, bot, n, steps[1], ts[1]);
    PlayTwo(st2, session, bot, n, steps[2..], ts[2..]);
    PlaceAndWithdraw(st2, session, bot, n, steps[2], ts[2], ts[3]);
  }

  lemma {:induction false} InsertLast(side: Side, x: Resting, q: seq<Resting>)
    requires forall i :: 0 <= i < |q| ==> !Before(side, x, q[i])
    ensures Insert(side, x, q) == q + [x]
    ensures Ids(q + [x]) == Ids(q) + {x.id} && Depth(q + [x]) == Depth(q) + x.remaining
  {
    if q == [] {
      assert q + [x] == [x] + [] == [x];
      IdsCons(x, []);
    } else {
      InsertLast(side, x, q[1..]);
      assert q + [x] == [q[0]] + (q[1..] + [x]);
      assert (q + [x])[1..] == q[1..] + [x] && q == [q[0]] + q[1..];
      IdsCons(q[0], q[1..] + [x]);
      IdsCons(q[0], q[1..]);
    }
  }

  predicate Bid(s: Step) {
    s.Place? && ValidTag(s.tag) && s.kind == "limit" && s.side == "buy" && s.price > 0.0 && s.quantity > 0
  }

  predicate Sweep(s: Step) {
    s.Place? && ValidTag(s.tag) && s.kind == "market" && s.side == "sell" && s.quantity > 0
  }

  /** What a bid leaves resting. */
  function RungOf(session: string, bot: nat, n: nat, s: Step, stamp: int): Resting
    requires s.Place?
  {
    Resting(OrderId(bot, n, s.tag), Buy, s.price, s.quantity, s.quantity, stamp, session)
  }

  /** A bid below all the others joins the end of the queue. */
  lemma Rung(st: Stage, session: string, bot: nat, n: nat, s: Step, stamp: int)
    requires bot < 0x8000_0000_0000_0000 && n < 0x8000_0000_0000_0000 && Bid(s)
    requires st.book.asks == [] && OrderId(bot, n, s.tag) !in Ids(st.book.bids)
    requires forall i :: 0 <= i < |st.book.bids| ==> s.price < st.book.bids[i].price
    ensures var st', x := Play(st, session, bot, n, s, stamp), RungOf(session, bot, n, s, stamp);
            && st'.book == Book(st.book.bids + [x], []) && st'.replies == st.replies + [Ack]
            && Ids(st'.book.bids) == Ids(st.book.bids) + {x.id} && Depth(st'.book.bids) == Depth(st.book.bids) + x.remaining
  {
    PlaceRests(st, session, bot, n, s, stamp);
    InsertLast(Buy, RungOf(session, bot, n, s, stamp), st.book.bids);
  }

  /** The stage after the first three of four steps. */
  function AfterThree(st: Stage, session: string, bot: nat, n: nat, s: seq<Step>, ts: seq<int>): Stage
    requires |s| == |ts| == 4
  {
    Play(Play(Play(st, session, bot, n, s[0], ts[0]), session, bot, n, s[1], ts[1]), session, bot, n, s[2], ts[2])
  }

  lemma PlayFour(st: Stage, session: string, bot: nat, n: nat, s: seq<Step>, ts: seq<int>)
    requires |s| == |ts| == 4
    ensures PlayAll(st, session, bot, n, s, ts)
         == Play(AfterThree(st, session, bot, n, s, ts), session, bot, n, s[3], ts[3])
  {
    PlayTwo(st, session, bot, n, s, ts);
    var st2 := Play(Play(st, session, bot, n, s[0], ts[0]), session, bot, n, s[1], ts[1]);
    PlayTwo(st2, session, bot, n, s[2..], ts[2..]);
    assert s[2..][2..] == [] && s[2..][0] == s[2] && s[2..][1] == s[3];
  }

  /** What is answered to three bids and an order that takes them all. */
  function LadderReplies(s: seq<Step>): seq<Body>
    requires |s| == 4 && s[0].Place? && s[1].Place? && s[2].Place?
  {
    [Ack, Ack, Ack, Ack, Fill(s[0].quantity, s[0].price, s[1].quantity + s[2].quantity),
     Fill(s[1].quantity, s[1].price, s[2].quantity), Fill(s[2].quantity, s[2].price, 0)]
  }

  /** Three bids, each below the one before, and a market order for all of them. */
  lemma LadderClears(st: Stage, session: string, bot: nat, n: nat, s: seq<Step>, ts: seq<int>)
    requires bot < 0x8000_0000_0000_0000 && n < 0x8000_0000_0000_0000 && st.book == EmptyBook && |s| == |ts| == 4
    requires Bid(s[0]) && Bid(s[1]) && Bid(s[2]) && Sweep(s[3]) && s[0].price > s[1].price > s[2].price
    requires s[3].quantity == s[0].quantity + s[1].quantity + s[2].quantity
    requires forall i, j :: 0 <= i < j < 4 ==> OrderId(bot, n, s[i].tag) != OrderId(bot, n, s[j].tag)
    ensures var st' := PlayAll(st, session, bot, n, s, ts);
            st'.book == EmptyBook && st'.replies == st.replies + LadderReplies(s)
  {
    var x, y, z := RungOf(session, bot, n, s[0], ts[0]), RungOf(session, bot, n, s[1], ts[1]),
                   RungOf(session, bot, n, s[2], ts[2]);
    var st3 := AfterThree(st, session, bot, n, s, ts);
    PlayFour(st, session, bot, n, s, ts);
    ThreeRungs(st, session, bot, n, s, ts);
    TakesThree(st3, session, bot, n, s[3], ts[3], x, y, z);
  }

  lemma TakesThree(st: Stage, session: string, bot: nat, n: nat, s: Step, stamp: int, x: Resting, y: Resting, z: Resting)
    requires bot < 0x8000_0000_0000_0000 && n < 0x8000_0000_0000_0000 && Sweep(s)
    requires st.book == Book([x, y, z], []) && 0 < x.remaining && 0 < y.remaining && 0 < z.remaining
    requires s.quantity == x.remaining + y.remaining + z.remaining == Depth([x, y, z])
    requires OrderId(bot, n, s.tag) !in BookIds(st.book)
    ensures var st' := Play(st, session, bot, n, s, stamp);
            && st'.book == EmptyBook
            && st'.replies == st.replies + [Ack, Fill(x.remaining, x.price, y.remaining + z.remaining),
                                            Fill(y.remaining, y.price, z.remaining), Fill(z.remaining, z.price, 0)]
  {
    var q := [x, y, z];
    assert forall i :: 0 <= i < |q| ==> 0 < q[i].remaining;
    PlaceSweeps(st, session, bot, n, s, stamp);
    SweepThree(s.quantity, x, y, z);
  }

  lemma SweepThree(want: int, x: Resting, y: Resting, z: Resting)
    ensures SweepFills(want, [x, y, z])
         == [Fill(x.remaining, x.price, want - x.remaining),
             Fill(y.remaining, y.price, want - x.remaining - y.remaining),
             Fill(z.remaining, z.price, want - x.remaining - y.remaining - z.remaining)]
  {
    assert [x, y, z][1..] == [y, z] && [y, z][1..] == [z];
    SweepOne(want - x.remaining - y.remaining, z);
  }

  lemma ThreeRungs(st: Stage, session: string, bot: nat, n: nat, s: seq<Step>, ts: seq<int>)
    requires bot < 0x8000_0000_0000_0000 && n < 0x8000_0000_0000_0000 && st.book == EmptyBook && |s| == |ts| == 4
    requires Bid(s[0]) && Bid(s[1]) && Bid(s[2]) && s[3].Place? && s[0].price > s[1].price > s[2].price
    requires forall i, j :: 0 <= i < j < 4 ==> OrderId(bot, n, s[i].tag) != OrderId(bot, n, s[j].tag)
    ensures var st3 := AfterThree(st, session, bot, n, s, ts);
            && st3.replies == st.replies + [Ack, Ack, Ack]
            && st3.book == Book([RungOf(session, bot, n, s[0], ts[0]), RungOf(session, bot, n, s[1], ts[1]),
                                 RungOf(session, bot, n, s[2], ts[2])], [])
            && Depth(st3.book.bids) == s[0].quantity + s[1].quantity + s[2].quantity
            && OrderId(bot, n, s[3].tag) !in BookIds(st3.book)
  {
    TwoRungs(st, session, bot, n, s, ts);
    var st2 := Play(Play(st, session, bot, n, s[0], ts[0]), session, bot, n, s[1], ts[1]);
    Rung(st2, session, bot, n, s[2], ts[2]);
  }

  lemma TwoRungs(st: Stage, session: string, bot: nat, n: nat, s: seq<Step>, ts: seq<int>)
    requires bot < 0x8000_0000_0000_0000 && n < 0x8000_0000_0000_0000 && st.book == EmptyBook && |s| == |ts| == 4
    requires Bid(s[0]) && Bid(s[1]) && s[0].price > s[1].price && OrderId(bot, n, s[0].tag) != OrderId(bot, n, s[1].tag)
    ensures var x, y := RungOf(session, bot, n, s[0], ts[0]), RungOf(session, bot, n, s[1], ts[1]);
            var st2 := Play(Play(st, session, bot, n, s[0], ts[0]), session, bot, n, s[1], ts[1]);
            && st2.replies == st.replies + [Ack, Ack] && st2.book == Book([x, y], [])
            && Ids([x, y]) == {x.id, y.id} && Depth([x, y]) == s[0].quantity + s[1].quantity
  {
    Rung(st, session, bot, n, s[0], ts[0]);
    var st1 := Play(st, session, bot, n, s[0], ts[0]);
    assert st1.book.bids == [RungOf(session, bot, n, s[0], ts[0])];
    Rung(st1, session, bot, n, s[1], ts[1]);
  }

  lemma LadderTags(bot: nat, n: nat, i: nat, j: nat)
    requires i < j < 4
    ensures var s := PartialFillLadder(bot); OrderId(bot, n, s[i].tag) != OrderId(bot, n, s[j].tag)
  {
    var s := PartialFillLadder(bot);
    assert s[0].tag == "bid-0" && s[1].tag == "bid-1" && s[2].tag == "bid-2" && s[3].tag == "sweep";
    assert "bid-0"[4] == '0' && "bid-1"[4] == '1' && "bid-2"[4] == '2' && "sweep"[4] == 'p';
    assert s[i].tag[4] != s[j].tag[4];
    Distinct(bot, n, s[i].tag, s[j].tag);
  }

  lemma PartialFillLadderClears(st: Stage, session: string, bot: nat, n: nat, ts: seq<int>)
    requires bot < 0x8000_0000_0000_0000 && n < 0x8000_0000_0000_0000 && st.book == EmptyBook && |ts| == 4
    ensures var st' := PlayAll(st, session, bot, n, PartialFillLadder(bot), ts);
            st'.book == EmptyBook && st'.replies == st.replies + RoundReplies(bot, 1)
  {
    var s := PartialFillLadder(bot);
    forall i, j | 0 <= i < j < 4 ensures OrderId(bot, n, s[i].tag) != OrderId(bot, n, s[j].tag) {
      LadderTags(bot, n, i, j);
    }
    LadderClears(st, session, bot, n, s, ts);
    LadderRound(bot);
  }

  lemma LadderRound(bot: nat)
    ensures LadderReplies(PartialFillLadder(bot)) == RoundReplies(bot, 1)
  {
  }

  /** Every bot has a band of its own, 1000 apart: its limit prices are at most two below the top of it, so those of
      different bots are never within 990 of each other. */
  lemma BandsApart(bot: nat, which: nat, k: nat, bot': nat, which': nat, k': nat)
    requires which < 3 && which' < 3 && k < |Sequences(bot)[which]| && k' < |Sequences(bot')[which']| && bot < bot'
    requires var s, s' := Sequences(bot)[which][k], Sequences(bot')[which'][k'];
             s.Place? && s'.Place? && s.kind == s'.kind == "limit"
    ensures var p, p' := Sequences(bot)[which][k].price, Sequences(bot')[which'][k'].price;
            && (bot as real + 1.0) * 1000.0 - 2.0 <= p <= (bot as real + 1.0) * 1000.0
            && p + 990.0 < p'
  {
  }

  // ---------- Any number of iterations ----------

  /** The bot loops over its sequence: iteration `first`, the next, and so on. */
  function Loop(st: Stage, session: string, bot: nat, first: nat, steps: seq<Step>, stamps: seq<seq<int>>): Stage
    requires forall k :: 0 <= k < |stamps| ==> |stamps[k]| == |steps|
    decreases |stamps|
  {
    if stamps == [] then st
    else Loop(PlayAll(st, session, bot, first, steps, stamps[0]), session, bot, first + 1, steps, stamps[1..])
  }

  function Times(replies: seq<Body>, n: nat): seq<Body> { if n == 0 then [] else replies + Times(replies, n - 1) }

  lemma OneRound(st: Stage, session: string, bot: nat, n: nat, which: nat, ts: seq<int>)
    requires bot < 0x8000_0000_0000_0000 && n < 0x8000_0000_0000_0000 && which < 3 && st.book == EmptyBook
    requires |ts| == |Sequences(bot)[which]|
    ensures var st' := PlayAll(st, session, bot, n, Sequences(bot)[which], ts);
            st'.book == EmptyBook && st'.replies == st.replies + RoundReplies(bot, which)
  {
    if which == 0 {
      BasicMatchClears(st, session, bot, n, ts);
    } else if which == 1 {
      PartialFillLadderClears(st, session, bot, n, ts);
    } else {
      CancelCorrectnessClears(st, session, bot, n, ts);
    }
  }

  lemma OneMoreTime(front: seq<Body>, round: seq<Body>, n: nat)
    requires n > 0
    ensures front + round + Times(round, n - 1) == front + Times(round, n)
  {
  }

  /** However often a bot plays one of its sequences alone, with whatever entry times, each round gets the same
      replies and leaves the book empty. */
  lemma {:induction false} LoopsCleanly(
      st: Stage, session: string, bot: nat, first: nat, which: nat, stamps: seq<seq<int>>)
    requires bot < 0x8000_0000_0000_0000 && first + |stamps| <= 0x8000_0000_0000_0000 && which < 3
    requires st.book == EmptyBook && forall k :: 0 <= k < |stamps| ==> |stamps[k]| == |Sequences(bot)[which]|
    ensures var st' := Loop(st, session, bot, first, Sequences(bot)[which], stamps);
            st'.book == EmptyBook && st'.replies == st.replies + Times(RoundReplies(bot, which), |stamps|)
    decreases |stamps|
  {
    if stamps != [] {
      OneRound(st, session, bot, first, which, stamps[0]);
      LoopsCleanly(PlayAll(st, session, bot, first, Sequences(bot)[which], stamps[0]),
                   session, bot, first + 1, which, stamps[1..]);
      OneMoreTime(st.replies, RoundReplies(bot, which), |stamps|);
    }
  }
}
