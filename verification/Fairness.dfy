/** Price-time priority said without an algorithm: which amounts may an incoming order take from the
    resting orders it meets? Exactly one allocation is fair, and the walk down the queue finds it. */
module Fairness {
  import opened Orders
  import opened BookSpec

  function Sum(x: seq<int>): int { if x == [] then 0 else x[0] + Sum(x[1..]) }

  /** A market order accepts every price, a limit order none worse than its limit. */
  predicate Accepts(side: Side, kind: Kind, limit: real, p: real) {
    if kind.Market? then true else if side.Buy? then p <= limit else p >= limit
  }

  /** `x[i]` is what the order takes from `q[i]`: no more than is there, no more than it wants, and only at prices it
      accepts. */
  ghost predicate Within(side: Side, kind: Kind, limit: real, want: int, q: seq<Resting>, x: seq<int>) {
    && |x| == |q| && Sum(x) <= want
    && (forall i :: 0 <= i < |q| ==> 0 <= x[i] <= q[i].remaining)
    && (forall i :: 0 <= i < |q| && x[i] > 0 ==> Accepts(side, kind, limit, q[i].price))
  }

  /** It takes from nobody while someone with priority still has something left. */
  ghost predicate InPriority(side: Side, q: seq<Resting>, x: seq<int>)
    requires |x| == |q|
  {
    forall i, j :: 0 <= i < |q| && 0 <= j < |q| && Before(side.Opposite(), q[i], q[j]) && x[j] > 0 ==>
      x[i] == q[i].remaining
  }

  /** It stops short only when nothing acceptable is left. */
  ghost predicate NoneLeft(side: Side, kind: Kind, limit: real, want: int, q: seq<Resting>, x: seq<int>)
    requires |x| == |q|
  {
    Sum(x) < want ==>
      forall i :: 0 <= i < |q| && Accepts(side, kind, limit, q[i].price) ==> x[i] == q[i].remaining
  }

  ghost predicate Fair(side: Side, kind: Kind, limit: real, want: int, q: seq<Resting>, x: seq<int>) {
    Within(side, kind, limit, want, q, x) && InPriority(side, q, x) && NoneLeft(side, kind, limit, want, q, x)
  }

  /** The trades that make up an allocation, best order first. */
  function TradesOf(want: int, q: seq<Resting>, x: seq<int>): seq<Trade>
    requires |x| == |q|
    decreases |q|
  {
    if q == [] || x[0] <= 0 then []
    else [Trade(q[0], x[0], want - x[0])] + TradesOf(want - x[0], q[1..], x[1..])
  }

  /** The queue an allocation leaves behind. */
  function Residual(q: seq<Resting>, x: seq<int>): seq<Resting>
    requires |x| == |q|
  {
    if q == [] then []
    else (if q[0].remaining == x[0] then [] else [q[0].(remaining := q[0].remaining - x[0])])
         + Residual(q[1..], x[1..])
  }

  /** The amounts taken by going down the queue. */
  function Greedy(side: Side, kind: Kind, limit: real, want: int, q: seq<Resting>): seq<int>
    decreases |q|
  {
    if q == [] then []
    else
      var a := if Crosses(side, kind, limit, q[0].price) then Min(want, q[0].remaining) else 0;
      [a] + Greedy(side, kind, limit, want - a, q[1..])
  }

  lemma {:induction false} SumZero(x: seq<int>)
    requires forall i :: 0 <= i < |x| ==> 0 <= x[i]
    ensures 0 <= Sum(x)
    ensures Sum(x) == 0 <==> forall i :: 0 <= i < |x| ==> x[i] == 0
  {
    if x != [] {
      SumZero(x[1..]);
      assert forall i :: 0 <= i < |x[1..]| ==> x[1..][i] == x[i + 1];
      assert forall i :: 0 < i < |x| ==> x[i] == x[1..][i - 1];
    }
  }

  lemma TailQueue(side: Side, q: seq<Resting>)
    requires Queue(side, q) && q != []
    ensures Queue(side, q[1..])
  {
  }

  lemma SortedBefore(side: Side, q: seq<Resting>, i: int, j: int)
    requires Sorted(side, q) && 0 <= i < |q| && 0 <= j < |q| && Before(side, q[i], q[j])
    ensures i < j
  {
  }

  /** What a fair allocation takes from the best order. */
  lemma FairHead(side: Side, kind: Kind, limit: real, want: int, q: seq<Resting>, x: seq<int>)
    requires Queue(side.Opposite(), q) && q != [] && 0 <= want && Fair(side, kind, limit, want, q, x)
    ensures x[0] == if Crosses(side, kind, limit, q[0].price) then Min(want, q[0].remaining) else 0
    ensures Fair(side, kind, limit, want - x[0], q[1..], x[1..]) && 0 <= want - x[0]
  {
    var t := x[1..];
    assert forall i :: 0 <= i < |t| ==> t[i] == x[i + 1] && q[1..][i] == q[i + 1];
    SumZero(t);
    if x[0] < q[0].remaining {
      forall j | 0 <= j < |t| ensures t[j] == 0 {
        assert Before(side.Opposite(), q[0], q[j + 1]);
      }
    }
  }

  lemma {:induction false} FairIsGreedy(side: Side, kind: Kind, limit: real, want: int, q: seq<Resting>, x: seq<int>)
    requires Queue(side.Opposite(), q) && 0 <= want && Fair(side, kind, limit, want, q, x)
    ensures x == Greedy(side, kind, limit, want, q)
    decreases |q|
  {
    if q != [] {
      FairHead(side, kind, limit, want, q, x);
      TailQueue(side.Opposite(), q);
      FairIsGreedy(side, kind, limit, want - x[0], q[1..], x[1..]);
      GreedyCons(side, kind, limit, want, q, x);
    }
  }

  lemma GreedyCons(side: Side, kind: Kind, limit: real, want: int, q: seq<Resting>, x: seq<int>)
    requires |x| == |q| > 0
    requires x[0] == if Crosses(side, kind, limit, q[0].price) then Min(want, q[0].remaining) else 0
    requires x[1..] == Greedy(side, kind, limit, want - x[0], q[1..])
    ensures x == Greedy(side, kind, limit, want, q)
  {
  }

  lemma {:induction false} GreedyIsFair(side: Side, kind: Kind, limit: real, want: int, q: seq<Resting>)
    requires Queue(side.Opposite(), q) && 0 <= want
    ensures Fair(side, kind, limit, want, q, Greedy(side, kind, limit, want, q))
    decreases |q|
  {
    if q != [] {
      var x := Greedy(side, kind, limit, want, q);
      TailQueue(side.Opposite(), q);
      GreedyIsFair(side, kind, limit, want - x[0], q[1..]);
      FairCons(side, kind, limit, want, q, Greedy(side, kind, limit, want - x[0], q[1..]));
    }
  }

  lemma ConsInPriority(side: Side, q: seq<Resting>, a: int, t: seq<int>)
    requires Queue(side.Opposite(), q) && q != [] && |t| == |q| - 1 && InPriority(side, q[1..], t)
    requires (exists i :: 0 <= i < |t| && t[i] > 0) ==> a == q[0].remaining
    ensures InPriority(side, q, [a] + t)
  {
    var x := [a] + t;
    assert forall i :: 0 < i < |q| ==> x[i] == t[i - 1] && q[i] == q[1..][i - 1];
    forall i, j | 0 <= i < |q| && 0 <= j < |q| && Before(side.Opposite(), q[i], q[j]) && x[j] > 0
      ensures x[i] == q[i].remaining
    {
      SortedBefore(side.Opposite(), q, i, j);
      assert t[j - 1] > 0;
    }
  }

  /** A fair allocation of the rest, behind what the best order gives, is fair. */
  lemma FairCons(side: Side, kind: Kind, limit: real, want: int, q: seq<Resting>, t: seq<int>)
    requires Queue(side.Opposite(), q) && q != [] && 0 <= want
    requires var a := if Crosses(side, kind, limit, q[0].price) then Min(want, q[0].remaining) else 0;
             Fair(side, kind, limit, want - a, q[1..], t)
    ensures var a := if Crosses(side, kind, limit, q[0].price) then Min(want, q[0].remaining) else 0;
            Fair(side, kind, limit, want, q, [a] + t)
  {
    var a := if Crosses(side, kind, limit, q[0].price) then Min(want, q[0].remaining) else 0;
    SumZero(t);
    NothingElse(side, kind, limit, want, q, a, t);
    ConsInPriority(side, q, a, t);
    ConsWithin(side, kind, limit, want, q, a, t);
  }

  /** The rest gives something only if the best order is used up. */
  lemma NothingElse(side: Side, kind: Kind, limit: real, want: int, q: seq<Resting>, a: int, t: seq<int>)
    requires Queue(side.Opposite(), q) && q != [] && 0 <= want && |t| == |q| - 1
    requires a == if Crosses(side, kind, limit, q[0].price) then Min(want, q[0].remaining) else 0
    requires Within(side, kind, limit, want - a, q[1..], t)
    ensures (exists i :: 0 <= i < |t| && t[i] > 0) ==> a == q[0].remaining
  {
    SumZero(t);
    forall i | 0 <= i < |t| && t[i] > 0 ensures a == q[0].remaining {
      assert Before(side.Opposite(), q[0], q[i + 1]) && q[1..][i] == q[i + 1];
    }
  }

  lemma ConsWithin(side: Side, kind: Kind, limit: real, want: int, q: seq<Resting>, a: int, t: seq<int>)
    requires Queue(side.Opposite(), q) && q != [] && 0 <= want && |t| == |q| - 1
    requires a == if Crosses(side, kind, limit, q[0].price) then Min(want, q[0].remaining) else 0
    requires Within(side, kind, limit, want - a, q[1..], t) && NoneLeft(side, kind, limit, want - a, q[1..], t)
    ensures Within(side, kind, limit, want, q, [a] + t) && NoneLeft(side, kind, limit, want, q, [a] + t)
  {
    var x := [a] + t;
    assert x[1..] == t;
    assert forall i :: 0 < i < |q| ==> x[i] == t[i - 1] && q[i] == q[1..][i - 1];
    assert forall i :: 0 <= i < |t| ==> 0 <= t[i];
    SumZero(t);
  }

  lemma {:induction false} NothingTaken(q: seq<Resting>, x: seq<int>)
    requires |x| == |q| && forall i :: 0 <= i < |q| ==> x[i] == 0 < q[i].remaining
    ensures Residual(q, x) == q
    decreases |q|
  {
    if q != [] {
      NothingTaken(q[1..], x[1..]);
    }
  }

  lemma {:induction false} WalkIsGreedy(side: Side, kind: Kind, limit: real, want: int, q: seq<Resting>)
    requires Queue(side.Opposite(), q) && 0 <= want
    ensures var x := Greedy(side, kind, limit, want, q);
            |x| == |q| && Walk(side, kind, limit, want, q) == Outcome(TradesOf(want, q, x), Residual(q, x), want - Sum(x))
    decreases |q|
  {
    var x := Greedy(side, kind, limit, want, q);
    if want == 0 || q == [] || !Crosses(side, kind, limit, q[0].price) {
      GreedyStops(side, kind, limit, want, q);
    } else {
      TailQueue(side.Opposite(), q);
      var t := Greedy(side, kind, limit, want - x[0], q[1..]);
      if want < q[0].remaining {
        GreedyStops(side, kind, limit, 0, q[1..]);
        WalkPart(side, kind, limit, want, q, t);
      } else {
        WalkIsGreedy(side, kind, limit, want - x[0], q[1..]);
        WalkWhole(side, kind, limit, want, q, t);
      }
    }
  }

  /** The best order is used up and the walk goes on behind it. */
  lemma WalkWhole(side: Side, kind: Kind, limit: real, want: int, q: seq<Resting>, t: seq<int>)
    requires q != [] && Crosses(side, kind, limit, q[0].price) && 0 < q[0].remaining <= want && |t| == |q| - 1
    requires var left := want - q[0].remaining;
             Walk(side, kind, limit, left, q[1..]) == Outcome(TradesOf(left, q[1..], t), Residual(q[1..], t), left - Sum(t))
    ensures var x := [q[0].remaining] + t;
            Walk(side, kind, limit, want, q) == Outcome(TradesOf(want, q, x), Residual(q, x), want - Sum(x))
  {
    var x := [q[0].remaining] + t;
    assert x[1..] == t;
    var f := FirstTrade(want, q);
    assert f.qty == q[0].remaining && AfterTrade(q, f.qty) == q[1..];
    assert TradesOf(want, q, x) == [f] + TradesOf(f.remaining, q[1..], t);
    assert Residual(q, x) == Residual(q[1..], t);
  }

  /** The best order has more than enough and keeps its place. */
  lemma WalkPart(side: Side, kind: Kind, limit: real, want: int, q: seq<Resting>, t: seq<int>)
    requires q != [] && Crosses(side, kind, limit, q[0].price) && 0 < want < q[0].remaining && |t| == |q| - 1
    requires Sum(t) == 0 && TradesOf(0, q[1..], t) == [] && Residual(q[1..], t) == q[1..]
    ensures var x := [want] + t;
            Walk(side, kind, limit, want, q) == Outcome(TradesOf(want, q, x), Residual(q, x), want - Sum(x))
  {
  }

  /** Nothing is taken when nothing is wanted or the best order does not cross. */
  lemma GreedyStops(side: Side, kind: Kind, limit: real, want: int, q: seq<Resting>)
    requires Queue(side.Opposite(), q) && 0 <= want
    requires want == 0 || q == [] || !Crosses(side, kind, limit, q[0].price)
    ensures var x := Greedy(side, kind, limit, want, q);
            && |x| == |q| && Sum(x) == 0 && TradesOf(want, q, x) == [] && Residual(q, x) == q
  {
  }

  /** The walk trades exactly the one fair allocation: an allocation is fair if and only if it is the one
      whose trades and residual queue are those of the walk. */
  lemma WalkIsTheFairAllocation(side: Side, kind: Kind, limit: real, want: int, q: seq<Resting>, x: seq<int>)
    requires Queue(side.Opposite(), q) && UniqueIds(q) && 0 <= want && |x| == |q|
    ensures Fair(side, kind, limit, want, q, x) <==>
            && (forall i :: 0 <= i < |q| ==> 0 <= x[i] <= q[i].remaining)
            && Walk(side, kind, limit, want, q) == Outcome(TradesOf(want, q, x), Residual(q, x), want - Sum(x))
  {
    var g := Greedy(side, kind, limit, want, q);
    WalkIsGreedy(side, kind, limit, want, q);
    GreedyIsFair(side, kind, limit, want, q);
    if Fair(side, kind, limit, want, q, x) {
      FairIsGreedy(side, kind, limit, want, q, x);
    } else if (forall i :: 0 <= i < |q| ==> 0 <= x[i] <= q[i].remaining) && Residual(q, x) == Residual(q, g) {
      ResidualInjective(q, x, g);
    }
  }

  lemma {:induction false} ResidualInjective(q: seq<Resting>, x: seq<int>, y: seq<int>)
    requires UniqueIds(q) && |x| == |y| == |q| && Residual(q, x) == Residual(q, y)
    requires forall i :: 0 <= i < |q| ==> 0 <= x[i] <= q[i].remaining && 0 <= y[i] <= q[i].remaining
    ensures x == y
    decreases |q|
  {
    if q != [] {
      assert x == [x[0]] + x[1..] && y == [y[0]] + y[1..];
      ResidualHead(q, x);
      ResidualHead(q, y);
      var rx, ry := Residual(q[1..], x[1..]), Residual(q[1..], y[1..]);
      if q[0].remaining == x[0] {
        assert Residual(q, x) == rx && Residual(q, y) == ry;
      } else {
        assert Residual(q, x)[1..] == rx && Residual(q, y)[1..] == ry;
        assert Residual(q, x)[0] == Residual(q, y)[0];
      }
      ResidualInjective(q[1..], x[1..], y[1..]);
    }
  }

  lemma ResidualHead(q: seq<Resting>, x: seq<int>)
    requires |x| == |q| > 0 && UniqueIds(q)
    ensures q[0].id in Ids(Residual(q, x)) <==> q[0].remaining != x[0]
  {
    var r := Residual(q[1..], x[1..]);
    ResidualIds(q[1..], x[1..]);
    assert q[0].id !in Ids(q[1..]);
    IdsCons(q[0].(remaining := q[0].remaining - x[0]), r);
    assert [] + r == r;
  }

  lemma {:induction false} ResidualIds(q: seq<Resting>, x: seq<int>)
    requires |x| == |q|
    ensures Ids(Residual(q, x)) <= Ids(q)
    decreases |q|
  {
    if q != [] {
      ResidualIds(q[1..], x[1..]);
      IdsCons(q[0], q[1..]);
      assert q == [q[0]] + q[1..];
      IdsCons(q[0].(remaining := q[0].remaining - x[0]), Residual(q[1..], x[1..]));
    }
  }
}
