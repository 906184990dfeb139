/** The two binary heaps of resting orders. The fields that decide priority never change, so
    heap order is a fact about sequences of references; only `remaining` and `index` move. */
module OrderHeaps {
  import opened Orders
  import opened BookSpec

  class Order {
    const id: string
    const side: Side
    const kind: Kind
    const price: real
    const quantity: int
    const enteredAt: int
    const session: string
    var remaining: int
    var index: int  // position in its heap, -1 when in none

    constructor (m: Request, session: string, enteredAt: int)
      ensures id == m.id && side == SideOf(m) && kind == KindOf(m) && price == m.price
      ensures quantity == remaining == m.quantity && index == -1
      ensures this.session == session && this.enteredAt == enteredAt
    {
      id, side, kind, price, quantity := m.id, SideOf(m), KindOf(m), m.price, m.quantity;
      this.session, this.enteredAt := session, enteredAt;
      remaining, index := m.quantity, -1;
    }
  }

  /** The order as a value, with `r` of it remaining. */
  ghost function AsResting(o: Order, r: int): Resting {
    Resting(o.id, o.side, o.price, o.quantity, r, o.enteredAt, o.session)
  }

  predicate Less(side: Side, a: Order, b: Order) {
    Better(side, a.price, a.enteredAt, b.price, b.enteredAt)
  }

  /** `c` lists the orders of `q` as values. */
  ghost predicate Mirrors(c: seq<Resting>, q: seq<Order>)
    reads q
  {
    |c| == |q| && forall i :: 0 <= i < |q| ==> c[i] == AsResting(q[i], q[i].remaining)
  }

  // ---------- Heap order ----------

  function Parent(k: int): int
    requires 0 < k
  {
    (k - 1) / 2
  }

  /** No order among the first `n` has priority over its parent. */
  ghost predicate Ordered(side: Side, h: seq<Order>, n: int)
    requires n <= |h|
  {
    forall k {:trigger Parent(k)} :: 0 < k < n ==> !Less(side, h[k], h[Parent(k)])
  }

  /** Heap order, except perhaps between `i` and its parent. */
  ghost predicate OrderedAbove(side: Side, h: seq<Order>, n: int, i: int)
    requires n <= |h|
  {
    forall k {:trigger Parent(k)} :: 0 < k < n && k != i ==> !Less(side, h[k], h[Parent(k)])
  }

  /** Heap order, except perhaps between `i` and its neighbours. */
  ghost predicate OrderedBut(side: Side, h: seq<Order>, n: int, i: int)
    requires n <= |h|
  {
    forall k {:trigger Parent(k)} :: 0 < k < n && k != i && Parent(k) != i ==> !Less(side, h[k], h[Parent(k)])
  }

  /** The children of `i` do not have priority over the parent of `i`. */
  ghost predicate Bridged(side: Side, h: seq<Order>, n: int, i: int)
    requires n <= |h|
  {
    forall k {:trigger Parent(k)} :: 0 < k < n && Parent(k) == i && 0 < i ==> !Less(side, h[k], h[Parent(i)])
  }

  ghost predicate SortedRefs(side: Side, q: seq<Order>) {
    forall i, j :: 0 <= i < j < |q| ==> Less(side, q[i], q[j])
  }

  /** Nothing in a heap has priority over its root. */
  lemma {:induction false} RootIsBest(side: Side, h: seq<Order>, k: int)
    requires Ordered(side, h, |h|) && 0 <= k < |h|
    ensures !Less(side, h[k], h[0])
  {
    if k > 0 {
      RootIsBest(side, h, Parent(k));
    }
  }

  /** The root of the heap is the head of the priority queue that holds the same orders. */
  lemma RootIsHead(side: Side, h: seq<Order>, q: seq<Order>)
    requires Ordered(side, h, |h|) && SortedRefs(side, q) && h != []
    requires h[0] in q && forall i :: 0 <= i < |q| ==> q[i] in h
    ensures q != [] && h[0] == q[0]
  {
    var p :| 0 <= p < |q| && q[p] == h[0];
    assert q[0] in q;
    var k :| 0 <= k < |h| && h[k] == q[0];
    RootIsBest(side, h, k);
  }

  ghost function Swapped(h: seq<Order>, i: nat, j: nat): seq<Order>
    requires i < |h| && j < |h|
  {
    h[i := h[j]][j := h[i]]
  }

  /** One step of sifting down: the best child `j` of `i` changes places with it. */
  lemma SiftStep(side: Side, h: seq<Order>, n: nat, i: nat, j: nat)
    requires 2 * i + 1 < n <= |h|
    requires j == if 2 * i + 2 < n && Less(side, h[2 * i + 2], h[2 * i + 1]) then 2 * i + 2 else 2 * i + 1
    requires OrderedBut(side, h, n, i) && Bridged(side, h, n, i) && Less(side, h[j], h[i])
    ensures OrderedBut(side, Swapped(h, i, j), n, j) && Bridged(side, Swapped(h, i, j), n, j)
    ensures !Less(side, h[i], h[j])
  {
  }

  /** Sifting down ends where no child has priority. */
  lemma SiftDone(side: Side, h: seq<Order>, n: nat, i: nat)
    requires i <= n <= |h| && OrderedBut(side, h, n, i)
    requires 2 * i + 1 < n ==> !Less(side, h[2 * i + 1], h[i])
    requires 2 * i + 2 < n ==> !Less(side, h[2 * i + 2], h[i])
    ensures OrderedAbove(side, h, n, i)
  {
  }

  /** One step of sifting up: `j` changes places with its parent. */
  lemma RaiseStep(side: Side, h: seq<Order>, n: nat, j: nat)
    requires n <= |h| && 0 < j < n
    requires OrderedAbove(side, h, n, j) && Bridged(side, h, n, j) && Less(side, h[j], h[Parent(j)])
    ensures OrderedAbove(side, Swapped(h, Parent(j), j), n, Parent(j))
    ensures Bridged(side, Swapped(h, Parent(j), j), n, Parent(j))
  {
  }

  /** Moving the last order to `i` disturbs the heap only around `i`. */
  lemma SwapOut(side: Side, h: seq<Order>, i: nat)
    requires Ordered(side, h, |h|) && i < |h| - 1
    ensures OrderedBut(side, Swapped(h, i, |h| - 1), |h| - 1, i)
    ensures Bridged(side, Swapped(h, i, |h| - 1), |h| - 1, i)
  {
  }

  // ---------- Insertion in and removal from the priority queue ----------

  ghost function InsertRef(side: Side, x: Order, q: seq<Order>): seq<Order> {
    if q == [] || Less(side, x, q[0]) then [x] + q else [q[0]] + InsertRef(side, x, q[1..])
  }

  ghost function DropRef(q: seq<Order>, x: Order): seq<Order> {
    if q == [] then [] else if q[0] == x then q[1..] else [q[0]] + DropRef(q[1..], x)
  }

  lemma {:induction false} InsertRefMembers(side: Side, x: Order, q: seq<Order>)
    ensures var t := InsertRef(side, x, q);
            && (forall j :: 0 <= j < |t| ==> t[j] == x || t[j] in q)
            && x in t && forall j :: 0 <= j < |q| ==> q[j] in t
  {
    if q == [] || Less(side, x, q[0]) {
    } else {
      InsertRefMembers(side, x, q[1..]);
      assert q == [q[0]] + q[1..];
    }
  }

  lemma {:induction false} InsertRefSorted(side: Side, x: Order, q: seq<Order>)
    requires SortedRefs(side, q) && forall i :: 0 <= i < |q| ==> q[i].enteredAt != x.enteredAt
    ensures SortedRefs(side, InsertRef(side, x, q))
  {
    if q == [] {
    } else if Less(side, x, q[0]) {
      assert forall j :: 0 < j < |q| ==> Less(side, q[0], q[j]);
    } else {
      var t := InsertRef(side, x, q[1..]);
      InsertRefSorted(side, x, q[1..]);
      InsertRefMembers(side, x, q[1..]);
      forall j | 0 <= j < |t| ensures Less(side, q[0], t[j]) {
        assert t[j] == x || t[j] in q[1..];
      }
    }
  }

  /** Entering a reference enters its value at the same place. */
  lemma {:induction false} InsertRefMirrors(side: Side, x: Order, q: seq<Order>, c: seq<Resting>)
    requires Mirrors(c, q)
    ensures Mirrors(Insert(side, AsResting(x, x.remaining), c), InsertRef(side, x, q))
  {
    if q == [] || Less(side, x, q[0]) {
    } else {
      InsertRefMirrors(side, x, q[1..], c[1..]);
    }
  }

  lemma {:induction false} DropRefMembers(side: Side, q: seq<Order>, x: Order)
    requires SortedRefs(side, q) && x in q
    ensures var t := DropRef(q, x);
            && (forall j :: 0 <= j < |t| ==> t[j] in q && t[j] != x)
            && (forall j :: 0 <= j < |q| ==> q[j] in t || q[j] == x)
  {
    assert forall j :: 0 < j < |q| ==> Less(side, q[0], q[j]);
    assert q == [q[0]] + q[1..];
    if q[0] != x {
      DropRefMembers(side, q[1..], x);
    }
  }

  lemma {:induction false} DropRefSorted(side: Side, q: seq<Order>, x: Order)
    requires SortedRefs(side, q) && x in q
    ensures SortedRefs(side, DropRef(q, x))
  {
    if q[0] != x {
      assert q == [q[0]] + q[1..];
      DropRefSorted(side, q[1..], x);
      DropRefMembers(side, q[1..], x);
      SortedCons(side, q[0], q[1..], DropRef(q[1..], x));
    }
  }

  lemma SortedCons(side: Side, x: Order, q: seq<Order>, t: seq<Order>)
    requires SortedRefs(side, [x] + q) && SortedRefs(side, t) && forall j :: 0 <= j < |t| ==> t[j] in q
    ensures SortedRefs(side, [x] + t)
  {
    forall j | 0 <= j < |t| ensures Less(side, x, t[j]) {
      var k :| 0 <= k < |q| && q[k] == t[j];
      assert ([x] + q)[0] == x && ([x] + q)[k + 1] == t[j];
    }
  }

  /** Removing a reference removes exactly the value of that id. */
  lemma {:induction false} DropRefMirrors(side: Side, q: seq<Order>, x: Order, c: seq<Resting>)
    requires Mirrors(c, q)
    requires SortedRefs(side, q) && x in q && forall i :: 0 <= i < |q| && q[i] != x ==> q[i].id != x.id
    ensures Mirrors(Drop(c, {x.id}), DropRef(q, x))
  {
    if q[0] == x {
      assert forall i :: 0 < i < |q| ==> Less(side, q[0], q[i]);
      DropNone(c[1..], {x.id});
    } else {
      assert x in q[1..];
      DropRefMirrors(side, q[1..], x, c[1..]);
    }
  }

  // ---------- The heap ----------

  class OrderHeap {
    const side: Side
    var elems: seq<Order>
    ghost var members: set<Order>  // the orders in the heap
    ghost var queue: seq<Order>    // the same orders by priority
    ghost var contents: seq<Resting>  // the queue as values

    constructor (side: Side)
      ensures Valid() && this.side == side && members == {} && contents == []
    {
      this.side, elems, members, queue, contents := side, [], {}, [], [];
    }

    /** Every order knows its position, and every position holds one of the orders. */
    ghost predicate Indexed()
      reads this, members
    {
      && (forall i :: 0 <= i < |elems| ==> elems[i] in members && elems[i].index == i)
      && (forall o :: o in members ==> 0 <= o.index < |elems| && elems[o.index] == o)
    }

    ghost predicate Valid()
      reads this, members
    {
      && Queued() && |contents| == |queue|
      && (forall i :: 0 <= i < |queue| ==> contents[i] == AsResting(queue[i], queue[i].remaining))
      && (forall o :: o in members ==> o.side == side && o.kind.Limit?)
    }

    /** The queue holds the orders of the heap by priority. */
    ghost predicate Queued()
      reads this, members
    {
      && Indexed() && Ordered(side, elems, |elems|)
      && SortedRefs(side, queue)
      && (forall i :: 0 <= i < |queue| ==> queue[i] in members) && (forall o :: o in members ==> o in queue)
    }

    /** `other` is a different heap that shares no order with this one. */
    ghost predicate Beside(other: OrderHeap)
      reads this, other, other.members
    {
      other != this && other.Valid() && members !! other.members
    }

    method Swap(i: nat, j: nat)
      requires Indexed() && i < |elems| && j < |elems|
      modifies this`elems, members`index
      ensures Indexed() && elems == Swapped(old(elems), i, j)
    {
      elems := elems[i := elems[j]][j := elems[i]];
      elems[i].index := i;
      elems[j].index := j;
    }

    /** One round of `Down`: the order at `i` changes places with its best child, if that has priority. */
    method Sink(i: nat, n: nat) returns (j: nat)
      requires Indexed() && i <= n <= |elems|
      requires OrderedBut(side, elems, n, i) && Bridged(side, elems, n, i)
      modifies this`elems, members`index
      ensures Indexed() && |elems| == old(|elems|)
      ensures forall k :: n <= k < |elems| ==> elems[k] == old(elems[k])
      ensures j == i ==> elems == old(elems) && OrderedAbove(side, elems, n, i)
      ensures j != i ==> 0 < j < n && Parent(j) == i && !Less(side, elems[j], elems[i])
      ensures j != i ==> OrderedBut(side, elems, n, j) && Bridged(side, elems, n, j)
    {
      var j1 := 2 * i + 1;
      if j1 >= n {
        SiftDone(side, elems, n, i);
        return i;
      }
      j := j1;
      if j1 + 1 < n && Less(side, elems[j1 + 1], elems[j1]) {
        j := j1 + 1;
      }
      if !Less(side, elems[j], elems[i]) {
        SiftDone(side, elems, n, i);
        return i;
      }
      SiftStep(side, elems, n, i, j);
      Swap(i, j);
    }

    /** Sift the order at `i0` down among the first `n`; says whether it moved. */
    method Down(i0: nat, n: nat) returns (moved: bool)
      requires Indexed() && i0 <= n <= |elems|
      requires OrderedBut(side, elems, n, i0) && Bridged(side, elems, n, i0)
      modifies this`elems, members`index
      ensures Indexed() && |elems| == old(|elems|)
      ensures forall k :: n <= k < |elems| ==> elems[k] == old(elems[k])
      ensures if moved then Ordered(side, elems, n) else elems == old(elems) && OrderedAbove(side, elems, n, i0)
    {
      var i := i0;
      while true
        invariant i0 <= i <= n <= |elems| == old(|elems|)
        invariant Indexed()
        invariant forall k :: n <= k < |elems| ==> elems[k] == old(elems[k])
        invariant OrderedBut(side, elems, n, i) && Bridged(side, elems, n, i)
        invariant if i == i0 then elems == old(elems) else i < n && !Less(side, elems[i], elems[Parent(i)])
        decreases n - i
      {
        var j := Sink(i, n);
        if j == i { break; }
        i := j;
      }
      moved := i > i0;
    }

    /** Sift the order at `j0`, one of the first `n`, up. */
    method Up(j0: nat, ghost n: nat)
      requires Indexed() && j0 < n <= |elems|
      requires OrderedAbove(side, elems, n, j0) && Bridged(side, elems, n, j0)
      modifies this`elems, members`index
      ensures Indexed() && |elems| == old(|elems|)
      ensures forall k :: n <= k < |elems| ==> elems[k] == old(elems[k])
      ensures Ordered(side, elems, n)
    {
      var j := j0;
      while true
        invariant 0 <= j < n <= |elems| == old(|elems|)
        invariant Indexed()
        invariant forall k :: n <= k < |elems| ==> elems[k] == old(elems[k])
        invariant OrderedAbove(side, elems, n, j) && Bridged(side, elems, n, j)
        decreases j
      {
        var i := if j == 0 then 0 else (j - 1) / 2;
        if i == j || !Less(side, elems[j], elems[i]) { break; }
        RaiseStep(side, elems, n, j);
        Swap(i, j);
        j := i;
      }
    }

    method Push(x: Order)
      requires Queued() && x !in members
      requires forall o :: o in members ==> o.enteredAt != x.enteredAt
      modifies this`elems, this`members, this`queue, members`index, x`index
      ensures Queued() && members == old(members) + {x}
      ensures queue == InsertRef(side, x, old(queue))
    {
      x.index := |elems|;
      elems, members := elems + [x], members + {x};
      Up(|elems| - 1, |elems|);
      assert forall i :: 0 <= i < |queue| ==> queue[i] in queue;
      InsertRefMembers(side, x, queue);
      InsertRefSorted(side, x, queue);
      queue := InsertRef(side, x, queue);
    }

    /** Take the last element off the slice. */
    method Shrink() returns (x: Order)
      requires Indexed() && elems != []
      modifies this`elems, this`members, members`index
      ensures x == old(elems[|elems| - 1]) && elems == old(elems[..|elems| - 1])
      ensures Indexed() && x.index == -1 && x in old(members) && members == old(members) - {x}
    {
      var n := |elems| - 1;
      x := elems[n];
      x.index := -1;
      elems, members := elems[..n], members - {x};
    }

    method PopRoot() returns (x: Order)
      requires Indexed() && Ordered(side, elems, |elems|) && elems != []
      modifies this`elems, this`members, members`index
      ensures Indexed() && Ordered(side, elems, |elems|)
      ensures x == old(elems[0]) && x.index == -1 && x in old(members) && members == old(members) - {x}
    {
      var n := |elems| - 1;
      if n > 0 {
        SwapOut(side, elems, 0);
      }
      Swap(0, n);
      var moved := Down(0, n);
      x := Shrink();
    }

    method RemoveAt(i: nat) returns (x: Order)
      requires Indexed() && Ordered(side, elems, |elems|) && i < |elems|
      modifies this`elems, this`members, members`index
      ensures Indexed() && Ordered(side, elems, |elems|)
      ensures x == old(elems[i]) && x.index == -1 && x in old(members) && members == old(members) - {x}
    {
      var n := |elems| - 1;
      if n != i {
        SwapOut(side, elems, i);
        Swap(i, n);
        var moved := Down(i, n);
        if !moved {
          Up(i, n);
        }
      }
      x := Shrink();
    }

    method Pop() returns (x: Order)
      requires Valid() && elems != []
      modifies this, members`index
      ensures Valid() && x.index == -1 && x in old(members) && members == old(members) - {x}
      ensures x == old(elems[0]) && old(contents) != [] && contents == old(contents[1..])
    {
      RootIsHead(side, elems, queue);
      assert forall j :: 0 < j < |queue| ==> Less(side, queue[0], queue[j]);
      x := PopRoot();
      queue, contents := queue[1..], contents[1..];
    }

    method Remove(i: nat) returns (x: Order)
      requires Queued() && i < |elems|
      modifies this`elems, this`members, this`queue, members`index
      ensures Queued() && x.index == -1 && x in old(members) && members == old(members) - {x}
      ensures x == old(elems[i]) && queue == DropRef(old(queue), x)
    {
      x := RemoveAt(i);
      DropRefMembers(side, queue, x);
      DropRefSorted(side, queue, x);
      queue := DropRef(queue, x);
    }

    /** Restore heap order around `i`. The order there may have changed, but not in what decides priority. */
    method Fix(i: nat)
      requires Valid() && i < |elems|
      modifies this`elems, members`index
      ensures Valid()
    {
      var moved := Down(i, |elems|);
      if !moved {
        Up(i, |elems|);
      }
    }

    /** The root of the heap is the first order by priority. */
    lemma Head()
      requires Valid()
      ensures elems == [] <==> contents == []
      ensures elems != [] ==> elems[0] in members && contents[0] == AsResting(elems[0], elems[0].remaining)
    {
      assert |queue| > 0 ==> queue[0] in members;
      if elems != [] {
        RootIsHead(side, elems, queue);
      }
    }

    /** Take `qty` from the root, which stays where it is. */
    method Lower(qty: int) returns (best: Order)
      requires Valid() && elems != []
      modifies this`contents, members`remaining
      ensures Valid() && contents != []
      ensures best in members && best == elems[0] && best.remaining == contents[0].remaining
      ensures old(contents) != []
      ensures contents == old(contents[0 := contents[0].(remaining := contents[0].remaining - qty)])
    {
      RootIsHead(side, elems, queue);
      assert forall i :: 0 < i < |queue| ==> Less(side, queue[0], queue[i]);
      best := elems[0];
      best.remaining := best.remaining - qty;
      contents := contents[0 := AsResting(best, best.remaining)];
    }

    /** Trade `qty` with the root: it is popped when nothing of it remains, and fixed in place otherwise. */
    method TakeBest(qty: int, ghost other: OrderHeap) returns (best: Order)
      requires Valid() && elems != [] && Beside(other)
      modifies this, members
      ensures Valid() && Beside(other) && best in old(members)
      ensures members == if best.remaining == 0 then old(members) - {best} else old(members)
      ensures old(contents) != [] && contents == AfterTrade(old(contents), qty)
    {
      best := Lower(qty);
      if best.remaining == 0 {
        best := Pop();
      } else {
        Fix(0);
      }
    }

    method Admit(x: Order)
      requires Valid() && x !in members && x.side == side && x.kind.Limit?
      requires forall o :: o in members ==> o.enteredAt != x.enteredAt
      modifies this, members`index, x`index
      ensures Valid() && members == old(members) + {x}
      ensures contents == Insert(side, AsResting(x, x.remaining), old(contents))
    {
      InsertRefMirrors(side, x, queue, contents);
      ghost var c, q := Insert(side, AsResting(x, x.remaining), contents), InsertRef(side, x, queue);
      assert Mirrors(c, q);
      Push(x);
      contents := c;
      assert Mirrors(contents, queue);
    }

    /** Entering an order, by priority. */
    method Enter(x: Order, ghost other: OrderHeap)
      requires Valid() && Beside(other) && x !in members && x !in other.members && x.side == side && x.kind.Limit?
      requires forall o :: o in members ==> o.enteredAt != x.enteredAt
      modifies this, members`index, x`index
      ensures Valid() && Beside(other) && members == old(members) + {x}
      ensures contents == Insert(side, AsResting(x, x.remaining), old(contents))
    {
      Admit(x);
    }

    method Expel(x: Order)
      requires Valid() && x in members && forall o :: o in members && o != x ==> o.id != x.id
      modifies this, members`index
      ensures Valid() && members == old(members) - {x}
      ensures contents == Drop(old(contents), {x.id})
    {
      DropRefMirrors(side, queue, x, contents);
      ghost var c, q := Drop(contents, {x.id}), DropRef(queue, x);
      assert Mirrors(c, q);
      var y := Remove(x.index);
      contents := c;
      assert Mirrors(contents, queue);
    }

    /** Removing an order by its stored position, by priority. */
    method Withdraw(x: Order, ghost other: OrderHeap)
      requires Valid() && Beside(other) && x in members
      requires forall o :: o in members && o != x ==> o.id != x.id
      modifies this, members`index
      ensures Valid() && Beside(other) && members == old(members) - {x}
      ensures contents == Drop(old(contents), {x.id})
    {
      Expel(x);
    }
  }
}
