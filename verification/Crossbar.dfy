/** One direction of the HMC crossbar: packets move from source queues to destination queues, oldest
    first by the age counters.  Requests and responses use the same mechanism. */
module Crossbar {

  datatype Packet<B> = Packet(dest: nat, flits: nat, exit: nat, body: B)

  /** `busy` belongs to the destinations and `age` to the sources.  `fault` is set where the source code
      would take the front of an empty queue or address a queue that does not exist. */
  datatype Xbar<B> = Xbar(
    src: seq<seq<Packet<B>>>, dst: seq<seq<Packet<B>>>, busy: seq<int>, age: seq<int>, fault: bool)

  // ---- arbitration order

  /** Position `i` of a scan over `n` entries that starts at `start` and wraps around. */
  function Rotated(start: nat, n: nat, i: nat): (p: nat)
    requires start < n && i < n
    ensures p < n
  {
    if i + start < n then i + start else i + start - n
  }

  lemma RotatedIsModulo(start: nat, n: nat, i: nat)
    requires start < n && i < n
    ensures Rotated(start, n, i) == (i + start) % n
  {
  }

  /** Insert `pos` before the first listed position smaller than its age. */
  function Insert(q: seq<nat>, pos: nat, age: int): seq<nat> {
    if q == [] then [pos] else if age > q[0] then [pos] + q else [q[0]] + Insert(q[1..], pos, age)
  }

  /** The order built from the first `i` positions of the scan. */
  function OrderUpTo(age: seq<int>, start: nat, i: nat): seq<nat>
    requires start < |age| && i <= |age|
  {
    if i == 0 then []
    else
      var q, pos := OrderUpTo(age, start, i - 1), Rotated(start, |age|, i - 1);
      if age[pos] > 0 then Insert(q, pos, age[pos]) else q
  }

  function AgeQueue(age: seq<int>, clk: nat): seq<nat> {
    if age == [] then [] else OrderUpTo(age, clk % |age|, |age|)
  }

  /** How often `p` is listed. */
  function Times(q: seq<nat>, p: nat): nat {
    multiset(q)[p]
  }

  lemma {:induction false} InsertAdds(q: seq<nat>, pos: nat, age: int, p: nat)
    ensures Times(Insert(q, pos, age), p) == Times(q, p) + (if p == pos then 1 else 0)
  {
    if q != [] {
      assert q == [q[0]] + q[1..];
      if age <= q[0] {
        InsertAdds(q[1..], pos, age, p);
      }
    }
  }

  /** The step of the scan that visits position `p`. */
  function VisitOf(start: nat, n: nat, p: nat): (i: nat)
    requires start < n && p < n
    ensures i < n && Rotated(start, n, i) == p
  {
    if p >= start then p - start else p + n - start
  }

  lemma VisitedOnce(start: nat, n: nat, i: nat, p: nat)
    requires start < n && i < n && p < n
    ensures VisitOf(start, n, p) == i <==> Rotated(start, n, i) == p
  {
  }

  lemma OrderStep(age: seq<int>, start: nat, i: nat, p: nat)
    requires start < |age| && 0 < i <= |age|
    ensures var pos := Rotated(start, |age|, i - 1);
      Times(OrderUpTo(age, start, i), p)
      == Times(OrderUpTo(age, start, i - 1), p) + (if age[pos] > 0 && p == pos then 1 else 0)
  {
    hide Rotated, Times, Insert;
    var pos := Rotated(start, |age|, i - 1);
    InsertAdds(OrderUpTo(age, start, i - 1), pos, age[pos], p);
  }

  lemma NothingListed(age: seq<int>, start: nat, p: nat)
    requires start < |age|
    ensures Times(OrderUpTo(age, start, 0), p) == 0
  {
  }

  lemma {:induction false} OrderCounts(age: seq<int>, start: nat, i: nat, p: nat)
    requires start < |age| && i <= |age| && p < |age|
    ensures Times(OrderUpTo(age, start, i), p) == if age[p] > 0 && VisitOf(start, |age|, p) < i then 1 else 0
  {
    hide *;
    if i == 0 {
      NothingListed(age, start, p);
    } else {
      OrderCounts(age, start, i - 1, p);
      VisitedOnce(start, |age|, i - 1, p);
      OrderStep(age, start, i, p);
    }
  }

  lemma {:induction false} OrderInRange(age: seq<int>, start: nat, i: nat, p: nat)
    requires start < |age| && i <= |age| && p >= |age|
    ensures Times(OrderUpTo(age, start, i), p) == 0
  {
    hide *;
    if i == 0 {
      NothingListed(age, start, p);
    } else {
      OrderInRange(age, start, i - 1, p);
      OrderStep(age, start, i, p);
    }
  }

  /** Every position with a positive age is listed exactly once and no other position is. */
  lemma AgeQueueLists(age: seq<int>, clk: nat, p: nat)
    ensures multiset(AgeQueue(age, clk))[p] == if p < |age| && age[p] > 0 then 1 else 0
  {
    if age != [] {
      if p < |age| {
        OrderCounts(age, clk % |age|, |age|, p);
      } else {
        OrderInRange(age, clk % |age|, |age|, p);
      }
    }
  }

  lemma OrderNext(age: seq<int>, start: nat, i: nat)
    requires start < |age| && i < |age|
    ensures OrderUpTo(age, start, 0) == []
    ensures var (q, pos) := (OrderUpTo(age, start, i), Rotated(start, |age|, i));
      OrderUpTo(age, start, i + 1) == if age[pos] > 0 then Insert(q, pos, age[pos]) else q
  {
  }

  lemma AgeQueueIs(age: seq<int>, clk: nat)
    requires |age| > 0
    ensures 0 <= clk % |age| < |age| && AgeQueue(age, clk) == OrderUpTo(age, clk % |age|, |age|)
  {
  }

  method BuildAgeQueue(age: seq<int>, clk: nat) returns (q: seq<nat>)
    requires |age| > 0
    ensures q == AgeQueue(age, clk)
    ensures forall p: nat :: multiset(q)[p] == if p < |age| && age[p] > 0 then 1 else 0
  {
    hide *;
    AgeQueueIs(age, clk);
    q := [];
    var start := clk % |age|;
    var i := 0;
    OrderNext(age, start, 0);
    while i < |age|
      invariant 0 <= i <= |age| && q == OrderUpTo(age, start, i)
    {
      var pos := (i + start) % |age|;
      RotatedIsModulo(start, |age|, i);
      OrderNext(age, start, i);
      if age[pos] > 0 {
        q := InsertByAge(q, pos, age[pos]);
      }
      i := i + 1;
    }
    forall p: nat ensures multiset(q)[p] == if p < |age| && age[p] > 0 then 1 else 0 {
      AgeQueueLists(age, clk, p);
    }
  }

  method InsertByAge(q: seq<nat>, pos: nat, age: int) returns (r: seq<nat>)
    ensures r == Insert(q, pos, age)
  {
    hide Insert;
    var i := 0;
    while i < |q|
      invariant 0 <= i <= |q| && forall j :: 0 <= j < i ==> age <= q[j]
    {
      if age > q[i] {
        InsertAt(q, pos, age, i);
        return q[..i] + [pos] + q[i..];
      }
      i := i + 1;
    }
    InsertAt(q, pos, age, i);
    r := q + [pos];
  }

  lemma {:induction false} InsertAt(q: seq<nat>, pos: nat, age: int, i: nat)
    requires i <= |q| && (forall j :: 0 <= j < i ==> age <= q[j]) && (i < |q| ==> age > q[i])
    ensures Insert(q, pos, age) == q[..i] + [pos] + q[i..]
  {
    if i > 0 {
      InsertAt(q[1..], pos, age, i - 1);
      assert q[..i] == [q[0]] + q[1..][..i-1] && q[i..] == q[1..][i-1..];
    }
  }

  // ---- moving packets

  /** What has to hold of a crossbar whose packets all meet `good`. */
  ghost predicate Ok<B(!new)>(x: Xbar<B>, good: Packet<B> -> bool) {
    && !x.fault && |x.age| == |x.src| && |x.busy| == |x.dst|
    && (forall s :: 0 <= s < |x.src| ==> x.age[s] >= 0 && (x.age[s] > 0 <==> x.src[s] != []))
    && (forall s :: 0 <= s < |x.src| ==> AllGood(x.src[s], good, |x.dst|))
    && (forall d :: 0 <= d < |x.dst| ==> AllGood(x.dst[d], good, |x.dst|))
  }

  ghost predicate AllGood<B(!new)>(q: seq<Packet<B>>, good: Packet<B> -> bool, n: nat) {
    forall i :: 0 <= i < |q| ==> good(q[i]) && q[i].dest < n
  }

  ghost predicate IgnoresExit<B(!new)>(good: Packet<B> -> bool) {
    forall p: Packet<B>, e: nat :: good(p.(exit := e)) == good(p)
  }

  function Push<B>(qs: seq<seq<Packet<B>>>, d: nat, p: Packet<B>): seq<seq<Packet<B>>>
    requires d < |qs|
  {
    qs[d := qs[d] + [p]]
  }

  function Pop<B>(qs: seq<seq<Packet<B>>>, s: nat): seq<seq<Packet<B>>>
    requires s < |qs| && qs[s] != []
  {
    qs[s := qs[s][1..]]
  }

  /** The front packet of source `s` crosses if its destination has room and is idle; otherwise the source
      grows older. */
  function CrossOne<B>(x: Xbar<B>, s: nat, depth: nat, clk: nat): (y: Xbar<B>)
    requires |x.age| == |x.src| && |x.busy| == |x.dst|
    ensures |y.src| == |x.src| && |y.dst| == |x.dst| && |y.age| == |x.age| && |y.busy| == |x.busy|
  {
    if s >= |x.src| || x.src[s] == [] || x.src[s][0].dest >= |x.dst| then x.(fault := true)
    else
      var p := x.src[s][0];
      if |x.dst[p.dest]| < depth && x.busy[p.dest] <= 0 then
        Xbar(Pop(x.src, s), Push(x.dst, p.dest, p.(exit := clk + p.flits)),
             x.busy[p.dest := p.flits], x.age[s := if |x.src[s]| == 1 then 0 else 1], x.fault)
      else x.(age := x.age[s := x.age[s] + 1])
  }

  function CrossAll<B>(x: Xbar<B>, order: seq<nat>, depth: nat, clk: nat): (y: Xbar<B>)
    requires |x.age| == |x.src| && |x.busy| == |x.dst|
    ensures |y.src| == |x.src| && |y.dst| == |x.dst| && |y.age| == |x.age| && |y.busy| == |x.busy|
    decreases |order|
  {
    if order == [] then x else CrossAll(CrossOne(x, order[0], depth, clk), order[1..], depth, clk)
  }

  /** The crossbar carries two flits per destination and cycle. */
  function Cooled(busy: seq<int>): seq<int> {
    seq(|busy|, i requires 0 <= i < |busy| => if busy[i] > 0 then busy[i] - 2 else busy[i])
  }

  function Cross<B>(x: Xbar<B>, depth: nat, clk: nat): (y: Xbar<B>)
    requires |x.age| == |x.src| && |x.busy| == |x.dst|
    ensures |y.src| == |x.src| && |y.dst| == |x.dst| && |y.age| == |x.age| && |y.busy| == |x.busy|
  {
    CrossAll(x.(busy := Cooled(x.busy)), AgeQueue(x.age, clk), depth, clk)
  }

  // ---- the crossing keeps the crossbar in order

  lemma CrossOneOk<B(!new)>(x: Xbar<B>, s: nat, depth: nat, clk: nat, good: Packet<B> -> bool)
    requires Ok(x, good) && IgnoresExit(good) && s < |x.src| && x.age[s] > 0
    ensures Ok(CrossOne(x, s, depth, clk), good)
    ensures forall t :: 0 <= t < |x.src| && t != s ==> CrossOne(x, s, depth, clk).age[t] == x.age[t]
  {
    assert AllGood(x.src[s], good, |x.dst|);
    var p := x.src[s][0];
    assert good(p) && p.dest < |x.dst|;
    assert good(p.(exit := clk + p.flits));
    assert AllGood(x.dst[p.dest], good, |x.dst|);
  }

  lemma {:induction false} CrossAllOk<B(!new)>(x: Xbar<B>, order: seq<nat>, depth: nat, clk: nat, good: Packet<B> -> bool)
    requires Ok(x, good) && IgnoresExit(good)
    requires forall s :: s in order ==> s < |x.src| && x.age[s] > 0 && multiset(order)[s] == 1
    ensures Ok(CrossAll(x, order, depth, clk), good)
    decreases |order|
  {
    hide Ok, CrossOne;
    if order != [] {
      var rest := order[1..];
      assert order == [order[0]] + rest;
      assert order[0] in order;
      CrossOneOk(x, order[0], depth, clk, good);
      var y := CrossOne(x, order[0], depth, clk);
      forall s | s in rest ensures s < |y.src| && y.age[s] > 0 && multiset(rest)[s] == 1 {
        assert s in order && multiset(order)[s] == 1;
        assert multiset(order)[s] == multiset([order[0]])[s] + multiset(rest)[s];
        assert multiset(rest)[s] >= 1;
      }
      CrossAllOk(y, rest, depth, clk, good);
    }
  }

  /** Arbitration never takes the front of an empty queue: the age counters say exactly which queues hold
      packets, and crossing keeps them so. */
  lemma CrossOk<B(!new)>(x: Xbar<B>, depth: nat, clk: nat, good: Packet<B> -> bool)
    requires Ok(x, good) && IgnoresExit(good)
    ensures Ok(Cross(x, depth, clk), good)
  {
    var order := AgeQueue(x.age, clk);
    forall s | s in order ensures s < |x.src| && x.age[s] > 0 && multiset(order)[s] == 1 {
      AgeQueueLists(x.age, clk, s);
    }
    CrossAllOk(x.(busy := Cooled(x.busy)), order, depth, clk, good);
  }

  predicate Bounded<B>(qs: seq<seq<Packet<B>>>, depth: nat) {
    forall i :: 0 <= i < |qs| ==> |qs[i]| <= depth
  }

  /** Destination queues never outgrow the depth, and sources only shrink. */
  lemma {:induction false} CrossAllBounded<B>(x: Xbar<B>, order: seq<nat>, depth: nat, clk: nat)
    requires |x.age| == |x.src| && |x.busy| == |x.dst|
    ensures Bounded(x.dst, depth) ==> Bounded(CrossAll(x, order, depth, clk).dst, depth)
    ensures Bounded(x.src, depth) ==> Bounded(CrossAll(x, order, depth, clk).src, depth)
    decreases |order|
  {
    if order != [] {
      CrossAllBounded(CrossOne(x, order[0], depth, clk), order[1..], depth, clk);
    }
  }

  // ---- nothing is lost in the crossing

  function Keys<B, K>(q: seq<Packet<B>>, key: Packet<B> -> K): multiset<K> {
    multiset(seq(|q|, i requires 0 <= i < |q| => key(q[i])))
  }

  function Total<B, K>(qs: seq<seq<Packet<B>>>, key: Packet<B> -> K): multiset<K> {
    if qs == [] then multiset{} else Keys(qs[0], key) + Total(qs[1..], key)
  }

  /** The keys of all packets in a crossbar. */
  function Load<B, K>(x: Xbar<B>, key: Packet<B> -> K): multiset<K> {
    Total(x.src, key) + Total(x.dst, key)
  }

  ghost predicate Stable<B(!new), K(!new)>(key: Packet<B> -> K) {
    forall p: Packet<B>, e: nat :: key(p.(exit := e)) == key(p)
  }

  lemma KeysPush<B, K>(q: seq<Packet<B>>, p: Packet<B>, key: Packet<B> -> K)
    ensures Keys(q + [p], key) == Keys(q, key) + multiset{key(p)}
  {
    assert seq(|q + [p]|, i requires 0 <= i < |q + [p]| => key((q + [p])[i]))
        == seq(|q|, i requires 0 <= i < |q| => key(q[i])) + [key(p)];
  }

  lemma KeysPop<B, K>(q: seq<Packet<B>>, key: Packet<B> -> K)
    requires q != []
    ensures Keys(q, key) == multiset{key(q[0])} + Keys(q[1..], key)
  {
    assert seq(|q|, i requires 0 <= i < |q| => key(q[i]))
        == [key(q[0])] + seq(|q[1..]|, i requires 0 <= i < |q[1..]| => key(q[1..][i]));
  }

  lemma {:induction false} TotalUpdate<B, K>(qs: seq<seq<Packet<B>>>, i: nat, q: seq<Packet<B>>, key: Packet<B> -> K)
    requires i < |qs|
    ensures Total(qs[i := q], key) + Keys(qs[i], key) == Total(qs, key) + Keys(q, key)
  {
    hide Keys;
    if i == 0 {
      assert qs[i := q][1..] == qs[1..];
    } else {
      TotalUpdate(qs[1..], i - 1, q, key);
      assert qs[i := q][1..] == qs[1..][i-1 := q] && qs[i := q][0] == qs[0];
      Regroup(Keys(qs[0], key), Total(qs[1..][i-1 := q], key), Keys(qs[i], key));
      Regroup(Keys(qs[0], key), Total(qs[1..], key), Keys(q, key));
    }
  }

  lemma Regroup<K>(a: multiset<K>, b: multiset<K>, c: multiset<K>)
    ensures (a + b) + c == a + (b + c)
  {
  }

  lemma Cancel<K>(a: multiset<K>, b: multiset<K>, c: multiset<K>)
    requires a + c == b + c
    ensures a == b
  {
    assert forall k :: (a + c)[k] == a[k] + c[k] && (b + c)[k] == b[k] + c[k];
  }

  lemma TotalPush<B, K>(qs: seq<seq<Packet<B>>>, d: nat, p: Packet<B>, key: Packet<B> -> K)
    requires d < |qs|
    ensures Total(Push(qs, d, p), key) == Total(qs, key) + multiset{key(p)}
  {
    hide Keys, Total;
    TotalUpdate(qs, d, qs[d] + [p], key);
    KeysPush(qs[d], p, key);
    Cancel(Total(Push(qs, d, p), key), Total(qs, key) + multiset{key(p)}, Keys(qs[d], key));
  }

  lemma TotalPop<B, K>(qs: seq<seq<Packet<B>>>, s: nat, key: Packet<B> -> K)
    requires s < |qs| && qs[s] != []
    ensures Total(qs, key) == Total(Pop(qs, s), key) + multiset{key(qs[s][0])}
  {
    hide Keys, Total;
    TotalUpdate(qs, s, qs[s][1..], key);
    KeysPop(qs[s], key);
    Cancel(Total(qs, key), Total(Pop(qs, s), key) + multiset{key(qs[s][0])}, Keys(qs[s][1..], key));
  }

  lemma {:induction false} TotalOfNone<B, K>(qs: seq<seq<Packet<B>>>, key: Packet<B> -> K)
    requires forall i :: 0 <= i < |qs| ==> qs[i] == []
    ensures Total(qs, key) == multiset{}
  {
    if qs != [] {
      TotalOfNone(qs[1..], key);
    }
  }

  lemma CrossOneKeepsLoad<B(!new), K(!new)>(x: Xbar<B>, s: nat, depth: nat, clk: nat, key: Packet<B> -> K)
    requires |x.age| == |x.src| && |x.busy| == |x.dst| && Stable(key)
    ensures Load(CrossOne(x, s, depth, clk), key) == Load(x, key)
  {
    hide Total;
    if s < |x.src| && x.src[s] != [] && x.src[s][0].dest < |x.dst| {
      var p := x.src[s][0];
      TotalPop(x.src, s, key);
      TotalPush(x.dst, p.dest, p.(exit := clk + p.flits), key);
      assert key(p.(exit := clk + p.flits)) == key(p);
    }
  }

  lemma {:induction false} CrossAllKeepsLoad<B(!new), K(!new)>(
    x: Xbar<B>, order: seq<nat>, depth: nat, clk: nat, key: Packet<B> -> K)
    requires |x.age| == |x.src| && |x.busy| == |x.dst| && Stable(key)
    ensures Load(CrossAll(x, order, depth, clk), key) == Load(x, key)
    decreases |order|
  {
    hide Load, CrossOne;
    if order != [] {
      CrossOneKeepsLoad(x, order[0], depth, clk, key);
      CrossAllKeepsLoad(CrossOne(x, order[0], depth, clk), order[1..], depth, clk, key);
    }
  }

  /** Whatever is read off the packets (except the exit time), the crossing conserves it. */
  lemma CrossKeepsLoad<B(!new), K(!new)>(x: Xbar<B>, depth: nat, clk: nat, key: Packet<B> -> K)
    requires |x.age| == |x.src| && |x.busy| == |x.dst| && Stable(key)
    ensures Load(Cross(x, depth, clk), key) == Load(x, key)
  {
    CrossAllKeepsLoad(x.(busy := Cooled(x.busy)), AgeQueue(x.age, clk), depth, clk, key);
  }

  // ---- the loops

  method CoolDown(busy: seq<int>) returns (r: seq<int>)
    ensures r == Cooled(busy)
  {
    r := busy;
    var i := 0;
    while i < |busy|
      invariant 0 <= i <= |busy| == |r|
      invariant forall j :: 0 <= j < i ==> r[j] == Cooled(busy)[j]
      invariant forall j :: i <= j < |busy| ==> r[j] == busy[j]
    {
      if r[i] > 0 {
        r := r[i := r[i] - 2];
      }
      i := i + 1;
    }
  }

  /** One arbitration cycle.  That every `front()` is safe is part of what is checked here. */
  method Transfer<B(!new)>(x: Xbar<B>, depth: nat, clk: nat, ghost good: Packet<B> -> bool) returns (y: Xbar<B>)
    requires Ok(x, good) && IgnoresExit(good) && |x.src| > 0
    ensures y == Cross(x, depth, clk) && Ok(y, good)
  {
    hide Ok, IgnoresExit, AgeQueue, CrossOne, Cooled;
    CrossOk(x, depth, clk, good);
    assert |x.age| == |x.src| && |x.busy| == |x.dst| by { OkShape(x, good); }
    var busy := CoolDown(x.busy);
    y := x.(busy := busy);
    var order: seq<nat> := BuildAgeQueue(x.age, clk);
    CooledOk(x, good);
    forall s | s in order ensures s < |y.src| && y.age[s] > 0 && multiset(order)[s] == 1 {
      AgeQueueLists(x.age, clk, s);
    }
    while order != []
      invariant Ok(y, good) && |y.age| == |y.src| == |x.src| && |y.busy| == |y.dst|
      invariant CrossAll(y, order, depth, clk) == Cross(x, depth, clk)
      invariant forall s :: s in order ==> s < |y.src| && y.age[s] > 0 && multiset(order)[s] == 1
      decreases |order|
    {
      var s := order[0];
      assert s in order && order == [s] + order[1..];
      CrossOneOk(y, s, depth, clk, good);
      var z := TransferOne(y, s, depth, clk, good);
      forall t | t in order[1..] ensures t < |z.src| && z.age[t] > 0 && multiset(order[1..])[t] == 1 {
        assert t in order && multiset(order)[t] == 1;
        assert multiset(order)[t] == multiset([s])[t] + multiset(order[1..])[t];
        assert multiset(order[1..])[t] >= 1;
      }
      y := z;
      order := order[1..];
    }
  }

  lemma OkShape<B(!new)>(x: Xbar<B>, good: Packet<B> -> bool)
    requires Ok(x, good)
    ensures |x.age| == |x.src| && |x.busy| == |x.dst|
  {
  }

  lemma CooledOk<B(!new)>(x: Xbar<B>, good: Packet<B> -> bool)
    requires Ok(x, good)
    ensures Ok(x.(busy := Cooled(x.busy)), good)
  {
  }

  method TransferOne<B(!new)>(x: Xbar<B>, s: nat, depth: nat, clk: nat, ghost good: Packet<B> -> bool) returns (y: Xbar<B>)
    requires Ok(x, good) && s < |x.src| && x.age[s] > 0
    ensures y == CrossOne(x, s, depth, clk)
  {
    var src, dst, busy, age := x.src, x.dst, x.busy, x.age;
    assert AllGood(src[s], good, |dst|);
    assert src[s][0].dest < |dst|;
    var p := src[s][0];
    if |dst[p.dest]| < depth && busy[p.dest] <= 0 {
      src := src[s := src[s][1..]];
      dst := dst[p.dest := dst[p.dest] + [p.(exit := clk + p.flits)]];
      busy := busy[p.dest := p.flits];
      if src[s] == [] {
        age := age[s := 0];
      } else {
        age := age[s := 1];
      }
    } else {
      age := age[s := age[s] + 1];
    }
    y := Xbar(src, dst, busy, age, x.fault);
  }
}
