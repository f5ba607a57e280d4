/** What one arbitration cycle of the crossbar does to each source and each destination, and how fast a
    destination fills. */
module Arbitration {
  import opened Types
  import opened Crossbar

  // ---- what becomes of each source

  /** The front packet of source `s` has crossed. */
  ghost predicate Crossed<B>(x: Xbar<B>, y: Xbar<B>, s: nat)
    requires |x.age| == |x.src| == |y.src| == |y.age| && s < |x.src|
  {
    x.src[s] != [] && y.src[s] == x.src[s][1..] && y.age[s] == if y.src[s] == [] then 0 else 1
  }

  /** Source `s` waits for a destination that is full or still receiving. */
  ghost predicate Waits<B>(x: Xbar<B>, y: Xbar<B>, s: nat, depth: nat)
    requires |x.age| == |x.src| == |y.src| == |y.age| && |y.busy| == |y.dst| && s < |x.src|
  {
    && x.src[s] != [] && y.src[s] == x.src[s] && y.age[s] == x.age[s] + 1
    && x.src[s][0].dest < |y.dst|
    && (|y.dst[x.src[s][0].dest]| >= depth || y.busy[x.src[s][0].dest] > 0)
  }

  ghost predicate Untouched<B>(x: Xbar<B>, y: Xbar<B>, s: nat)
    requires |x.age| == |x.src| == |y.src| == |y.age| && s < |x.src|
  {
    y.src[s] == x.src[s] && y.age[s] == x.age[s]
  }

  predicate SameShape<B>(x: Xbar<B>, y: Xbar<B>) {
    |x.age| == |x.src| == |y.src| == |y.age| && |x.busy| == |x.dst| == |y.dst| == |y.busy|
  }

  /** Destinations only fill up, and stay busy. */
  predicate FillsUp<B>(x: Xbar<B>, y: Xbar<B>)
    requires SameShape(x, y)
  {
    forall d :: 0 <= d < |x.dst| ==> |x.dst[d]| <= |y.dst[d]| && (x.busy[d] > 0 ==> y.busy[d] > 0)
  }

  lemma CrossOneMeaning<B(!new)>(x: Xbar<B>, s: nat, depth: nat, clk: nat, good: Packet<B> -> bool)
    requires Ok(x, good) && s < |x.src| && x.age[s] > 0
    ensures var y := CrossOne(x, s, depth, clk);
      && SameShape(x, y) && FillsUp(x, y)
      && (Crossed(x, y, s) || Waits(x, y, s, depth))
      && forall t :: 0 <= t < |x.src| && t != s ==> Untouched(x, y, t)
  {
    assert AllGood(x.src[s], good, |x.dst|);
    assert x.src[s][0].dest < |x.dst|;
  }

  lemma StillWaits<B>(x: Xbar<B>, y: Xbar<B>, z: Xbar<B>, s: nat, depth: nat)
    requires SameShape(x, y) && SameShape(y, z) && s < |x.src| && Untouched(y, z, s) && FillsUp(y, z)
    ensures Waits(x, y, s, depth) ==> Waits(x, z, s, depth)
    ensures Crossed(x, y, s) ==> Crossed(x, z, s)
  {
  }

  lemma FillsFurther<B>(x: Xbar<B>, y: Xbar<B>, z: Xbar<B>)
    requires SameShape(x, y) && SameShape(y, z) && FillsUp(x, y) && FillsUp(y, z)
    ensures SameShape(x, z) && FillsUp(x, z)
  {
    forall d | 0 <= d < |x.dst| ensures |x.dst[d]| <= |z.dst[d]| && (x.busy[d] > 0 ==> z.busy[d] > 0) {
      assert |x.dst[d]| <= |y.dst[d]|;
    }
  }

  lemma UntouchedFirst<B>(x: Xbar<B>, y: Xbar<B>, z: Xbar<B>, s: nat, depth: nat)
    requires SameShape(x, y) && SameShape(y, z) && s < |x.src| && Untouched(x, y, s)
    ensures Waits(y, z, s, depth) ==> Waits(x, z, s, depth)
    ensures Crossed(y, z, s) ==> Crossed(x, z, s)
    ensures Untouched(y, z, s) ==> Untouched(x, z, s)
  {
  }

  /** Every source listed crosses or waits, every other is left alone. */
  ghost predicate Arbitrated<B>(x: Xbar<B>, y: Xbar<B>, order: seq<nat>, depth: nat) {
    && SameShape(x, y) && FillsUp(x, y)
    && forall s :: 0 <= s < |x.src| ==> if s in order then Crossed(x, y, s) || Waits(x, y, s, depth) else Untouched(x, y, s)
  }

  lemma {:induction false} CrossAllMeaning<B(!new)>(x: Xbar<B>, order: seq<nat>, depth: nat, clk: nat, good: Packet<B> -> bool)
    requires Ok(x, good) && IgnoresExit(good)
    requires forall s :: s in order ==> s < |x.src| && x.age[s] > 0 && multiset(order)[s] == 1
    ensures Arbitrated(x, CrossAll(x, order, depth, clk), order, depth)
    decreases |order|
  {
    hide Ok, CrossOne, Crossed, Waits, Untouched, FillsUp, IgnoresExit;
    OkShape(x, good);
    if order == [] {
      NothingArbitrated(x);
    } else {
      var s0, rest := order[0], order[1..];
      assert order == [s0] + rest && s0 in order;
      var y := CrossOne(x, s0, depth, clk);
      CrossOneOk(x, s0, depth, clk, good);
      CrossOneMeaning(x, s0, depth, clk, good);
      forall s | s in rest ensures s < |y.src| && y.age[s] > 0 && multiset(rest)[s] == 1 && s != s0 {
        assert s in order && multiset(order)[s] == 1;
        assert multiset(order)[s] == multiset([s0])[s] + multiset(rest)[s];
        assert multiset(rest)[s] >= 1;
      }
      CrossAllMeaning(y, rest, depth, clk, good);
      ArbitratedFirst(x, y, CrossAll(y, rest, depth, clk), order, depth);
    }
  }

  lemma NothingArbitrated<B>(x: Xbar<B>)
    requires |x.age| == |x.src| && |x.busy| == |x.dst|
    ensures SameShape(x, x) && FillsUp(x, x) && forall s :: 0 <= s < |x.src| ==> Untouched(x, x, s)
  {
  }

  lemma ArbitratedFirst<B>(x: Xbar<B>, y: Xbar<B>, z: Xbar<B>, order: seq<nat>, depth: nat)
    requires order != [] && order[0] !in order[1..] && order[0] < |x.src|
    requires SameShape(x, y) && FillsUp(x, y) && (Crossed(x, y, order[0]) || Waits(x, y, order[0], depth))
    requires forall t :: 0 <= t < |x.src| && t != order[0] ==> Untouched(x, y, t)
    requires Arbitrated(y, z, order[1..], depth)
    ensures Arbitrated(x, z, order, depth)
  {
    hide Crossed, Waits, Untouched, FillsUp;
    FillsFurther(x, y, z);
    assert order == [order[0]] + order[1..];
    forall s | 0 <= s < |x.src|
      ensures if s in order then Crossed(x, z, s) || Waits(x, z, s, depth) else Untouched(x, z, s)
    {
      if s == order[0] {
        StillWaits(x, y, z, s, depth);
      } else {
        UntouchedFirst(x, y, z, s, depth);
      }
    }
  }

  /** In one cycle every source that holds a packet sends its front packet across, or waits, one cycle older,
      for a destination that ends the cycle full or busy. */
  lemma CrossMeaning<B(!new)>(x: Xbar<B>, depth: nat, clk: nat, good: Packet<B> -> bool)
    requires Ok(x, good) && IgnoresExit(good)
    ensures var y := Cross(x, depth, clk);
      && SameShape(x, y)
      && forall s :: 0 <= s < |x.src| ==>
           if x.src[s] == [] then y.src[s] == [] && y.age[s] == 0
           else Crossed(x, y, s) || Waits(x, y, s, depth)
  {
    hide IgnoresExit, Crossed, Waits, CrossAll;
    var order := AgeQueue(x.age, clk);
    forall s | 0 <= s < |x.src| ensures s in order <==> x.src[s] != [] {
      AgeQueueLists(x.age, clk, s);
    }
    forall s | s in order ensures s < |x.src| && x.age[s] > 0 && multiset(order)[s] == 1 {
      AgeQueueLists(x.age, clk, s);
    }
    var cooled := x.(busy := Cooled(x.busy));
    CooledOk(x, good);
    CrossAllMeaning(cooled, order, depth, clk, good);
    var y := CrossAll(cooled, order, depth, clk);
    hide Ok;
    forall s | 0 <= s < |x.src| && x.src[s] != [] ensures Crossed(x, y, s) || Waits(x, y, s, depth) {
      CoolingChangesNothing(x, cooled, y, s, depth);
    }
  }

  lemma CoolingChangesNothing<B>(x: Xbar<B>, cooled: Xbar<B>, y: Xbar<B>, s: nat, depth: nat)
    requires SameShape(cooled, y) && |x.busy| == |x.dst| == |cooled.dst| == |cooled.busy| && s < |x.src|
    requires cooled == x.(busy := cooled.busy)
    ensures Crossed(cooled, y, s) <==> Crossed(x, y, s)
    ensures Waits(cooled, y, s, depth) <==> Waits(x, y, s, depth)
  {
  }

  // ---- how fast a destination fills

  predicate Owned<B>(dst: seq<seq<Packet<B>>>) {
    forall d, i :: 0 <= d < |dst| && 0 <= i < |dst[d]| ==> dst[d][i].dest == d
  }

  /** The packets of `left` that went to `d`. */
  function To<B>(left: seq<Packet<B>>, d: nat): seq<Packet<B>> {
    if left == [] then []
    else To(left[..|left| - 1], d) + (if left[|left| - 1].dest == d then [left[|left| - 1]] else [])
  }

  /** Everything that ever crossed to `d`: what has left it again, then what is still there. */
  function Arrivals<B>(left: seq<Packet<B>>, dst: seq<seq<Packet<B>>>, d: nat): seq<Packet<B>>
    requires d < |dst|
  {
    To(left, d) + dst[d]
  }

  /** The cycle in which a packet crossed. */
  function CrossedAt<B>(p: Packet<B>): int {
    p.exit - p.flits
  }

  function Flits<B>(h: seq<Packet<B>>, i: nat, k: nat): nat
    requires i <= k <= |h|
    decreases k - i
  {
    if i == k then 0 else Flits(h, i, k - 1) + h[k-1].flits
  }

  /** Successive arrivals leave room for one another at two flits a cycle. */
  predicate Paced<B>(h: seq<Packet<B>>) {
    forall i :: 0 <= i < |h| - 1 ==> h[i].flits <= 2 * (CrossedAt(h[i + 1]) - CrossedAt(h[i]))
  }

  /** The destination as cycle `clk` begins: `busy` is what is left of the last arrival's flits. */
  predicate PaceOk<B>(h: seq<Packet<B>>, busy: int, clk: nat) {
    && Paced(h)
    && (forall i :: 0 <= i < |h| ==> CrossedAt(h[i]) < clk)
    && (h != [] ==>
          var since := 2 * (clk - 1 - CrossedAt(h[|h| - 1]));
          if busy > 0 then h[|h| - 1].flits == since + busy else h[|h| - 1].flits <= since)
  }

  /** Within cycle `clk`, after cooling. */
  predicate PaceWithin<B>(h: seq<Packet<B>>, busy: int, clk: nat) {
    && Paced(h)
    && (forall i :: 0 <= i < |h| ==> CrossedAt(h[i]) <= clk)
    && (h != [] ==>
          var since := 2 * (clk - CrossedAt(h[|h| - 1]));
          if busy > 0 then h[|h| - 1].flits == since + busy else h[|h| - 1].flits <= since)
  }

  lemma CoolKeepsPace<B>(h: seq<Packet<B>>, busy: int, clk: nat)
    requires PaceOk(h, busy, clk)
    ensures PaceWithin(h, if busy > 0 then busy - 2 else busy, clk)
  {
    hide CrossedAt;
  }

  lemma ArrivalKeepsPace<B>(h: seq<Packet<B>>, p: Packet<B>, busy: int, clk: nat)
    requires PaceWithin(h, busy, clk) && busy <= 0 && p.exit == clk + p.flits
    ensures PaceWithin(h + [p], p.flits, clk)
  {
    assert CrossedAt(p) == clk;
    hide CrossedAt;
  }

  ghost predicate AllWithin<B>(left: seq<Packet<B>>, x: Xbar<B>, clk: nat) {
    && |x.busy| == |x.dst| && Owned(x.dst)
    && forall d :: 0 <= d < |x.dst| ==> PaceWithin(Arrivals(left, x.dst, d), x.busy[d], clk)
  }

  ghost predicate AllPaced<B>(left: seq<Packet<B>>, x: Xbar<B>, clk: nat) {
    && |x.busy| == |x.dst| && Owned(x.dst)
    && forall d :: 0 <= d < |x.dst| ==> PaceOk(Arrivals(left, x.dst, d), x.busy[d], clk)
  }

  lemma CrossOnePaced<B>(left: seq<Packet<B>>, x: Xbar<B>, s: nat, depth: nat, clk: nat)
    requires |x.age| == |x.src| && AllWithin(left, x, clk)
    ensures AllWithin(left, CrossOne(x, s, depth, clk), clk)
  {
    hide PaceWithin, To;
    var y := CrossOne(x, s, depth, clk);
    if s < |x.src| && x.src[s] != [] && x.src[s][0].dest < |x.dst| {
      var p := x.src[s][0];
      if |x.dst[p.dest]| < depth && x.busy[p.dest] <= 0 {
        var moved := p.(exit := clk + p.flits);
        forall d | 0 <= d < |x.dst| ensures PaceWithin(Arrivals(left, y.dst, d), y.busy[d], clk) {
          if d == p.dest {
            ArrivalKeepsPace(Arrivals(left, x.dst, d), moved, x.busy[d], clk);
            assert Arrivals(left, y.dst, d) == Arrivals(left, x.dst, d) + [moved];
          }
        }
      }
    }
  }

  lemma {:induction false} CrossAllPaced<B>(left: seq<Packet<B>>, x: Xbar<B>, order: seq<nat>, depth: nat, clk: nat)
    requires |x.age| == |x.src| && AllWithin(left, x, clk)
    ensures AllWithin(left, CrossAll(x, order, depth, clk), clk)
    decreases |order|
  {
    hide CrossOne, AllWithin;
    if order != [] {
      WithinShape(left, x, clk);
      CrossOnePaced(left, x, order[0], depth, clk);
      CrossAllPaced(left, CrossOne(x, order[0], depth, clk), order[1..], depth, clk);
    }
  }

  lemma WithinShape<B>(left: seq<Packet<B>>, x: Xbar<B>, clk: nat)
    requires AllWithin(left, x, clk)
    ensures |x.busy| == |x.dst|
  {
  }

  lemma NextCycle<B>(left: seq<Packet<B>>, x: Xbar<B>, clk: nat)
    requires AllWithin(left, x, clk)
    ensures AllPaced(left, x, clk + 1)
  {
    hide Paced, CrossedAt, Arrivals;
  }

  lemma CoolAllPaced<B>(left: seq<Packet<B>>, x: Xbar<B>, clk: nat)
    requires AllPaced(left, x, clk)
    ensures AllWithin(left, x.(busy := Cooled(x.busy)), clk)
  {
    hide PaceOk, PaceWithin, Arrivals;
    forall d | 0 <= d < |x.dst| ensures PaceWithin(Arrivals(left, x.dst, d), Cooled(x.busy)[d], clk) {
      CoolKeepsPace(Arrivals(left, x.dst, d), x.busy[d], clk);
    }
  }

  /** An arbitration cycle keeps the pace of every destination. */
  lemma CrossKeepsPace<B>(left: seq<Packet<B>>, x: Xbar<B>, depth: nat, clk: nat)
    requires |x.age| == |x.src| && AllPaced(left, x, clk)
    ensures |x.busy| == |x.dst| && AllPaced(left, Cross(x, depth, clk), clk + 1)
  {
    hide AllWithin, PaceOk, Owned, CrossAll;
    CoolAllPaced(left, x, clk);
    CrossAllPaced(left, x.(busy := Cooled(x.busy)), AgeQueue(x.age, clk), depth, clk);
    NextCycle(left, Cross(x, depth, clk), clk);
  }

  /** The front packet of a destination leaves it. */
  lemma LeavingKeepsPace<B>(left: seq<Packet<B>>, x: Xbar<B>, q: nat, clk: nat)
    requires q < |x.dst| && x.dst[q] != [] && AllPaced(left, x, clk)
    ensures AllPaced(left + [x.dst[q][0]], x.(dst := Pop(x.dst, q)), clk)
  {
    hide PaceOk, To;
    var p := x.dst[q][0];
    var dst := Pop(x.dst, q);
    forall d | 0 <= d < |x.dst| ensures Arrivals(left + [p], dst, d) == Arrivals(left, x.dst, d) {
      ToPush(left, p, d);
      assert x.dst[q] == [p] + x.dst[q][1..];
    }
  }

  lemma ToPush<B>(left: seq<Packet<B>>, p: Packet<B>, d: nat)
    ensures To(left + [p], d) == if p.dest == d then To(left, d) + [p] else To(left, d)
  {
    assert (left + [p])[..|left|] == left;
  }

  /** Two flits a cycle: what crosses to a destination from arrival `i` up to arrival `k` fits into the cycles
      between them. */
  lemma {:induction false} TwoFlitsPerCycle<B>(h: seq<Packet<B>>, i: nat, k: nat)
    requires Paced(h) && i <= k < |h|
    ensures Flits(h, i, k) <= 2 * (CrossedAt(h[k]) - CrossedAt(h[i]))
    decreases k - i
  {
    hide CrossedAt;
    if i < k {
      TwoFlitsPerCycle(h, i, k - 1);
      assert h[k-1].flits <= 2 * (CrossedAt(h[k-1 + 1]) - CrossedAt(h[k-1]));
    }
  }

  // ---- oldest first?

  /** Sources served first have waited at least as long. */
  predicate OldestFirst(age: seq<int>, q: seq<nat>) {
    forall i, j :: 0 <= i < j < |q| && q[i] < |age| && q[j] < |age| ==> age[q[i]] >= age[q[j]]
  }

  /** Only sources `u` and `v` wait, and the scan of cycle `clk` meets `u` first. */
  predicate TwoWait(age: seq<int>, clk: nat, u: nat, v: nat) {
    && u < |age| && v < |age| && age[u] > 0 && age[v] > 0
    && VisitOf(clk % |age|, |age|, u) < VisitOf(clk % |age|, |age|, v)
    && forall s :: 0 <= s < |age| && s != u && s != v ==> age[s] <= 0
  }

  lemma {:induction false} ScanOfTwo(age: seq<int>, clk: nat, u: nat, v: nat, i: nat)
    requires TwoWait(age, clk, u, v) && i <= |age|
    ensures var start := clk % |age|;
      OrderUpTo(age, start, i)
      == if i <= VisitOf(start, |age|, u) then []
         else if i <= VisitOf(start, |age|, v) then [u]
         else if age[v] > u then [v, u] else [u, v]
  {
    var start := clk % |age|;
    if i > 0 {
      ScanOfTwo(age, clk, u, v, i - 1);
      VisitedOnce(start, |age|, i - 1, u);
      VisitedOnce(start, |age|, i - 1, v);
      assert Insert([u], v, age[v]) == if age[v] > u then [v, u] else [u, v];
    }
  }

  /** The order in which waiting sources are served compares an age with a position.  Of two waiting sources the
      one scanned later is served first exactly if its age exceeds the position of the other, so the two are
      served oldest first exactly if that comparison agrees with the ages. */
  lemma TwoServedOldestFirstIff(age: seq<int>, clk: nat, u: nat, v: nat)
    requires TwoWait(age, clk, u, v)
    ensures AgeQueue(age, clk) == if age[v] > u then [v, u] else [u, v]
    ensures OldestFirst(age, AgeQueue(age, clk)) <==> if age[v] > u then age[v] >= age[u] else age[u] >= age[v]
  {
    ScanOfTwo(age, clk, u, v, |age|);
    var q := AgeQueue(age, clk);
    assert q[0] < |age| && q[1] < |age|;
  }

  /** Source 0 has waited five cycles, source 1 one: source 1 goes first. */
  lemma YoungerCanGoFirst()
    ensures AgeQueue([5, 1], 0) == [1, 0] && !OldestFirst([5, 1], AgeQueue([5, 1], 0))
  {
    assert TwoWait([5, 1], 0, 0, 1);
    TwoServedOldestFirstIff([5, 1], 0, 0, 1);
  }
}
