/** Lanes of the crossbar: the packets from one source to one destination never overtake one another. */
module Lanes {
  import opened Types
  import opened Crossbar

  // ---- reading lists

  /** What `f` makes of the elements of `q`, in order, without those it leaves out. */
  function Selected<A, B>(q: seq<A>, f: A -> Option<B>): seq<B> {
    if q == [] then []
    else Selected(q[..|q| - 1], f) + (if f(q[|q| - 1]).Some? then [f(q[|q| - 1]).value] else [])
  }

  lemma SelectedPush<A, B>(q: seq<A>, x: A, f: A -> Option<B>)
    ensures Selected(q + [x], f) == if f(x).Some? then Selected(q, f) + [f(x).value] else Selected(q, f)
  {
    assert (q + [x])[..|q|] == q;
  }

  lemma {:induction false} SelectedPop<A, B>(q: seq<A>, f: A -> Option<B>)
    requires q != []
    ensures Selected(q, f) == if f(q[0]).Some? then [f(q[0]).value] + Selected(q[1..], f) else Selected(q[1..], f)
    decreases |q|
  {
    if |q| == 1 {
      assert q == [] + [q[0]];
      SelectedPush([], q[0], f);
    } else {
      var most, last := q[..|q| - 1], q[|q| - 1];
      SelectedPop(most, f);
      assert q[1..] == most[1..] + [last] && q == most + [last];
      SelectedPush(most[1..], last, f);
      SelectedPush(most, last, f);
    }
  }

  // ---- lanes

  /** What the crossbar holds of the lane from source `s` to destination `d`, oldest first. */
  function InLane<B, K>(x: Xbar<B>, s: nat, d: nat, f: Packet<B> -> Option<K>): seq<K>
    requires s < |x.src| && d < |x.dst|
  {
    Selected(x.dst[d], f) + Selected(x.src[s], f)
  }

  /** `f` picks packets from source `s` to destination `d` only, and does not look at exit times. */
  ghost predicate PicksLane<B(!new), K(!new)>(f: Packet<B> -> Option<K>, from: B -> nat, s: nat, d: nat) {
    forall p: Packet<B>, e: nat :: f(p.(exit := e)) == f(p) && (f(p).Some? ==> from(p.body) == s && p.dest == d)
  }

  /** Each source holds packets of its own. */
  predicate FromOwn<B>(src: seq<seq<Packet<B>>>, from: B -> nat) {
    forall s, i :: 0 <= s < |src| && 0 <= i < |src[s]| ==> from(src[s][i].body) == s
  }

  lemma CrossOneKeepsLane<B(!new), K(!new)>(x: Xbar<B>, t: nat, depth: nat, clk: nat, s: nat, d: nat, f: Packet<B> -> Option<K>, from: B -> nat)
    requires |x.age| == |x.src| && |x.busy| == |x.dst| && s < |x.src| && d < |x.dst|
    requires FromOwn(x.src, from) && PicksLane(f, from, s, d)
    ensures InLane(CrossOne(x, t, depth, clk), s, d, f) == InLane(x, s, d, f)
    ensures FromOwn(CrossOne(x, t, depth, clk).src, from)
  {
    hide Selected;
    if t < |x.src| && x.src[t] != [] && x.src[t][0].dest < |x.dst| {
      var r := x.src[t][0];
      var moved := r.(exit := clk + r.flits);
      SelectedPop(x.src[t], f);
      SelectedPush(x.dst[r.dest], moved, f);
      assert f(moved) == f(r);
    }
  }

  /** An arbitration cycle keeps every lane in order. */
  lemma {:induction false} CrossAllKeepsLane<B(!new), K(!new)>(x: Xbar<B>, order: seq<nat>, depth: nat, clk: nat, s: nat, d: nat, f: Packet<B> -> Option<K>, from: B -> nat)
    requires |x.age| == |x.src| && |x.busy| == |x.dst| && s < |x.src| && d < |x.dst|
    requires FromOwn(x.src, from) && PicksLane(f, from, s, d)
    ensures InLane(CrossAll(x, order, depth, clk), s, d, f) == InLane(x, s, d, f)
    decreases |order|
  {
    hide CrossOne, InLane, FromOwn, PicksLane;
    if order != [] {
      CrossOneKeepsLane(x, order[0], depth, clk, s, d, f, from);
      CrossAllKeepsLane(CrossOne(x, order[0], depth, clk), order[1..], depth, clk, s, d, f, from);
    }
  }

  lemma CrossKeepsLane<B(!new), K(!new)>(x: Xbar<B>, depth: nat, clk: nat, s: nat, d: nat, f: Packet<B> -> Option<K>, from: B -> nat)
    requires |x.age| == |x.src| && |x.busy| == |x.dst| && s < |x.src| && d < |x.dst|
    requires FromOwn(x.src, from) && PicksLane(f, from, s, d)
    ensures InLane(Cross(x, depth, clk), s, d, f) == InLane(x, s, d, f)
  {
    CrossAllKeepsLane(x.(busy := Cooled(x.busy)), AgeQueue(x.age, clk), depth, clk, s, d, f, from);
  }
}
