/** What a controller still owes its caller, read off the transactions by any key that does not depend on
    the completion time. */
module Owed {
  import opened Types
  import opened Timing
  import opened Bookkeeping
  import opened ControllerInvariant
  import opened Crossbar
  import Control
  import ControllerRuns
  import RunTheorems

  ghost predicate Timeless<K(!new)>(key: Transaction -> K) {
    forall t: Transaction, c: nat :: key(t.(complete := c)) == key(t)
  }

  function KeySeq<K>(q: seq<Transaction>, key: Transaction -> K): seq<K> {
    seq(|q|, i requires 0 <= i < |q| => key(q[i]))
  }

  function KeyBag<K>(q: seq<Transaction>, key: Transaction -> K): multiset<K> {
    multiset(KeySeq(q, key))
  }

  /** The keys of finished and pending transactions. */
  function Outstanding<K>(v: Control.State, key: Transaction -> K): multiset<K> {
    KeyBag(v.ret, key) + KeyBag(v.desk.pendRd, key)
  }

  function OutstandingAll<K>(vs: seq<Control.State>, key: Transaction -> K): multiset<K> {
    if vs == [] then multiset{} else Outstanding(vs[0], key) + OutstandingAll(vs[1..], key)
  }

  lemma KeyBagAppend<K>(a: seq<Transaction>, b: seq<Transaction>, key: Transaction -> K)
    ensures KeyBag(a + b, key) == KeyBag(a, key) + KeyBag(b, key)
  {
    assert KeySeq(a + b, key) == KeySeq(a, key) + KeySeq(b, key);
  }

  lemma KeyBagOne<K>(t: Transaction, key: Transaction -> K)
    ensures KeyBag([t], key) == multiset{key(t)}
  {
    assert KeySeq([t], key) == [key(t)];
  }

  lemma KeyBagRemove<K>(q: seq<Transaction>, i: nat, key: Transaction -> K)
    requires i < |q|
    ensures KeyBag(q, key) == KeyBag(q[..i] + q[i+1..], key) + multiset{key(q[i])}
  {
    hide KeyBag;
    assert q == q[..i] + [q[i]] + q[i+1..];
    KeyBagAppend(q[..i] + [q[i]], q[i+1..], key);
    KeyBagAppend(q[..i], [q[i]], key);
    KeyBagAppend(q[..i], q[i+1..], key);
    KeyBagOne(q[i], key);
  }

  /** Lists with the same transactions have the same keys. */
  lemma {:induction false} SameCoresSameKeys<K(!new)>(a: seq<Transaction>, b: seq<Transaction>, key: Transaction -> K)
    requires Cores(a) == Cores(b) && Timeless(key)
    ensures KeyBag(a, key) == KeyBag(b, key)
    decreases |a|
  {
    assert |a| == |CoreSeq(a)| == |Cores(a)| && |b| == |CoreSeq(b)| == |Cores(b)|;
    if a != [] {
      assert CoreSeq(a)[0] == Core(a[0]);
      assert Core(a[0]) in Cores(a) && Core(a[0]) in Cores(b);
      var i :| 0 <= i < |b| && CoreSeq(b)[i] == Core(a[0]);
      assert Core(b[i]) == Core(a[0]) && key(a[0]) == key(Core(a[0])) == key(b[i]);
      var rest := b[..i] + b[i+1..];
      CoresRemove(b, i);
      CoresRemove(a, 0);
      assert a[..0] + a[1..] == a[1..];
      Cancel(Cores(a[1..]), Cores(rest), multiset{Core(a[0])});
      hide Cores, Timeless;
      SameCoresSameKeys(a[1..], rest, key);
      KeyBagRemove(b, i, key);
      KeyBagRemove(a, 0, key);
    }
  }

  /** Accepted transactions are those returned and those outstanding. */
  lemma Balance<K(!new)>(cfg: Config, tm: Table, v: Control.State, key: Transaction -> K)
    requires Inv(cfg, tm, v) && Timeless(key)
    ensures KeyBag(v.accepted, key) == KeyBag(v.delivered, key) + Outstanding(v, key)
  {
    hide KeyBag, Cores, WantedOk, TraceUseOk, Timeless;
    var all := v.delivered + v.ret + v.desk.pendRd;
    CoresAppend(v.delivered, v.ret);
    CoresAppend(v.delivered + v.ret, v.desk.pendRd);
    SameCoresSameKeys(v.accepted, all, key);
    KeyBagAppend(v.delivered, v.ret, key);
    KeyBagAppend(v.delivered + v.ret, v.desk.pendRd, key);
    Regroup(KeyBag(v.delivered, key), KeyBag(v.ret, key), KeyBag(v.desk.pendRd, key));
  }

  /** A cycle moves transactions inside the controller but owes the same ones afterwards. */
  lemma TickKeepsOutstanding<K(!new)>(cfg: Config, v: Control.State, key: Transaction -> K)
    requires ControllerRuns.Sound(cfg) && Inv(cfg, MakeTable(cfg), v) && Timeless(key)
    ensures Inv(cfg, MakeTable(cfg), Control.Tick(cfg, MakeTable(cfg), v))
    ensures Outstanding(Control.Tick(cfg, MakeTable(cfg), v), key) == Outstanding(v, key)
  {
    hide Inv, Outstanding, Control.Tick, Timeless;
    var w := Control.Tick(cfg, MakeTable(cfg), v);
    ControllerRuns.TickKeepsInv(cfg, v);
    RunTheorems.TickFollowsPlan(cfg, MakeTable(cfg), v);
    Balance(cfg, MakeTable(cfg), v, key);
    Balance(cfg, MakeTable(cfg), w, key);
    assert forall o :: KeyBag(v.delivered, key) + o == o + KeyBag(v.delivered, key);
    Cancel(Outstanding(w, key), Outstanding(v, key), KeyBag(v.delivered, key));
  }

  lemma AddGrowsOutstanding<K(!new)>(cfg: Config, v: Control.State, addr: nat, isWrite: bool, key: Transaction -> K)
    requires Timeless(key)
    ensures Outstanding(Control.AddTransaction(cfg, v, addr, isWrite), key)
         == Outstanding(v, key) + multiset{key(Transaction(addr, v.clk, 0, isWrite))}
  {
    hide KeyBag, Control.HasAddr;
    var t := Transaction(addr, v.clk, 0, isWrite);
    var done := t.(complete := v.clk + 1);
    assert key(done) == key(t);
    KeyBagAppend(v.ret, [done], key);
    KeyBagOne(done, key);
    KeyBagAppend(v.desk.pendRd, [t], key);
    KeyBagOne(t, key);
  }

  lemma ReturnShrinksOutstanding<K>(v: Control.State, clk: nat, key: Transaction -> K)
    requires Control.ReturnDone(v, clk).0.Some?
    ensures var (done, w) := Control.ReturnDone(v, clk);
      Outstanding(v, key) == Outstanding(w, key) + multiset{key(done.value)}
  {
    hide KeyBag;
    KeyBagRemove(v.ret, Control.FirstDone(v.ret, clk, 0), key);
  }

  lemma ReturnShortens(v: Control.State, clk: nat)
    ensures var (done, w) := Control.ReturnDone(v, clk); done.Some? ==> |w.ret| < |v.ret|
  {
  }

  lemma {:induction false} OutstandingUpdate<K>(vs: seq<Control.State>, i: nat, v: Control.State, key: Transaction -> K)
    requires i < |vs|
    ensures OutstandingAll(vs[i := v], key) + Outstanding(vs[i], key) == OutstandingAll(vs, key) + Outstanding(v, key)
  {
    hide Outstanding;
    if i == 0 {
      assert vs[i := v][1..] == vs[1..];
    } else {
      OutstandingUpdate(vs[1..], i - 1, v, key);
      assert vs[i := v][1..] == vs[1..][i-1 := v] && vs[i := v][0] == vs[0];
      Regroup(Outstanding(vs[0], key), OutstandingAll(vs[1..][i-1 := v], key), Outstanding(vs[i], key));
      Regroup(Outstanding(vs[0], key), OutstandingAll(vs[1..], key), Outstanding(v, key));
    }
  }

  lemma {:induction false} OutstandingSame<K>(vs: seq<Control.State>, ws: seq<Control.State>, key: Transaction -> K)
    requires |vs| == |ws| && forall i :: 0 <= i < |vs| ==> Outstanding(vs[i], key) == Outstanding(ws[i], key)
    ensures OutstandingAll(vs, key) == OutstandingAll(ws, key)
  {
    hide Outstanding;
    if vs != [] {
      OutstandingSame(vs[1..], ws[1..], key);
    }
  }

  lemma {:induction false} NoneOutstanding<K>(vs: seq<Control.State>, key: Transaction -> K)
    requires forall i :: 0 <= i < |vs| ==> Outstanding(vs[i], key) == multiset{}
    ensures OutstandingAll(vs, key) == multiset{}
  {
    if vs != [] {
      NoneOutstanding(vs[1..], key);
    }
  }

  lemma NothingOutstanding<K>(cfg: Config, key: Transaction -> K)
    ensures Outstanding(Control.Initial(cfg), key) == multiset{}
  {
  }

  /** A part that gains `one` adds `one` to the whole. */
  lemma Moved<K>(before: multiset<K>, after: multiset<K>, part: multiset<K>, one: multiset<K>)
    requires after + part == before + (part + one)
    ensures after == before + one
  {
    Cancel(after, before + one, part);
  }
}
