/** Counting and conservation facts about the controller's transaction and command lists. */
module Bookkeeping {
  import opened Types
  import opened Control

  // ---- how many entries ask for one address

  function CountTx(q: seq<Transaction>, a: nat, w: bool): nat
    decreases |q|
  {
    if q == [] then 0
    else CountTx(q[..|q|-1], a, w) + (if q[|q|-1].addr == a && q[|q|-1].isWrite == w then 1 else 0)
  }

  function CountCmd(q: seq<Command>, a: nat, w: bool): nat
    decreases |q|
  {
    if q == [] then 0
    else CountCmd(q[..|q|-1], a, w) + (if q[|q|-1].hex == a && q[|q|-1].kind.IsWrite() == w then 1 else 0)
  }

  lemma CountTxPush(q: seq<Transaction>, t: Transaction, a: nat, w: bool)
    ensures CountTx(q + [t], a, w) == CountTx(q, a, w) + (if t.addr == a && t.isWrite == w then 1 else 0)
  {
    assert (q + [t])[..|q|] == q;
  }

  lemma CountCmdPush(q: seq<Command>, c: Command, a: nat, w: bool)
    ensures CountCmd(q + [c], a, w) == CountCmd(q, a, w) + (if c.hex == a && c.kind.IsWrite() == w then 1 else 0)
  {
    assert (q + [c])[..|q|] == q;
  }

  lemma {:induction false} CountTxRemove(q: seq<Transaction>, i: nat, a: nat, w: bool)
    requires i < |q|
    ensures CountTx(q[..i] + q[i+1..], a, w)
         == CountTx(q, a, w) - (if q[i].addr == a && q[i].isWrite == w then 1 else 0)
    decreases |q|
  {
    var n := |q| - 1;
    if i == n {
      assert q[..i] + q[i+1..] == q[..n];
    } else {
      CountTxRemove(q[..n], i, a, w);
      assert q[..i] + q[i+1..] == (q[..n][..i] + q[..n][i+1..]) + [q[n]];
      CountTxPush(q[..n][..i] + q[..n][i+1..], q[n], a, w);
    }
  }

  lemma {:induction false} CountCmdRemove(q: seq<Command>, i: nat, a: nat, w: bool)
    requires i < |q|
    ensures CountCmd(q[..i] + q[i+1..], a, w)
         == CountCmd(q, a, w) - (if q[i].hex == a && q[i].kind.IsWrite() == w then 1 else 0)
    decreases |q|
  {
    var n := |q| - 1;
    if i == n {
      assert q[..i] + q[i+1..] == q[..n];
    } else {
      CountCmdRemove(q[..n], i, a, w);
      assert q[..i] + q[i+1..] == (q[..n][..i] + q[..n][i+1..]) + [q[n]];
      CountCmdPush(q[..n][..i] + q[..n][i+1..], q[n], a, w);
    }
  }

  lemma {:induction false} CountTxPositive(q: seq<Transaction>, a: nat, w: bool)
    ensures CountTx(q, a, w) > 0 <==> exists i :: 0 <= i < |q| && q[i].addr == a && q[i].isWrite == w
    decreases |q|
  {
    if q != [] {
      var p := q[..|q|-1];
      CountTxPositive(p, a, w);
      if CountTx(p, a, w) > 0 {
        var i :| 0 <= i < |p| && p[i].addr == a && p[i].isWrite == w;
        assert q[i] == p[i];
      }
      if i :| 0 <= i < |q| && q[i].addr == a && q[i].isWrite == w {
        assert i < |p| ==> p[i] == q[i];
      }
    }
  }

  lemma {:induction false} CountCmdPositive(q: seq<Command>, a: nat, w: bool)
    ensures CountCmd(q, a, w) > 0 <==> exists i :: 0 <= i < |q| && q[i].hex == a && q[i].kind.IsWrite() == w
    decreases |q|
  {
    if q != [] {
      var p := q[..|q|-1];
      CountCmdPositive(p, a, w);
      if CountCmd(p, a, w) > 0 {
        var i :| 0 <= i < |p| && p[i].hex == a && p[i].kind.IsWrite() == w;
        assert q[i] == p[i];
      }
      if i :| 0 <= i < |q| && q[i].hex == a && q[i].kind.IsWrite() == w {
        assert i < |p| ==> p[i] == q[i];
      }
    }
  }

  // ---- pending lists

  lemma {:induction false} WithoutMeaning(q: seq<Transaction>, a: nat)
    ensures forall t :: t in Without(q, a) <==> t in q && t.addr != a
    ensures forall t :: t in With(q, a) <==> t in q && t.addr == a
    decreases |q|
  {
    if q != [] {
      WithoutMeaning(q[1..], a);
      assert q == [q[0]] + q[1..];
    }
  }

  lemma WithEmpty(q: seq<Transaction>, a: nat)
    ensures With(q, a) == [] <==> !HasAddr(q, a)
  {
    WithoutMeaning(q, a);
    if With(q, a) != [] {
      assert With(q, a)[0] in With(q, a);
    }
    if t :| t in q && t.addr == a {
      assert t in With(q, a);
    }
  }

  /** No two entries share an address. */
  predicate Distinct(q: seq<Transaction>) {
    forall i, j :: 0 <= i < j < |q| ==> q[i].addr != q[j].addr
  }

  lemma {:induction false} RemoveFirstMeaning(q: seq<Transaction>, a: nat)
    requires Distinct(q)
    ensures RemoveFirst(q, a) == Without(q, a) && Distinct(RemoveFirst(q, a))
    decreases |q|
  {
    if q != [] {
      assert Distinct(q[1..]);
      RemoveFirstMeaning(q[1..], a);
      WithoutMeaning(q[1..], a);
      if q[0].addr == a {
        AllKept(q[1..], a);
      } else {
        var rest := RemoveFirst(q[1..], a);
        forall j | 0 <= j < |rest| ensures rest[j].addr != q[0].addr {
          assert rest[j] in Without(q[1..], a);
          assert rest[j] in q[1..];
        }
      }
    }
  }

  lemma {:induction false} AllKept(q: seq<Transaction>, a: nat)
    requires forall i :: 0 <= i < |q| ==> q[i].addr != a
    ensures Without(q, a) == q
    decreases |q|
  {
    if q != [] {
      AllKept(q[1..], a);
    }
  }

  // ---- conservation

  /** A transaction apart from its completion time. */
  function Core(t: Transaction): Transaction {
    t.(complete := 0)
  }

  function CoreSeq(q: seq<Transaction>): seq<Transaction> {
    seq(|q|, i requires 0 <= i < |q| => Core(q[i]))
  }

  function Cores(q: seq<Transaction>): multiset<Transaction> {
    multiset(CoreSeq(q))
  }

  lemma CoresAppend(p: seq<Transaction>, q: seq<Transaction>)
    ensures Cores(p + q) == Cores(p) + Cores(q)
  {
    assert CoreSeq(p + q) == CoreSeq(p) + CoreSeq(q);
  }

  lemma CoresOne(t: Transaction)
    ensures Cores([t]) == multiset{Core(t)}
  {
    assert CoreSeq([t]) == [Core(t)];
  }

  lemma {:induction false} CoresSplit(q: seq<Transaction>, a: nat)
    ensures Cores(q) == Cores(With(q, a)) + Cores(Without(q, a))
    decreases |q|
  {
    if q == [] {
      assert CoreSeq(q) == CoreSeq(With(q, a)) + CoreSeq(Without(q, a));
    } else {
      CoresSplit(q[1..], a);
      assert q == [q[0]] + q[1..];
      CoresAppend([q[0]], q[1..]);
      CoresAppend([q[0]], With(q[1..], a));
      CoresAppend([q[0]], Without(q[1..], a));
      if q[0].addr == a {
        assert With(q, a) == [q[0]] + With(q[1..], a) && Without(q, a) == Without(q[1..], a);
      } else {
        assert Without(q, a) == [q[0]] + Without(q[1..], a) && With(q, a) == With(q[1..], a);
      }
    }
  }

  lemma CoresStamp(q: seq<Transaction>, done: nat)
    ensures Cores(StampAll(q, done)) == Cores(q)
  {
    assert CoreSeq(StampAll(q, done)) == CoreSeq(q);
  }

  lemma CoresRemove(q: seq<Transaction>, i: nat)
    requires i < |q|
    ensures Cores(q) == Cores(q[..i] + q[i+1..]) + multiset{Core(q[i])}
  {
    assert q == q[..i] + [q[i]] + q[i+1..];
    CoresAppend(q[..i] + [q[i]], q[i+1..]);
    CoresAppend(q[..i], [q[i]]);
    CoresAppend(q[..i], q[i+1..]);
    CoresOne(q[i]);
  }
}
