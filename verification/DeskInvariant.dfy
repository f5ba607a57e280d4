/** Every accepted read and write has exactly one entry on its way to the DRAM, and a write never
    overtakes a read of its address. */
module DeskInvariant {
  import opened Types
  import opened Control
  import opened Bookkeeping
  import Queues

  predicate IsQueued(cfg: Config, c: Command, qi: int) {
    && c.kind.IsReadWrite() && c.kind == cfg.AccessKind(c.kind.IsWrite())
    && c.addr == cfg.decode(c.hex)
    && Queues.QueueIndex(cfg, c.Target()) == qi
  }

  predicate QueuesOk(cfg: Config, queues: seq<seq<Command>>) {
    && |queues| == Queues.NumQueues(cfg)
    && forall qi, i :: 0 <= qi < |queues| && 0 <= i < |queues[qi]| ==> IsQueued(cfg, queues[qi][i], qi)
  }

  predicate AllKind(q: seq<Transaction>, w: bool) {
    forall i :: 0 <= i < |q| ==> q[i].isWrite == w
  }

  predicate DeskOk(cfg: Config, d: Desk) {
    && (if cfg.unifiedQueue then d.readQ == [] && d.writeBuf == [] else d.unifiedQ == [])
    && AllKind(d.readQ, false) && AllKind(d.writeBuf, true)
    && AllKind(d.pendRd, false) && AllKind(d.pendWr, true)
    && Distinct(d.pendWr)
  }

  function HomeQueue(cfg: Config, a: nat): int {
    Queues.QueueIndex(cfg, Command(Read, cfg.decode(a), a).Target())
  }

  function QueuedFor(cfg: Config, queues: seq<seq<Command>>, a: nat, w: bool): nat {
    var qi := HomeQueue(cfg, a);
    if 0 <= qi < |queues| then CountCmd(queues[qi], a, w) else 0
  }

  /** Entries for address `a` in the transaction lists and in the command queue of its bank. */
  function Waiting(cfg: Config, queues: seq<seq<Command>>, d: Desk, a: nat, w: bool): nat {
    CountTx(d.unifiedQ, a, w) + CountTx(d.readQ, a, w) + CountTx(d.writeBuf, a, w) + QueuedFor(cfg, queues, a, w)
  }

  predicate Pending(d: Desk, a: nat, w: bool) {
    HasAddr(if w then d.pendWr else d.pendRd, a)
  }

  ghost predicate WaitingOk(cfg: Config, queues: seq<seq<Command>>, d: Desk) {
    forall a: nat, w: bool :: Waiting(cfg, queues, d, a, w) == if Pending(d, a, w) then 1 else 0
  }

  /** No write entry stands before a read entry of the same address. */
  predicate QueueOrdered(q: seq<Command>) {
    forall i, j :: 0 <= i < j < |q| && q[i].kind.IsWrite() && !q[j].kind.IsWrite() ==> q[i].hex != q[j].hex
  }

  predicate ListOrdered(q: seq<Transaction>) {
    forall i, j :: 0 <= i < j < |q| && q[i].isWrite && !q[j].isWrite ==> q[i].addr != q[j].addr
  }

  predicate NoReadBehind(q: seq<Command>, waiting: seq<Transaction>) {
    forall i, j :: 0 <= i < |q| && 0 <= j < |waiting| && q[i].kind.IsWrite() && !waiting[j].isWrite
      ==> q[i].hex != waiting[j].addr
  }

  predicate OrderOk(cfg: Config, queues: seq<seq<Command>>, d: Desk) {
    if cfg.unifiedQueue then
      && (forall qi :: 0 <= qi < |queues| ==> QueueOrdered(queues[qi]))
      && ListOrdered(d.unifiedQ)
      && (forall qi :: 0 <= qi < |queues| ==> NoReadBehind(queues[qi], d.unifiedQ))
    else
      forall qi :: 0 <= qi < |queues| ==> NoReadBehind(queues[qi], d.pendRd)
  }

  ghost predicate DeskInv(cfg: Config, queues: seq<seq<Command>>, d: Desk) {
    QueuesOk(cfg, queues) && DeskOk(cfg, d) && WaitingOk(cfg, queues, d) && OrderOk(cfg, queues, d)
  }

  // ---- consequences

  /** An address with nothing pending has no entry anywhere. */
  lemma NothingQueued(cfg: Config, queues: seq<seq<Command>>, d: Desk, a: nat, w: bool)
    requires QueuesOk(cfg, queues) && WaitingOk(cfg, queues, d) && !Pending(d, a, w)
    ensures forall qi, i :: 0 <= qi < |queues| && 0 <= i < |queues[qi]| && queues[qi][i].kind.IsWrite() == w
              ==> queues[qi][i].hex != a
    ensures forall i :: 0 <= i < |d.unifiedQ| && d.unifiedQ[i].isWrite == w ==> d.unifiedQ[i].addr != a
  {
    assert Waiting(cfg, queues, d, a, w) == 0;
    CountTxPositive(d.unifiedQ, a, w);
    forall qi, i | 0 <= qi < |queues| && 0 <= i < |queues[qi]| && queues[qi][i].kind.IsWrite() == w
      ensures queues[qi][i].hex != a
    {
      assert IsQueued(cfg, queues[qi][i], qi);
      if queues[qi][i].hex == a {
        assert HomeQueue(cfg, a) == qi;
        CountCmdPositive(queues[qi], a, w);
      }
    }
  }

  /** A queued command always has its transaction pending: the look-ups at issue time succeed. */
  lemma QueuedIsPending(cfg: Config, queues: seq<seq<Command>>, d: Desk, qi: nat, i: nat)
    requires QueuesOk(cfg, queues) && WaitingOk(cfg, queues, d)
    requires qi < |queues| && i < |queues[qi]|
    ensures Pending(d, queues[qi][i].hex, queues[qi][i].kind.IsWrite())
  {
    var c := queues[qi][i];
    assert IsQueued(cfg, c, qi);
    CountCmdPositive(queues[qi], c.hex, c.kind.IsWrite());
    assert HomeQueue(cfg, c.hex) == qi;
    assert Waiting(cfg, queues, d, c.hex, c.kind.IsWrite()) > 0;
  }

  /** Write-after-read order: a write that may issue has no read of its address pending. */
  lemma WriteHasNoReads(cfg: Config, queues: seq<seq<Command>>, d: Desk, qi: nat, i: nat)
    requires DeskInv(cfg, queues, d)
    requires qi < |queues| && i < |queues[qi]| && queues[qi][i].kind.IsWrite()
    requires !Queues.WaitsForRead(queues[qi], i)
    ensures !HasAddr(d.pendRd, queues[qi][i].hex)
  {
    var q := queues[qi];
    var a := q[i].hex;
    if cfg.unifiedQueue {
      assert IsQueued(cfg, q[i], qi) && HomeQueue(cfg, a) == qi;
      forall j | 0 <= j < |q| ensures q[j].hex == a ==> q[j].kind.IsWrite() {
        assert IsQueued(cfg, q[j], qi) && QueueOrdered(q);
        assert q[j].hex == a ==> Queues.SameCell(q[j], q[i]);
      }
      CountCmdPositive(q, a, false);
      assert NoReadBehind(q, d.unifiedQ);
      CountTxPositive(d.unifiedQ, a, false);
      assert Waiting(cfg, queues, d, a, false) == 0;
      assert !Pending(d, a, false);
    } else {
      assert NoReadBehind(q, d.pendRd);
      assert forall j :: 0 <= j < |d.pendRd| ==> !d.pendRd[j].isWrite && d.pendRd[j].addr != a;
    }
  }

  // ---- accepting

  lemma PendingPush(q: seq<Transaction>, t: Transaction, a: nat)
    ensures HasAddr(q + [t], a) <==> HasAddr(q, a) || t.addr == a
  {
    assert t in q + [t];
    if HasAddr(q, a) {
      var x :| x in q && x.addr == a;
      assert x in q + [t];
    }
  }

  lemma EnqueueWaiting(cfg: Config, queues: seq<seq<Command>>, d: Desk, t: Transaction, a: nat, w: bool)
    requires DeskOk(cfg, d)
    ensures Waiting(cfg, queues, Enqueue(cfg, d, t), a, w)
         == Waiting(cfg, queues, d, a, w) + (if t.addr == a && t.isWrite == w then 1 else 0)
  {
    CountTxPush(d.unifiedQ, t, a, w);
    CountTxPush(d.readQ, t, a, w);
    CountTxPush(d.writeBuf, t, a, w);
  }

  lemma AcceptWaiting(cfg: Config, queues: seq<seq<Command>>, d: Desk, d1: Desk, t: Transaction)
    requires DeskOk(cfg, d) && WaitingOk(cfg, queues, d) && !Pending(d, t.addr, t.isWrite)
    requires d1 == if t.isWrite then d.(pendWr := d.pendWr + [t]) else d.(pendRd := d.pendRd + [t])
    ensures WaitingOk(cfg, queues, Enqueue(cfg, d1, t))
  {
    var d2 := Enqueue(cfg, d1, t);
    forall a: nat, w: bool ensures Waiting(cfg, queues, d2, a, w) == if Pending(d2, a, w) then 1 else 0 {
      EnqueueWaiting(cfg, queues, d, t, a, w);
      assert Waiting(cfg, queues, d2, a, w) == Waiting(cfg, queues, Enqueue(cfg, d, t), a, w);
      PendingPush(d.pendRd, t, a);
      PendingPush(d.pendWr, t, a);
    }
  }

  lemma AcceptWrite(cfg: Config, queues: seq<seq<Command>>, d: Desk, t: Transaction)
    requires DeskInv(cfg, queues, d) && t.isWrite && !HasAddr(d.pendWr, t.addr)
    ensures DeskInv(cfg, queues, Enqueue(cfg, d.(pendWr := d.pendWr + [t]), t))
  {
    var d1 := d.(pendWr := d.pendWr + [t]);
    AcceptWaiting(cfg, queues, d, d1, t);
    assert Distinct(d1.pendWr) by {
      forall i | 0 <= i < |d.pendWr| ensures d.pendWr[i].addr != t.addr {
        assert d.pendWr[i] in d.pendWr;
      }
    }
  }

  lemma AcceptRead(cfg: Config, queues: seq<seq<Command>>, d: Desk, t: Transaction)
    requires DeskInv(cfg, queues, d) && !t.isWrite && !HasAddr(d.pendWr, t.addr) && !HasAddr(d.pendRd, t.addr)
    ensures DeskInv(cfg, queues, Enqueue(cfg, d.(pendRd := d.pendRd + [t]), t))
  {
    var d1 := d.(pendRd := d.pendRd + [t]);
    AcceptWaiting(cfg, queues, d, d1, t);
    NothingQueued(cfg, queues, d, t.addr, true);
  }

  lemma AcceptMergedRead(cfg: Config, queues: seq<seq<Command>>, d: Desk, t: Transaction)
    requires DeskInv(cfg, queues, d) && !t.isWrite && !HasAddr(d.pendWr, t.addr) && HasAddr(d.pendRd, t.addr)
    ensures DeskInv(cfg, queues, d.(pendRd := d.pendRd + [t]))
  {
    var d1 := d.(pendRd := d.pendRd + [t]);
    forall a: nat, w: bool ensures Waiting(cfg, queues, d1, a, w) == if Pending(d1, a, w) then 1 else 0 {
      assert Waiting(cfg, queues, d1, a, w) == Waiting(cfg, queues, d, a, w);
      PendingPush(d.pendRd, t, a);
    }
    NothingQueued(cfg, queues, d, t.addr, true);
  }

  // ---- scheduling

  /** The command queues with `c` appended to its own. */
  function Pushed(queues: seq<seq<Command>>, qi: nat, c: Command): seq<seq<Command>>
    requires qi < |queues|
  {
    queues[qi := queues[qi] + [c]]
  }

  lemma PushedWaiting(cfg: Config, queues: seq<seq<Command>>, t: Transaction, qi: nat, a: nat, w: bool)
    requires qi < |queues| && Queues.QueueIndex(cfg, ToCommand(cfg, t).Target()) == qi
    ensures QueuedFor(cfg, Pushed(queues, qi, ToCommand(cfg, t)), a, w)
         == QueuedFor(cfg, queues, a, w) + (if t.addr == a && t.isWrite == w then 1 else 0)
  {
    hide CountCmd, Queues.QueueIndex;
    CountCmdPush(queues[qi], ToCommand(cfg, t), a, w);
    if t.addr == a {
      assert HomeQueue(cfg, a) == qi;
    }
  }

  lemma SelectedWaiting(cfg: Config, d: Desk, draining: int, i: nat, a: nat, w: bool)
    requires DeskOk(cfg, d) && i < |Selected(cfg, d, draining)|
    ensures var q := Selected(cfg, d, draining);
      var d1 := WithSelected(cfg, d, draining, q[..i] + q[i+1..]);
      CountTx(d1.unifiedQ, a, w) + CountTx(d1.readQ, a, w) + CountTx(d1.writeBuf, a, w)
      == CountTx(d.unifiedQ, a, w) + CountTx(d.readQ, a, w) + CountTx(d.writeBuf, a, w)
         - (if q[i].addr == a && q[i].isWrite == w then 1 else 0)
  {
    CountTxRemove(Selected(cfg, d, draining), i, a, w);
  }

  lemma PushedQueuesOk(cfg: Config, queues: seq<seq<Command>>, t: Transaction, qi: nat)
    requires QueuesOk(cfg, queues)
    requires qi < |queues| && Queues.QueueIndex(cfg, ToCommand(cfg, t).Target()) == qi
    ensures QueuesOk(cfg, Pushed(queues, qi, ToCommand(cfg, t)))
  {
    assert IsQueued(cfg, ToCommand(cfg, t), qi);
  }

  /** The first accepted transaction of the unified list leaves no read of its address behind if it is a
      write: an earlier read would have found the same room. */
  lemma MovedOrder(cfg: Config, cq: Queues.State, d: Desk, i: nat, qi: nat)
    requires cfg.unifiedQueue && OrderOk(cfg, cq.queues, d)
    requires i == FirstAccepted(cfg, cq, d.unifiedQ, 0) < |d.unifiedQ|
    requires qi == Queues.QueueIndex(cfg, ToCommand(cfg, d.unifiedQ[i]).Target()) < |cq.queues|
    ensures OrderOk(cfg, Pushed(cq.queues, qi, ToCommand(cfg, d.unifiedQ[i])),
                    d.(unifiedQ := d.unifiedQ[..i] + d.unifiedQ[i+1..]))
  {
    var q, t, cmd := d.unifiedQ, d.unifiedQ[i], ToCommand(cfg, d.unifiedQ[i]);
    var q' := q[..i] + q[i+1..];
    assert forall j :: 0 <= j < i ==> q'[j] == q[j];
    assert forall j :: i <= j < |q'| ==> q'[j] == q[j+1];
    assert QueueOrdered(cq.queues[qi]) && NoReadBehind(cq.queues[qi], q);
    forall j | 0 <= j < |q'| && t.isWrite && !q'[j].isWrite ensures q'[j].addr != t.addr {
      if j < i {
        assert q[j].addr == t.addr ==> ToCommand(cfg, q[j]).Target() == cmd.Target();
      }
    }
    forall p | 0 <= p < |cq.queues|
      ensures QueueOrdered(Pushed(cq.queues, qi, cmd)[p]) && NoReadBehind(Pushed(cq.queues, qi, cmd)[p], q')
    {
      assert QueueOrdered(cq.queues[p]) && NoReadBehind(cq.queues[p], q);
    }
  }

  lemma MovedOrderSplit(cfg: Config, queues: seq<seq<Command>>, d: Desk, t: Transaction, qi: nat)
    requires !cfg.unifiedQueue && OrderOk(cfg, queues, d) && qi < |queues|
    requires t.isWrite ==> !HasAddr(d.pendRd, t.addr)
    ensures OrderOk(cfg, Pushed(queues, qi, ToCommand(cfg, t)), d)
  {
    forall p | 0 <= p < |queues| ensures NoReadBehind(Pushed(queues, qi, ToCommand(cfg, t))[p], d.pendRd) {
      assert NoReadBehind(queues[p], d.pendRd);
      forall j | 0 <= j < |d.pendRd| && t.isWrite ensures d.pendRd[j].addr != t.addr {
        assert d.pendRd[j] in d.pendRd;
      }
    }
  }

  lemma ScheduleWaiting(cfg: Config, queues: seq<seq<Command>>, d: Desk, draining: int, i: nat, qi: nat)
    requires DeskOk(cfg, d) && WaitingOk(cfg, queues, d) && i < |Selected(cfg, d, draining)|
    requires qi == Queues.QueueIndex(cfg, ToCommand(cfg, Selected(cfg, d, draining)[i]).Target()) < |queues|
    ensures var q := Selected(cfg, d, draining);
      WaitingOk(cfg, Pushed(queues, qi, ToCommand(cfg, q[i])), WithSelected(cfg, d, draining, q[..i] + q[i+1..]))
  {
    var q := Selected(cfg, d, draining);
    var queues1 := Pushed(queues, qi, ToCommand(cfg, q[i]));
    var d1 := WithSelected(cfg, d, draining, q[..i] + q[i+1..]);
    forall a: nat, w: bool ensures Waiting(cfg, queues1, d1, a, w) == if Pending(d1, a, w) then 1 else 0 {
      PushedWaiting(cfg, queues, q[i], qi, a, w);
      SelectedWaiting(cfg, d, draining, i, a, w);
      assert Waiting(cfg, queues, d, a, w) == if Pending(d, a, w) then 1 else 0;
    }
  }

  lemma SelectedDeskOk(cfg: Config, d: Desk, draining: int, i: nat)
    requires DeskOk(cfg, d) && i < |Selected(cfg, d, draining)|
    ensures var q := Selected(cfg, d, draining); DeskOk(cfg, WithSelected(cfg, d, draining, q[..i] + q[i+1..]))
  {
    var q := Selected(cfg, d, draining);
    var q' := q[..i] + q[i+1..];
    assert forall j :: 0 <= j < |q'| ==> q'[j] == if j < i then q[j] else q[j+1];
  }

  /** Moving the first accepted transaction into its command queue keeps the invariant. */
  lemma ScheduleKeepsDesk(cfg: Config, cq: Queues.State, d: Desk, draining: int, i: nat, qi: nat)
    requires DeskInv(cfg, cq.queues, d)
    requires i == FirstAccepted(cfg, cq, Selected(cfg, d, draining), 0) < |Selected(cfg, d, draining)|
    requires qi == Queues.QueueIndex(cfg, ToCommand(cfg, Selected(cfg, d, draining)[i]).Target()) < |cq.queues|
    requires !cfg.unifiedQueue && Selected(cfg, d, draining)[i].isWrite ==>
      !HasAddr(d.pendRd, Selected(cfg, d, draining)[i].addr)
    ensures var q := Selected(cfg, d, draining);
      DeskInv(cfg, Pushed(cq.queues, qi, ToCommand(cfg, q[i])), WithSelected(cfg, d, draining, q[..i] + q[i+1..]))
  {
    var q := Selected(cfg, d, draining);
    PushedQueuesOk(cfg, cq.queues, q[i], qi);
    ScheduleWaiting(cfg, cq.queues, d, draining, i, qi);
    SelectedDeskOk(cfg, d, draining, i);
    if cfg.unifiedQueue {
      MovedOrder(cfg, cq, d, i, qi);
    } else {
      MovedOrderSplit(cfg, cq.queues, d, q[i], qi);
    }
  }

  // ---- issuing

  function Removed(queues: seq<seq<Command>>, qi: nat, j: nat): seq<seq<Command>>
    requires qi < |queues| && j < |queues[qi]|
  {
    queues[qi := queues[qi][..j] + queues[qi][j+1..]]
  }

  function Settled(d: Desk, a: nat, w: bool): Desk {
    if w then d.(pendWr := Without(d.pendWr, a)) else d.(pendRd := Without(d.pendRd, a))
  }

  lemma SettledPending(d: Desk, a: nat, w: bool, a': nat, w': bool)
    ensures Pending(Settled(d, a, w), a', w') <==> Pending(d, a', w') && !(a == a' && w == w')
  {
    WithoutMeaning(d.pendRd, a);
    WithoutMeaning(d.pendWr, a);
    if Pending(d, a', w') && !(a == a' && w == w') {
      var t :| t in (if w' then d.pendWr else d.pendRd) && t.addr == a';
      assert t in if w' then Settled(d, a, w).pendWr else Settled(d, a, w).pendRd;
    }
  }

  lemma RemovedWaiting(cfg: Config, queues: seq<seq<Command>>, d: Desk, qi: nat, j: nat)
    requires QueuesOk(cfg, queues) && WaitingOk(cfg, queues, d) && qi < |queues| && j < |queues[qi]|
    ensures WaitingOk(cfg, Removed(queues, qi, j), Settled(d, queues[qi][j].hex, queues[qi][j].kind.IsWrite()))
  {
    var c := queues[qi][j];
    var w := c.kind.IsWrite();
    var queues1, d1 := Removed(queues, qi, j), Settled(d, c.hex, w);
    assert IsQueued(cfg, c, qi) && HomeQueue(cfg, c.hex) == qi;
    QueuedIsPending(cfg, queues, d, qi, j);
    forall a: nat, v: bool ensures Waiting(cfg, queues1, d1, a, v) == if Pending(d1, a, v) then 1 else 0 {
      CountCmdRemove(queues[qi], j, a, v);
      SettledPending(d, c.hex, w, a, v);
      assert Waiting(cfg, queues, d, a, v) == if Pending(d, a, v) then 1 else 0;
    }
  }

  lemma RemovedOrder(cfg: Config, queues: seq<seq<Command>>, d: Desk, qi: nat, j: nat, d1: Desk)
    requires OrderOk(cfg, queues, d) && qi < |queues| && j < |queues[qi]|
    requires d1.unifiedQ == d.unifiedQ && (forall t :: t in d1.pendRd ==> t in d.pendRd)
    ensures OrderOk(cfg, Removed(queues, qi, j), d1)
  {
    var q := queues[qi];
    var q' := q[..j] + q[j+1..];
    assert forall x :: 0 <= x < j ==> q'[x] == q[x];
    assert forall x :: j <= x < |q'| ==> q'[x] == q[x+1];
    forall p | 0 <= p < |queues|
      ensures cfg.unifiedQueue ==> QueueOrdered(Removed(queues, qi, j)[p]) && NoReadBehind(Removed(queues, qi, j)[p], d1.unifiedQ)
      ensures !cfg.unifiedQueue ==> NoReadBehind(Removed(queues, qi, j)[p], d1.pendRd)
    {
      if cfg.unifiedQueue {
        assert QueueOrdered(queues[p]) && NoReadBehind(queues[p], d.unifiedQ);
      } else {
        assert NoReadBehind(queues[p], d.pendRd);
        forall x | 0 <= x < |d1.pendRd| ensures exists y :: 0 <= y < |d.pendRd| && d.pendRd[y] == d1.pendRd[x] {
          assert d1.pendRd[x] in d1.pendRd;
        }
      }
    }
  }

  lemma {:induction false} WithoutDistinct(q: seq<Transaction>, a: nat)
    requires Distinct(q)
    ensures Distinct(Without(q, a))
  {
    RemoveFirstMeaning(q, a);
  }

  lemma WithoutKind(q: seq<Transaction>, a: nat, w: bool)
    requires AllKind(q, w)
    ensures AllKind(Without(q, a), w)
  {
    WithoutMeaning(q, a);
    forall i | 0 <= i < |Without(q, a)| ensures Without(q, a)[i].isWrite == w {
      assert Without(q, a)[i] in Without(q, a);
    }
  }

  lemma IssueKeepsDesk(cfg: Config, queues: seq<seq<Command>>, d: Desk, qi: nat, j: nat)
    requires DeskInv(cfg, queues, d) && qi < |queues| && j < |queues[qi]|
    ensures DeskInv(cfg, Removed(queues, qi, j), Settled(d, queues[qi][j].hex, queues[qi][j].kind.IsWrite()))
  {
    var a, w := queues[qi][j].hex, queues[qi][j].kind.IsWrite();
    var d1 := Settled(d, a, w);
    RemovedWaiting(cfg, queues, d, qi, j);
    WithoutMeaning(d.pendRd, a);
    RemovedOrder(cfg, queues, d, qi, j, d1);
    WithoutDistinct(d.pendWr, a);
    WithoutKind(d.pendWr, a, true);
    WithoutKind(d.pendRd, a, false);
  }
}
