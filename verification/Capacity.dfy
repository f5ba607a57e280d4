/** Which queue serves which bank, how long the lists of a controller get, and that they keep their order. */
module Capacity {
  import opened Types
  import opened Timing
  import opened Digits
  import opened Control
  import opened ControllerInvariant
  import opened ControllerRuns
  import opened Draining
  import Queues
  import Channel
  import RunTheorems

  // ---- queues and banks

  /** Two banks share a queue exactly if they are the same bank or, with a queue per rank, of the same rank. */
  lemma QueuesApart(cfg: Config, a: BankId, b: BankId)
    requires cfg.InRange(a) && cfg.InRange(b)
    ensures Queues.QueueIndex(cfg, a) == Queues.QueueIndex(cfg, b)
       <==> if cfg.perRankQueues then a.rank == b.rank else a == b
  {
    if !cfg.perRankQueues && Queues.QueueIndex(cfg, a) == Queues.QueueIndex(cfg, b) {
      var n := cfg.banksPerGroup;
      var low, low' := a.bankgroup * n + a.bank, b.bankgroup * n + b.bank;
      DigitsBelow(a.bankgroup, cfg.bankgroups, a.bank, n);
      DigitsBelow(b.bankgroup, cfg.bankgroups, b.bank, n);
      DigitsUnique(a.rank, b.rank, cfg.Banks(), low, low');
      DigitsUnique(a.bankgroup, b.bankgroup, n, a.bank, b.bank);
    }
  }

  /** Every queue serves some bank. */
  lemma NoQueueUnused(cfg: Config, qi: nat) returns (id: BankId)
    requires cfg.bankgroups > 0 && cfg.banksPerGroup > 0 && qi < Queues.NumQueues(cfg)
    ensures cfg.InRange(id) && Queues.QueueIndex(cfg, id) == qi
  {
    if cfg.perRankQueues {
      id := BankId(qi, 0, 0);
    } else {
      var banks := cfg.Banks();
      MulMono(cfg.banksPerGroup, 1, cfg.bankgroups);
      Recompose(qi, banks);
      var low := qi % banks;
      Recompose(low, cfg.banksPerGroup);
      id := BankId(qi / banks, low / cfg.banksPerGroup, low % cfg.banksPerGroup);
      QuotientBelow(qi, cfg.ranks, banks);
      QuotientBelow(low, cfg.bankgroups, cfg.banksPerGroup);
    }
  }

  lemma QuotientBelow(x: nat, highs: nat, lows: nat)
    requires lows > 0 && x < lows * highs
    ensures 0 <= x / lows < highs
  {
    Recompose(x, lows);
    if x / lows >= highs {
      MulMono(lows, highs, x / lows);
    }
    if x / lows < 0 {
      MulMono(lows, x / lows, -1);
    }
  }

  // ---- lengths and order

  /** The list runs in the order in which its transactions were accepted. */
  predicate InOrder(q: seq<Transaction>, clk: nat) {
    && (forall i, j :: 0 <= i < j < |q| ==> q[i].added <= q[j].added)
    && (forall i :: 0 <= i < |q| ==> q[i].added <= clk)
  }

  predicate Fits(q: seq<Transaction>, size: nat) {
    |q| <= size
  }

  predicate QueuesFit(cfg: Config, queues: seq<seq<Command>>) {
    forall i :: 0 <= i < |queues| ==> |queues[i]| <= cfg.cmdQueueSize
  }

  predicate ListsOk(cfg: Config, s: State) {
    && Fits(s.desk.unifiedQ, cfg.transQueueSize) && Fits(s.desk.readQ, cfg.transQueueSize)
    && Fits(s.desk.writeBuf, cfg.transQueueSize)
    && InOrder(s.desk.unifiedQ, s.clk) && InOrder(s.desk.readQ, s.clk) && InOrder(s.desk.writeBuf, s.clk)
  }

  lemma PushInOrder(q: seq<Transaction>, t: Transaction)
    requires InOrder(q, t.added)
    ensures InOrder(q + [t], t.added)
  {
  }

  lemma DropInOrder(q: seq<Transaction>, q': seq<Transaction>, i: nat, clk: nat)
    requires i < |q| && InOrder(q, clk) && WithoutAt(q, q', i)
    ensures InOrder(q', clk)
  {
    assert forall j :: 0 <= j < |q'| ==> q'[j] == q[if j < i then j else j + 1];
  }

  lemma AddKeepsLists(cfg: Config, s: State, addr: nat, isWrite: bool)
    requires ListsOk(cfg, s) && WillAcceptTransaction(cfg, s, isWrite)
    ensures ListsOk(cfg, AddTransaction(cfg, s, addr, isWrite))
  {
    hide InOrder, HasAddr;
    var t := Transaction(addr, s.clk, 0, isWrite);
    PushInOrder(s.desk.unifiedQ, t);
    PushInOrder(s.desk.readQ, t);
    PushInOrder(s.desk.writeBuf, t);
  }

  lemma DispatchKeepsLists(cfg: Config, s: State, s': State)
    requires ListsOk(cfg, s) && Dispatched(cfg, s, s')
    ensures ListsOk(cfg, s') && s'.clk == s.clk
  {
    hide HasRoom, CommandQueued, NoneWithRoom, FirstWithRoom, WritesPress, InOrder, WithoutAt;
    var q := if cfg.unifiedQueue then s.desk.unifiedQ else s.desk.writeBuf;
    var i := RoomOrNone(cfg, s.cq.queues, q);
    var j := RoomOrNone(cfg, s.cq.queues, s.desk.readQ);
    forall x: nat, q: seq<Transaction>, q': seq<Transaction> | x < |q| && WithoutAt(q, q', x)
      ensures |q'| < |q| && (InOrder(q, s.clk) ==> InOrder(q', s.clk))
    {
      Shorter(q, q', x);
      if InOrder(q, s.clk) {
        DropInOrder(q, q', x, s.clk);
      }
    }
    InRange(cfg, s.cq.queues, q, i);
    InRange(cfg, s.cq.queues, s.desk.readQ, j);
  }

  lemma InRange(cfg: Config, queues: seq<seq<Command>>, q: seq<Transaction>, i: nat)
    ensures FirstWithRoom(cfg, queues, q, i) ==> i < |q|
  {
  }

  lemma Shorter(q: seq<Transaction>, q': seq<Transaction>, i: nat)
    requires i < |q| && WithoutAt(q, q', i)
    ensures |q'| < |q|
  {
  }

  lemma LaterKeepsLists(cfg: Config, s: State)
    requires ListsOk(cfg, s)
    ensures ListsOk(cfg, AdvanceClocks(s))
  {
  }

  lemma SameListsOk(cfg: Config, s: State, s': State)
    requires ListsOk(cfg, s) && SameLists(s, s') && s'.clk == s.clk
    ensures ListsOk(cfg, s')
  {
    hide InOrder;
  }

  lemma ServeKeepsClock(cfg: Config, s: State)
    requires cfg.ranks > 0 && cfg.RefreshInterval() > 0
    ensures BeforeMove(cfg, s).clk == s.clk
  {
    hide Serve;
    RunTheorems.ServeLeavesPlan(cfg, MakeTable(cfg), RefreshStep(cfg, s));
  }

  lemma StepKeepsLists(cfg: Config, s: State, op: Op)
    requires Sound(cfg) && Inv(cfg, MakeTable(cfg), s) && DrainOk(s) && ListsOk(cfg, s)
    ensures ListsOk(cfg, Step(cfg, MakeTable(cfg), s, op))
  {
    hide Inv, Tick, AddTransaction, Schedule, BeforeMove, Dispatched, ListsOk, AdvanceClocks;
    match op
    case Submit(addr, isWrite) =>
      if WillAcceptTransaction(cfg, s, isWrite) {
        AddKeepsLists(cfg, s, addr, isWrite);
      }
    case Cycle =>
      CycleDispatches(cfg, s);
      ServeKeepsClock(cfg, s);
      SameListsOk(cfg, s, BeforeMove(cfg, s));
      DispatchKeepsLists(cfg, BeforeMove(cfg, s), Schedule(cfg, BeforeMove(cfg, s)));
      LaterKeepsLists(cfg, Schedule(cfg, BeforeMove(cfg, s)));
    case Collect(clk) => SameListsOk(cfg, s, ReturnDone(s, clk).1);
  }

  lemma InitialLists(cfg: Config)
    ensures ListsOk(cfg, Initial(cfg))
  {
  }

  lemma {:induction false} RunLists(cfg: Config, ops: seq<Op>)
    requires Sound(cfg)
    ensures ListsOk(cfg, RunTheorems.After(cfg, ops))
    decreases |ops|
  {
    hide Inv, Step, ListsOk;
    InitialLists(cfg);
    if ops != [] {
      RunLists(cfg, ops[..|ops| - 1]);
      EveryRunOk(cfg, ops[..|ops| - 1]);
      DrainIsCovered(cfg, ops[..|ops| - 1]);
      StepKeepsLists(cfg, RunTheorems.After(cfg, ops[..|ops| - 1]), ops[|ops| - 1]);
    }
  }

  // ---- command queues

  lemma FetchKeepsFit(cfg: Config, s: State)
    requires QueuesFit(cfg, s.cq.queues)
    ensures QueuesFit(cfg, Fetch(cfg, s).1.cq.queues)
  {
    hide Queues.Pick, Queues.WithoutMatch, Queues.HasMatch;
    PickKeepsQueues(cfg, s.ch, s.cq, |s.cq.queues|);
    forall q: seq<Command>, c: Command | Queues.HasMatch(q, c) ensures |Queues.WithoutMatch(q, c)| <= |q| {
      var j := Queues.WithoutMatchMeaning(q, c);
    }
  }

  lemma {:induction false} PickKeepsQueues(cfg: Config, ch: Channel.State, st: Queues.State, tries: nat)
    ensures Queues.Pick(cfg, ch, st, tries).1.queues == st.queues
    decreases tries
  {
    hide Queues.FirstReady;
    if tries > 0 && Queues.NextIndex(st) < |st.queues| {
      PickKeepsQueues(cfg, ch, st.(idx := Queues.NextIndex(st)), tries - 1);
    }
  }

  lemma IssueKeepsQueues(cfg: Config, tm: Table, s: State, cmd: Command)
    ensures IssueCommand(cfg, tm, s, cmd).cq == s.cq
  {
  }

  lemma ServeKeepsFit(cfg: Config, tm: Table, s: State)
    requires QueuesFit(cfg, s.cq.queues)
    ensures QueuesFit(cfg, Serve(cfg, tm, s).cq.queues)
  {
    hide IssueCommand, Fetch, QueuesFit;
    var (cmd, s1) := Choose(cfg, s);
    FetchKeepsFit(cfg, s);
    if s.ch.refreshQ != [] {
      FetchKeepsFit(cfg, s.(cq := Queues.FinishRefresh(cfg, s.ch, s.cq).1));
    }
    if cmd.Some? {
      IssueKeepsQueues(cfg, tm, s1, cmd.value);
      var s2 := IssueCommand(cfg, tm, s1, cmd.value);
      FetchKeepsFit(cfg, s2);
      var (second, s3) := Fetch(cfg, s2);
      if second.Some? {
        IssueKeepsQueues(cfg, tm, s3, second.value);
      }
    }
  }

  lemma ScheduleKeepsFit(cfg: Config, s: State)
    requires QueuesFit(cfg, s.cq.queues)
    ensures QueuesFit(cfg, Schedule(cfg, s).cq.queues)
  {
    hide FirstAccepted, DrainTarget, Queues.QueueIndex;
  }

  lemma StepKeepsFit(cfg: Config, s: State, op: Op)
    requires cfg.ranks > 0 && cfg.RefreshInterval() > 0 && QueuesFit(cfg, s.cq.queues)
    ensures QueuesFit(cfg, Step(cfg, MakeTable(cfg), s, op).cq.queues)
  {
    hide QueuesFit, Serve, Schedule;
    ServeKeepsFit(cfg, MakeTable(cfg), RefreshStep(cfg, s));
    ScheduleKeepsFit(cfg, Serve(cfg, MakeTable(cfg), RefreshStep(cfg, s)));
  }

  lemma {:induction false} RunFits(cfg: Config, ops: seq<Op>)
    requires cfg.ranks > 0 && cfg.RefreshInterval() > 0
    ensures QueuesFit(cfg, RunTheorems.After(cfg, ops).cq.queues)
    decreases |ops|
  {
    hide Step;
    if ops != [] {
      RunFits(cfg, ops[..|ops| - 1]);
      StepKeepsFit(cfg, RunTheorems.After(cfg, ops[..|ops| - 1]), ops[|ops| - 1]);
    }
  }

  /** The list that a transaction of this kind would wait in. */
  function WaitsIn(cfg: Config, d: Desk, isWrite: bool): seq<Transaction> {
    if cfg.unifiedQueue then d.unifiedQ else if isWrite then d.writeBuf else d.readQ
  }

  /** On every run no list outgrows its configured size, each runs in order of acceptance, and a transaction is
      refused exactly when its list is full. */
  lemma RefusedIffFull(cfg: Config, ops: seq<Op>, addr: nat, isWrite: bool)
    requires Sound(cfg)
    ensures var (s, s') := (RunTheorems.After(cfg, ops), RunTheorems.After(cfg, ops + [Submit(addr, isWrite)]));
      var q := WaitsIn(cfg, s.desk, isWrite);
      && |q| <= cfg.transQueueSize && InOrder(q, s.clk) && QueuesFit(cfg, s.cq.queues)
      && (if |q| == cfg.transQueueSize then s' == s
          else s'.accepted == s.accepted + [Transaction(addr, s.clk, 0, isWrite)])
  {
    hide Run, InOrder, HasAddr, QueuesFit;
    RunLists(cfg, ops);
    RunFits(cfg, ops);
    OneMore(cfg, ops, Submit(addr, isWrite));
  }
}
