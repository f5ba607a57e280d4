/** When writes leave the write buffer: what one cycle does with the transaction lists, told by list
    contents and queue lengths. */
module Draining {
  import opened Types
  import opened Timing
  import opened Control
  import opened DeskInvariant
  import opened ControllerInvariant
  import opened ControllerRuns
  import opened RunTheorems
  import Queues
  import ControllerSteps

  // ---- what there is to see before the move

  /** The command queue of the transaction's bank (or rank) is not full. */
  predicate HasRoom(cfg: Config, queues: seq<seq<Command>>, t: Transaction) {
    0 <= HomeQueue(cfg, t.addr) < |queues| && |queues[HomeQueue(cfg, t.addr)]| < cfg.cmdQueueSize
  }

  /** Transaction `i` is the first of the list whose command queue has room. */
  predicate FirstWithRoom(cfg: Config, queues: seq<seq<Command>>, q: seq<Transaction>, i: nat) {
    i < |q| && HasRoom(cfg, queues, q[i]) && forall j :: 0 <= j < i ==> !HasRoom(cfg, queues, q[j])
  }

  predicate NoneWithRoom(cfg: Config, queues: seq<seq<Command>>, q: seq<Transaction>) {
    forall j :: 0 <= j < |q| ==> !HasRoom(cfg, queues, q[j])
  }

  /** The write buffer is full, or holds more than eight writes while no command is queued. */
  predicate WritesPress(cfg: Config, d: Desk, queues: seq<seq<Command>>) {
    || |d.writeBuf| >= cfg.transQueueSize
    || (|d.writeBuf| > 8 && forall i :: 0 <= i < |queues| ==> queues[i] == [])
  }

  // ---- what the move does

  predicate WithoutAt(q: seq<Transaction>, q': seq<Transaction>, i: nat)
    requires i < |q|
  {
    |q'| == |q| - 1 && (forall j :: 0 <= j < i ==> q'[j] == q[j]) && (forall j :: i <= j < |q'| ==> q'[j] == q[j + 1])
  }

  /** The command of transaction `t` is last in its queue and every other queue is as it was. */
  predicate CommandQueued(cfg: Config, queues: seq<seq<Command>>, queues': seq<seq<Command>>, t: Transaction) {
    var home := HomeQueue(cfg, t.addr);
    && |queues'| == |queues| && 0 <= home < |queues|
    && queues'[home] == queues[home] + [Command(cfg.AccessKind(t.isWrite), cfg.decode(t.addr), t.addr)]
    && forall i :: 0 <= i < |queues| && i != home ==> queues'[i] == queues[i]
  }

  /** The lists of pending reads and writes and everything outside the desk, the queues and the drain counter
      are as they were. */
  predicate RestKept(s: State, s': State) {
    && s' == s.(desk := s'.desk, cq := s.cq.(queues := s'.cq.queues), draining := s'.draining)
    && s'.desk.pendRd == s.desk.pendRd && s'.desk.pendWr == s.desk.pendWr
  }

  /** Exactly write `i` of the buffer has become a command. */
  predicate WriteMoved(cfg: Config, s: State, s': State, i: nat) {
    && i < |s.desk.writeBuf| && s.desk.writeBuf[i].isWrite
    && WithoutAt(s.desk.writeBuf, s'.desk.writeBuf, i)
    && CommandQueued(cfg, s.cq.queues, s'.cq.queues, s.desk.writeBuf[i])
    && s'.desk.readQ == s.desk.readQ && s'.desk.unifiedQ == s.desk.unifiedQ && RestKept(s, s')
  }

  /** Exactly read `i` of the read queue has become a command. */
  predicate ReadMoved(cfg: Config, s: State, s': State, i: nat) {
    && i < |s.desk.readQ| && !s.desk.readQ[i].isWrite
    && WithoutAt(s.desk.readQ, s'.desk.readQ, i)
    && CommandQueued(cfg, s.cq.queues, s'.cq.queues, s.desk.readQ[i])
    && s'.desk.writeBuf == s.desk.writeBuf && s'.desk.unifiedQ == s.desk.unifiedQ && RestKept(s, s')
  }

  predicate UnifiedMoved(cfg: Config, s: State, s': State, i: nat) {
    && i < |s.desk.unifiedQ|
    && WithoutAt(s.desk.unifiedQ, s'.desk.unifiedQ, i)
    && CommandQueued(cfg, s.cq.queues, s'.cq.queues, s.desk.unifiedQ[i])
    && s'.desk.readQ == s.desk.readQ && s'.desk.writeBuf == s.desk.writeBuf && RestKept(s, s')
  }

  /** The writes are served with `left` of them still to go: the first with room moves, unless a read of its
      address is pending, which ends the drain. */
  ghost predicate WriteServed(cfg: Config, s: State, s': State, left: int) {
    && (forall i: nat :: FirstWithRoom(cfg, s.cq.queues, s.desk.writeBuf, i) ==>
          if HasAddr(s.desk.pendRd, s.desk.writeBuf[i].addr) then s' == s.(draining := 0)
          else WriteMoved(cfg, s, s', i) && s'.draining == left - 1)
    && (NoneWithRoom(cfg, s.cq.queues, s.desk.writeBuf) ==> s' == s.(draining := left))
  }

  ghost predicate ReadServed(cfg: Config, s: State, s': State) {
    && (forall i: nat :: FirstWithRoom(cfg, s.cq.queues, s.desk.readQ, i) ==>
          ReadMoved(cfg, s, s', i) && s'.draining == s.draining)
    && (NoneWithRoom(cfg, s.cq.queues, s.desk.readQ) ==> s' == s)
  }

  ghost predicate UnifiedServed(cfg: Config, s: State, s': State) {
    && (forall i: nat :: FirstWithRoom(cfg, s.cq.queues, s.desk.unifiedQ, i) ==>
          UnifiedMoved(cfg, s, s', i) && s'.draining == s.draining)
    && (NoneWithRoom(cfg, s.cq.queues, s.desk.unifiedQ) ==> s' == s)
  }

  /** What one cycle does with the lists.  With separate queues: a running drain goes on; otherwise a press
      of writes starts one with as many writes as the buffer holds; otherwise a read moves. */
  ghost predicate Dispatched(cfg: Config, s: State, s': State) {
    if cfg.unifiedQueue then UnifiedServed(cfg, s, s')
    else if s.draining > 0 then WriteServed(cfg, s, s', s.draining)
    else if WritesPress(cfg, s.desk, s.cq.queues) && s.desk.writeBuf != [] then WriteServed(cfg, s, s', |s.desk.writeBuf|)
    else ReadServed(cfg, s, s')
  }

  /** Either no transaction of a list has room or exactly one is the first that does. */
  lemma {:induction false} RoomOrNone(cfg: Config, queues: seq<seq<Command>>, q: seq<Transaction>) returns (i: nat)
    ensures i <= |q|
    ensures i < |q| ==> FirstWithRoom(cfg, queues, q, i)
    ensures i == |q| ==> NoneWithRoom(cfg, queues, q)
    decreases |q|
  {
    hide HomeQueue;
    if q == [] {
      i := 0;
    } else {
      i := RoomOrNone(cfg, queues, q[..|q| - 1]);
      if i == |q| - 1 && !HasRoom(cfg, queues, q[i]) {
        i := |q|;
      }
    }
  }

  // ---- the move is what it is said to be

  lemma RoomIsAcceptance(cfg: Config, cq: Queues.State, t: Transaction)
    ensures Queues.WillAccept(cfg, cq, ToCommand(cfg, t).Target()) <==> HasRoom(cfg, cq.queues, t)
  {
  }

  lemma FirstFound(cfg: Config, cq: Queues.State, q: seq<Transaction>)
    ensures var r := FirstAccepted(cfg, cq, q, 0);
      if r < |q| then FirstWithRoom(cfg, cq.queues, q, r) else NoneWithRoom(cfg, cq.queues, q)
  {
    hide Queues.WillAccept, HasRoom;
    forall t: Transaction ensures Queues.WillAccept(cfg, cq, ToCommand(cfg, t).Target()) <==> HasRoom(cfg, cq.queues, t) {
      RoomIsAcceptance(cfg, cq, t);
    }
  }

  /** With the drain counter at `left`, moving transaction `i` of the selected list. */
  lemma MoveShape(cfg: Config, s: State, left: int, i: nat)
    requires DeskOk(cfg, s.desk) && i < |Selected(cfg, s.desk, left)|
    requires HasRoom(cfg, s.cq.queues, Selected(cfg, s.desk, left)[i])
    ensures var s' := MoveOne(cfg, s, left, i);
      && (cfg.unifiedQueue ==> UnifiedMoved(cfg, s, s', i) && s'.draining == left)
      && (!cfg.unifiedQueue && left > 0 ==> WriteMoved(cfg, s, s', i) && s'.draining == left - 1)
      && (!cfg.unifiedQueue && left <= 0 ==> ReadMoved(cfg, s, s', i) && s'.draining == left)
  {
    RoomIsAcceptance(cfg, s.cq, Selected(cfg, s.desk, left)[i]);
  }

  lemma PressStarts(cfg: Config, s: State)
    requires s.draining >= 0
    ensures DrainTarget(cfg, s)
         == if !cfg.unifiedQueue && s.draining == 0 && WritesPress(cfg, s.desk, s.cq.queues) then |s.desk.writeBuf|
            else s.draining
  {
  }

  lemma ServedWith(cfg: Config, s: State, left: int)
    requires DeskOk(cfg, s.desk) && left == DrainTarget(cfg, s)
    ensures var s' := Schedule(cfg, s);
      && (cfg.unifiedQueue && left == s.draining ==> UnifiedServed(cfg, s, s'))
      && (!cfg.unifiedQueue && left > 0 ==> WriteServed(cfg, s, s', left))
      && (!cfg.unifiedQueue && left <= 0 && left == s.draining ==> ReadServed(cfg, s, s'))
  {
    hide DrainTarget, FirstAccepted, MoveOne, FirstWithRoom, NoneWithRoom, HasRoom, WriteMoved, ReadMoved, UnifiedMoved;
    var q := Selected(cfg, s.desk, left);
    FirstFound(cfg, s.cq, q);
    FirstExcludesNone(cfg, s.cq.queues, q);
    var r := FirstAccepted(cfg, s.cq, q, 0);
    if r < |q| {
      FirstHasRoom(cfg, s.cq.queues, q, r);
      MoveShape(cfg, s, left, r);
    }
  }

  lemma FirstHasRoom(cfg: Config, queues: seq<seq<Command>>, q: seq<Transaction>, r: nat)
    requires FirstWithRoom(cfg, queues, q, r)
    ensures HasRoom(cfg, queues, q[r])
  {
  }

  lemma FirstExcludesNone(cfg: Config, queues: seq<seq<Command>>, q: seq<Transaction>)
    ensures forall i: nat, j: nat :: FirstWithRoom(cfg, queues, q, i) && FirstWithRoom(cfg, queues, q, j) ==> i == j
    ensures forall i: nat :: FirstWithRoom(cfg, queues, q, i) ==> i < |q| && !NoneWithRoom(cfg, queues, q)
  {
    hide HasRoom;
  }

  /** The move of one cycle, read off list contents and queue lengths. */
  lemma ScheduleDispatches(cfg: Config, s: State)
    requires DeskOk(cfg, s.desk) && s.draining >= 0
    ensures Dispatched(cfg, s, Schedule(cfg, s))
  {
    hide DeskOk, Schedule, DrainTarget, UnifiedServed, WriteServed, ReadServed;
    PressStarts(cfg, s);
    ServedWith(cfg, s, DrainTarget(cfg, s));
  }

  // ---- on every run

  /** A running drain never counts more writes than the buffer holds. */
  predicate DrainOk(s: State) {
    0 <= s.draining <= |s.desk.writeBuf|
  }

  /** The lists and the counter the move looks at. */
  predicate SameLists(s: State, s': State) {
    && s'.desk.writeBuf == s.desk.writeBuf && s'.desk.readQ == s.desk.readQ && s'.desk.unifiedQ == s.desk.unifiedQ
    && s'.draining == s.draining
  }

  lemma FetchKeepsLists(cfg: Config, s: State)
    ensures SameLists(s, Fetch(cfg, s).1)
  {
  }

  lemma IssueKeepsLists(cfg: Config, tm: Table, s: State, cmd: Command)
    ensures SameLists(s, IssueCommand(cfg, tm, s, cmd))
  {
  }

  lemma ServeKeepsLists(cfg: Config, tm: Table, s: State)
    ensures SameLists(s, Serve(cfg, tm, s))
  {
    hide IssueCommand, Fetch;
    var (cmd, s1) := Choose(cfg, s);
    FetchKeepsLists(cfg, s);
    if s.ch.refreshQ != [] {
      FetchKeepsLists(cfg, s.(cq := Queues.FinishRefresh(cfg, s.ch, s.cq).1));
    }
    if cmd.Some? {
      IssueKeepsLists(cfg, tm, s1, cmd.value);
      var s2 := IssueCommand(cfg, tm, s1, cmd.value);
      FetchKeepsLists(cfg, s2);
      var (second, s3) := Fetch(cfg, s2);
      if second.Some? {
        IssueKeepsLists(cfg, tm, s3, second.value);
      }
    }
  }

  lemma DispatchKeepsDrain(cfg: Config, s: State, s': State)
    requires DrainOk(s) && Dispatched(cfg, s, s')
    ensures DrainOk(s')
  {
    hide HasRoom, CommandQueued, NoneWithRoom, FirstWithRoom, WritesPress;
    var i := RoomOrNone(cfg, s.cq.queues, if cfg.unifiedQueue then s.desk.unifiedQ else s.desk.writeBuf);
    var j := RoomOrNone(cfg, s.cq.queues, s.desk.readQ);
  }

  /** The state in which a cycle that starts at `s` comes to move a transaction. */
  function BeforeMove(cfg: Config, s: State): State
    requires cfg.ranks > 0 && cfg.RefreshInterval() > 0
  {
    Serve(cfg, MakeTable(cfg), RefreshStep(cfg, s))
  }

  lemma BeforeMoveOk(cfg: Config, s: State)
    requires Sound(cfg) && Inv(cfg, MakeTable(cfg), s)
    ensures Inv(cfg, MakeTable(cfg), BeforeMove(cfg, s)) && SameLists(s, BeforeMove(cfg, s))
  {
    hide Inv;
    ControllerSteps.RefreshStepKeepsInv(cfg, MakeTable(cfg), s);
    ServeKeepsInv(cfg, RefreshStep(cfg, s));
    ServeKeepsLists(cfg, MakeTable(cfg), RefreshStep(cfg, s));
  }

  lemma CycleDispatches(cfg: Config, s: State)
    requires Sound(cfg) && Inv(cfg, MakeTable(cfg), s) && DrainOk(s)
    ensures var mid := BeforeMove(cfg, s);
      && SameLists(s, mid) && Dispatched(cfg, mid, Schedule(cfg, mid)) && DrainOk(Schedule(cfg, mid))
      && Tick(cfg, MakeTable(cfg), s) == AdvanceClocks(Schedule(cfg, mid))
  {
    hide Serve, RefreshStep, Schedule, Dispatched, ChannelRun.ChannelOk, WaitingOk, OrderOk, QueuesOk, WantedOk, TraceUseOk, Conserved;
    BeforeMoveOk(cfg, s);
    ScheduleDispatches(cfg, BeforeMove(cfg, s));
    DispatchKeepsDrain(cfg, BeforeMove(cfg, s), Schedule(cfg, BeforeMove(cfg, s)));
  }

  lemma AddKeepsDrain(cfg: Config, s: State, addr: nat, isWrite: bool)
    requires DrainOk(s)
    ensures DrainOk(AddTransaction(cfg, s, addr, isWrite))
  {
  }

  lemma StepKeepsDrain(cfg: Config, s: State, op: Op)
    requires Sound(cfg) && Inv(cfg, MakeTable(cfg), s) && DrainOk(s)
    ensures DrainOk(Step(cfg, MakeTable(cfg), s, op))
  {
    hide Inv, Tick, AddTransaction, Schedule, BeforeMove, Dispatched;
    match op
    case Submit(addr, isWrite) => AddKeepsDrain(cfg, s, addr, isWrite);
    case Cycle => CycleDispatches(cfg, s);
    case Collect(clk) =>
  }

  lemma {:induction false} DrainIsCovered(cfg: Config, ops: seq<Op>)
    requires Sound(cfg)
    ensures DrainOk(After(cfg, ops))
    decreases |ops|
  {
    hide Inv, Step;
    if ops != [] {
      DrainIsCovered(cfg, ops[..|ops| - 1]);
      EveryRunOk(cfg, ops[..|ops| - 1]);
      StepKeepsDrain(cfg, After(cfg, ops[..|ops| - 1]), ops[|ops| - 1]);
    }
  }

  /** Every cycle of every run moves at most one transaction, and the one it must: a running drain goes on
      with the writes, a press of writes starts one, and otherwise a read moves. */
  lemma EveryCycleDispatches(cfg: Config, ops: seq<Op>)
    requires Sound(cfg)
    ensures var (s, mid) := (After(cfg, ops), BeforeMove(cfg, After(cfg, ops)));
      && SameLists(s, mid) && Dispatched(cfg, mid, Schedule(cfg, mid))
      && After(cfg, ops + [Cycle]) == AdvanceClocks(Schedule(cfg, mid))
  {
    hide Inv, Tick, BeforeMove, Schedule, Dispatched, AdvanceClocks, Run;
    DrainIsCovered(cfg, ops);
    EveryRunOk(cfg, ops);
    CycleDispatches(cfg, After(cfg, ops));
    OneMore(cfg, ops, Cycle);
  }

  lemma OneMore(cfg: Config, ops: seq<Op>, op: Op)
    requires cfg.ranks > 0 && cfg.RefreshInterval() > 0
    ensures After(cfg, ops + [op]) == Step(cfg, MakeTable(cfg), After(cfg, ops), op)
  {
    hide Step;
    assert (ops + [op])[..|ops|] == ops;
  }

  /** A cycle of a run with a full write buffer, or with more than eight writes and no queued command, and no
      drain running: the first write with room leaves the buffer and is last in its command queue, unless a
      read of its address is pending. */
  lemma PressedWriteLeaves(cfg: Config, ops: seq<Op>, i: nat)
    requires Sound(cfg) && !cfg.unifiedQueue
    requires var (s, mid) := (After(cfg, ops), BeforeMove(cfg, After(cfg, ops)));
      && s.draining == 0 && WritesPress(cfg, s.desk, mid.cq.queues)
      && FirstWithRoom(cfg, mid.cq.queues, s.desk.writeBuf, i) && !HasAddr(mid.desk.pendRd, s.desk.writeBuf[i].addr)
    ensures var (s, mid, s') := (After(cfg, ops), BeforeMove(cfg, After(cfg, ops)), After(cfg, ops + [Cycle]));
      && WithoutAt(s.desk.writeBuf, s'.desk.writeBuf, i) && s'.desk.readQ == s.desk.readQ
      && CommandQueued(cfg, mid.cq.queues, s'.cq.queues, s.desk.writeBuf[i])
      && s'.draining == |s.desk.writeBuf| - 1
  {
    hide Run, BeforeMove, Schedule, FirstWithRoom, WithoutAt, CommandQueued, HasRoom, NoneWithRoom;
    EveryCycleDispatches(cfg, ops);
    var mid := BeforeMove(cfg, After(cfg, ops));
    FirstExcludesNone(cfg, mid.cq.queues, mid.desk.writeBuf);
  }

  /** A cycle with neither a drain running nor a press of writes leaves the buffer alone, and the first read
      with room leaves the read queue. */
  lemma ReadsGoFirst(cfg: Config, ops: seq<Op>)
    requires Sound(cfg) && !cfg.unifiedQueue
    requires var (s, mid) := (After(cfg, ops), BeforeMove(cfg, After(cfg, ops)));
      s.draining == 0 && !WritesPress(cfg, s.desk, mid.cq.queues)
    ensures var (s, mid, s') := (After(cfg, ops), BeforeMove(cfg, After(cfg, ops)), After(cfg, ops + [Cycle]));
      && s'.desk.writeBuf == s.desk.writeBuf && s'.draining == 0
      && (forall i: nat :: FirstWithRoom(cfg, mid.cq.queues, s.desk.readQ, i) ==>
            && WithoutAt(s.desk.readQ, s'.desk.readQ, i)
            && CommandQueued(cfg, mid.cq.queues, s'.cq.queues, s.desk.readQ[i]))
      && (NoneWithRoom(cfg, mid.cq.queues, s.desk.readQ) ==>
            s'.desk.readQ == s.desk.readQ && s'.cq.queues == mid.cq.queues)
  {
    hide Run, BeforeMove, Schedule, FirstWithRoom, WithoutAt, CommandQueued, HasRoom, NoneWithRoom;
    EveryCycleDispatches(cfg, ops);
    var mid := BeforeMove(cfg, After(cfg, ops));
    FirstExcludesNone(cfg, mid.cq.queues, mid.desk.readQ);
    var i := RoomOrNone(cfg, mid.cq.queues, mid.desk.readQ);
  }
}
