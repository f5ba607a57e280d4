/** The mutable controller of one channel, proved against the value model step by step. */
module MemoryController {
  import opened Types
  import opened Timing
  import opened Trace
  import opened Control
  import opened Bookkeeping
  import opened DeskInvariant
  import opened ChannelRun
  import opened ControllerInvariant
  import opened ControllerSteps
  import opened ControllerRuns
  import opened ChannelStateModel
  import opened CommandQueueModel
  import opened RefreshUnit
  import Channel
  import Queues
  import RefreshPlan

  class Controller {
    const cfg: Config
    const tm: Table
    const ch: ChannelState
    const cq: CommandQueue
    const rf: RefreshScheduler
    var unifiedQ: seq<Transaction>
    var readQ: seq<Transaction>
    var writeBuf: seq<Transaction>
    var pendRd: seq<Transaction>
    var pendWr: seq<Transaction>
    var returnQ: seq<Transaction>
    var draining: int
    var clk: nat
    /** Set where the source exits because an issued access has no pending transaction. */
    var missing: bool
    /** The command trace. */
    ghost var trace: seq<Issued>
    ghost var accepted: seq<Transaction>
    ghost var delivered: seq<Transaction>

    ghost function DeskView(): Desk
      reads this
    {
      Desk(unifiedQ, readQ, writeBuf, pendRd, pendWr)
    }

    /** The whole controller as a value. */
    ghost function View(): State
      reads this, ch, cq, rf
    {
      State(ch.View(), cq.View(), rf.View(), DeskView(), returnQ, draining, clk, missing || cq.lost,
            trace, accepted, delivered)
    }

    ghost predicate Wired() {
      && Sound(cfg) && tm == MakeTable(cfg)
      && ch.cfg == cfg && ch.tm == tm && cq.cfg == cfg && cq.ch == ch && rf.cfg == cfg && rf.ch == ch
    }

    /** The object invariant is the invariant of the value model: it holds on every run. */
    ghost predicate Valid()
      reads this, ch, cq, rf
    {
      Wired() && Inv(cfg, tm, View())
    }

    constructor (cfg: Config)
      requires Sound(cfg)
      ensures Valid() && this.cfg == cfg && View() == Initial(cfg)
      ensures fresh(ch) && fresh(cq) && fresh(rf)
    {
      this.cfg, this.tm := cfg, MakeTable(cfg);
      var state := new ChannelState(cfg, MakeTable(cfg));
      ch := state;
      cq := new CommandQueue(cfg, state);
      rf := new RefreshScheduler(cfg, state);
      unifiedQ, readQ, writeBuf, pendRd, pendWr, returnQ := [], [], [], [], [], [];
      draining, clk, missing := 0, 0, false;
      trace, accepted, delivered := [], [], [];
      new;
      InitialInv(cfg, MakeTable(cfg));
    }

    // ---- transactions

    method WillAcceptTransaction(isWrite: bool) returns (ok: bool)
      ensures ok == Control.WillAcceptTransaction(cfg, View(), isWrite)
    {
      if cfg.unifiedQueue {
        ok := |unifiedQ| < cfg.transQueueSize;
      } else if !isWrite {
        ok := |readQ| < cfg.transQueueSize;
      } else {
        ok := |writeBuf| < cfg.transQueueSize;
      }
    }

    method AddTransaction(addr: nat, isWrite: bool)
      requires Valid()
      modifies this
      ensures Valid() && View() == Control.AddTransaction(cfg, old(View()), addr, isWrite)
    {
      hide Inv, Sound, Control.AddTransaction;
      AddKeepsInv(cfg, tm, View(), addr, isWrite);
      AddChangesOnly(cfg, View(), addr, isWrite);
      if isWrite {
        AddWrite(addr);
      } else {
        AddRead(addr);
      }
    }

    /** A write pending for the address absorbs the new one. */
    method AddWrite(addr: nat)
      modifies this`accepted, this`pendWr, this`unifiedQ, this`readQ, this`writeBuf, this`returnQ
      ensures var s := Control.AddTransaction(cfg, old(View()), addr, true);
        DeskView() == s.desk && returnQ == s.ret && accepted == s.accepted
    {
      hide HasAddr, Enqueue;
      var t := Transaction(addr, clk, 0, true);
      accepted := accepted + [t];
      var merged := Contains(pendWr, addr);
      if !merged {
        pendWr := pendWr + [t];
        PushTransaction(t);
      }
      returnQ := returnQ + [t.(complete := clk + 1)];
    }

    /** A pending write answers the read; otherwise the read joins those pending for its address. */
    method AddRead(addr: nat)
      modifies this`accepted, this`pendRd, this`unifiedQ, this`readQ, this`writeBuf, this`returnQ
      ensures var s := Control.AddTransaction(cfg, old(View()), addr, false);
        DeskView() == s.desk && returnQ == s.ret && accepted == s.accepted
    {
      hide HasAddr, Enqueue;
      var t := Transaction(addr, clk, 0, false);
      accepted := accepted + [t];
      var forwarded := Contains(pendWr, addr);
      if forwarded {
        returnQ := returnQ + [t.(complete := clk + 1)];
      } else {
        var joined := Contains(pendRd, addr);
        pendRd := pendRd + [t];
        if !joined {
          PushTransaction(t);
        }
      }
    }

    method PushTransaction(t: Transaction)
      modifies this`unifiedQ, this`readQ, this`writeBuf
      ensures DeskView() == Enqueue(cfg, old(DeskView()), t)
    {
      if cfg.unifiedQueue {
        unifiedQ := unifiedQ + [t];
      } else if t.isWrite {
        writeBuf := writeBuf + [t];
      } else {
        readQ := readQ + [t];
      }
    }

    method Contains(q: seq<Transaction>, addr: nat) returns (found: bool)
      ensures found == HasAddr(q, addr)
    {
      var i := 0;
      while i < |q|
        invariant 0 <= i <= |q|
        invariant forall j :: 0 <= j < i ==> q[j].addr != addr
      {
        if q[i].addr == addr {
          return true;
        }
        i := i + 1;
      }
      return false;
    }

    /** Hand back the first finished transaction, if there is one. */
    method ReturnDoneTrans(now: nat) returns (r: Option<Transaction>)
      requires Valid()
      modifies this`returnQ, this`delivered
      ensures Valid() && (r, View()) == ReturnDone(old(View()), now)
      ensures r.Some? ==> now >= r.value.complete
    {
      hide Inv, Sound;
      ReturnKeepsInv(cfg, tm, View(), now);
      var i := 0;
      while i < |returnQ|
        invariant 0 <= i <= |returnQ| && returnQ == old(returnQ) && delivered == old(delivered)
        invariant FirstDone(returnQ, now, 0) == FirstDone(returnQ, now, i)
      {
        if now >= returnQ[i].complete {
          r := Some(returnQ[i]);
          delivered := delivered + [returnQ[i]];
          returnQ := returnQ[..i] + returnQ[i+1..];
          return;
        }
        i := i + 1;
      }
      r := None;
    }

    /** Collect everything that is finished, as the memory system does before each cycle: what was
        delivered were the finished transactions, and none is left. */
    method DrainDone(now: nat)
      requires Valid()
      modifies this`returnQ, this`delivered
      ensures Valid()
      ensures forall i :: 0 <= i < |returnQ| ==> now < returnQ[i].complete
      ensures Cores(delivered) + Cores(returnQ) == old(Cores(delivered) + Cores(returnQ))
    {
      hide Inv, Sound, Cores;
      while true
        invariant Valid()
        invariant Cores(delivered) + Cores(returnQ) == old(Cores(delivered) + Cores(returnQ))
        decreases |returnQ|
      {
        ghost var before := View();
        NoneDone(returnQ, now, 0);
        DeliveryConserves(before, now);
        var r := ReturnDoneTrans(now);
        if r.None? {
          return;
        }
      }
    }

    // ---- issuing

    /** Answer the pending reads of the address one by one, in order. */
    method AnswerReads(addr: nat, done: nat)
      modifies this`pendRd, this`returnQ
      ensures pendRd == Without(old(pendRd), addr)
      ensures returnQ == old(returnQ) + StampAll(With(old(pendRd), addr), done)
    {
      hide With, Without, StampAll;
      var numReads := CountReads(addr);
      ghost var p, owed := pendRd, With(pendRd, addr);
      ghost var n := 0;
      StampNone(owed, done);
      while numReads > 0
        invariant n + numReads == |owed| && numReads >= 0
        invariant With(pendRd, addr) == owed[n..] && Without(pendRd, addr) == Without(p, addr)
        invariant returnQ == old(returnQ) + StampAll(owed[..n], done)
      {
        var i := FindRead(addr);
        RemoveAnswered(pendRd, addr, i);
        returnQ := returnQ + [pendRd[i].(complete := done)];
        pendRd := pendRd[..i] + pendRd[i+1..];
        StampNext(owed, n, done);
        assert owed[n..][1..] == owed[n+1..];
        n := n + 1;
        numReads := numReads - 1;
      }
      assert owed[..n] == owed && owed[n..] == [];
      NoneOwed(pendRd, addr);
    }

    method CountReads(addr: nat) returns (n: nat)
      ensures n == CountAddr(pendRd, addr)
    {
      n := 0;
      var i := |pendRd|;
      while i > 0
        invariant 0 <= i <= |pendRd| && n == |With(pendRd[i..], addr)|
      {
        i := i - 1;
        assert pendRd[i..] == [pendRd[i]] + pendRd[i+1..];
        if pendRd[i].addr == addr {
          n := n + 1;
        }
      }
      assert pendRd[0..] == pendRd;
    }

    method FindRead(addr: nat) returns (i: nat)
      requires With(pendRd, addr) != []
      ensures i < |pendRd| && pendRd[i].addr == addr && forall j :: 0 <= j < i ==> pendRd[j].addr != addr
    {
      WithEmpty(pendRd, addr);
      i := 0;
      while pendRd[i].addr != addr
        invariant i < |pendRd| && forall j :: 0 <= j < i ==> pendRd[j].addr != addr
        decreases |pendRd| - i
      {
        assert exists t :: t in pendRd && t.addr == addr;
        i := i + 1;
      }
    }

    method RetireWrite(addr: nat)
      requires HasAddr(pendWr, addr)
      modifies this`pendWr
      ensures pendWr == RemoveFirst(old(pendWr), addr)
    {
      ghost var p := pendWr;
      var i := 0;
      while i < |pendWr|
        invariant 0 <= i <= |p| && pendWr == p
        invariant RemoveFirst(p, addr) == p[..i] + RemoveFirst(p[i..], addr)
      {
        if pendWr[i].addr == addr {
          assert p[i..][1..] == p[i+1..];
          pendWr := pendWr[..i] + pendWr[i+1..];
          return;
        }
        assert p[i..] == [p[i]] + p[i+1..];
        i := i + 1;
      }
      assert p[i..] == [] && p[..i] == p;
    }

    /** Settle the transactions that the command answers. */
    method SettleTransactions(cmd: Command)
      modifies this`pendRd, this`pendWr, this`returnQ, this`missing
      ensures View() == Settle(cfg, old(View()), cmd)
    {
      hide With, Without, StampAll, HasAddr, RemoveFirst;
      if cmd.kind.IsRead() {
        var numReads := CountReads(cmd.hex);
        if numReads == 0 {
          missing := true;
        } else {
          AnswerReads(cmd.hex, clk + cfg.ReadDelay());
        }
      } else if cmd.kind.IsWrite() {
        var found := Contains(pendWr, cmd.hex);
        if !found {
          missing := true;
        } else {
          RetireWrite(cmd.hex);
        }
      }
    }

    /** The effect of issuing is that of the value model, whatever the command. */
    method IssueCommand(cmd: Command)
      requires Wired() && ch.Valid() && InGeometry(cfg, cmd)
      modifies this`pendRd, this`pendWr, this`returnQ, this`missing, this`trace, ch
      ensures View() == Control.IssueCommand(cfg, tm, old(View()), cmd) && ch.Valid()
    {
      hide Channel.Issue, Settle, Sound, CountAddr, Channel.WellShaped;
      ghost var before := View();
      trace := trace + [Event(before, cmd)];
      ghost var traced := View();
      SettleTransactions(cmd);
      SettleKeepsRest(cfg, before, traced, cmd);
      ch.UpdateTimingAndStates(cmd, clk);
    }

    // ---- one cycle

    method FetchNext() returns (r: Option<Command>)
      requires Wired() && cq.Valid()
      modifies cq`queues, cq`idx, cq`lost
      ensures (r, View()) == Fetch(cfg, old(View()))
    {
      hide Queues.GetCommand, Sound;
      r := cq.GetCommandToIssue();
    }

    method ChooseCommand() returns (r: Option<Command>)
      requires Valid()
      modifies cq
      ensures (r, View()) == Choose(cfg, old(View()))
    {
      hide Inv, Sound, Fetch, Queues.FinishRefresh, IsRefreshRequest;
      ghost var s := View();
      QueuesUsable(cfg, tm, s);
      r := None;
      if ch.refreshQ != [] {
        r := cq.FinishRefresh();
        if r.None? {
          RefreshWaitKeepsInv(cfg, tm, s);
          QueuesUsable(cfg, tm, View());
        }
      }
      if r.None? {
        r := FetchNext();
      }
    }

    /** Issue the chosen command and, on devices that allow it, one more of the other kind. */
    method ServeCommands()
      requires Valid()
      modifies this, ch, cq
      ensures Valid() && View() == Serve(cfg, tm, old(View()))
    {
      hide Inv, Sound, SecondCommand, Choose, Control.IssueCommand;
      ghost var s := View();
      ServeKeepsInv(cfg, s);
      ChooseKeepsInv(cfg, s);
      ChosenInGeometry(cfg, s);
      var first := ChooseCommand();
      if first.Some? {
        IssueCommand(first.value);
        if cfg.DualCmd() {
          IssueSecond(first.value);
        }
      }
    }

    method IssueSecond(first: Command)
      requires Valid()
      modifies this`pendRd, this`pendWr, this`returnQ, this`missing, this`trace, ch, cq
      ensures View() == SecondCommand(cfg, tm, old(View()), first)
    {
      hide Inv, Sound, Fetch, Control.IssueCommand;
      ghost var s := View();
      QueuesUsable(cfg, tm, s);
      FetchedInGeometry(cfg, s);
      var second := FetchNext();
      if second.Some? && second.value.kind.IsReadWrite() != first.kind.IsReadWrite() {
        IssueCommand(second.value);
      }
    }

    /** Start draining writes when their buffer is full, or long and the command queues are empty. */
    method UpdateDraining()
      modifies this`draining
      ensures draining == DrainTarget(cfg, old(View()))
    {
      hide Queues.Empty;
      if draining == 0 && !cfg.unifiedQueue {
        var empty := cq.QueueEmpty();
        if |writeBuf| >= cfg.transQueueSize || (|writeBuf| > 8 && empty) {
          draining := |writeBuf|;
        }
      }
    }

    /** Turn the first transaction whose command queue has room into a queued command. */
    method ScheduleTransaction()
      requires Valid()
      modifies this`draining, this`unifiedQ, this`readQ, this`writeBuf, cq`queues
      ensures Valid() && View() == Schedule(cfg, old(View()))
    {
      hide Inv, Schedule, DrainTarget, QueuesOk, Config.Valid, IsRefreshRequest, Channel.WellShaped;
      ghost var s := View();
      QueuesUsable(cfg, tm, s);
      ScheduleKeepsInv(cfg, tm, s);
      UpdateDraining();
      ScheduleSelected(s);
    }

    /** The rest of scheduling, with the drain counter already brought up to date. */
    method ScheduleSelected(ghost s: State)
      requires cfg.Valid() && cq.cfg == cfg && QueuesOk(cfg, cq.queues)
      requires View() == s.(draining := draining) && draining == DrainTarget(cfg, s)
      modifies this`draining, this`unifiedQ, this`readQ, this`writeBuf, cq`queues
      ensures View() == Schedule(cfg, s)
    {
      hide HasAddr, MoveOne, Schedule, DrainTarget, FirstAccepted, Queues.QueueIndex, QueuesOk, Config.Valid;
      ScheduleIs(cfg, s);
      var q := if cfg.unifiedQueue then unifiedQ else if draining > 0 then writeBuf else readQ;
      var i := FindAccepted(q);
      if i < |q| {
        var blocked := false;
        if !cfg.unifiedQueue && q[i].isWrite {
          blocked := Contains(pendRd, q[i].addr);
        }
        if blocked {
          draining := 0;
        } else {
          CommandHasQueue(cfg, s.cq.queues, q[i]);
          MoveOneIs(cfg, s, draining, i);
          TakeTransaction(q, i, ToCommand(cfg, q[i]));
        }
      }
    }

    /** Position of the first transaction whose command queue has room. */
    method FindAccepted(q: seq<Transaction>) returns (i: nat)
      requires cfg.Valid() && cq.cfg == cfg && QueuesOk(cfg, cq.queues)
      ensures i == FirstAccepted(cfg, cq.View(), q, 0)
    {
      hide Queues.WillAccept, QueuesOk;
      i := 0;
      while i < |q|
        invariant 0 <= i <= |q|
        invariant FirstAccepted(cfg, cq.View(), q, 0) == FirstAccepted(cfg, cq.View(), q, i)
      {
        CommandHasQueue(cfg, cq.queues, q[i]);
        var room := cq.WillAcceptCommand(ToCommand(cfg, q[i]).Target());
        if room {
          return;
        }
        i := i + 1;
      }
    }

    method TakeTransaction(q: seq<Transaction>, i: nat, cmd: Command)
      requires i < |q| && q == Selected(cfg, DeskView(), draining) && cmd == ToCommand(cfg, q[i])
      requires cq.cfg == cfg && 0 <= Queues.QueueIndex(cfg, cmd.Target()) < |cq.queues|
      modifies this`draining, this`unifiedQ, this`readQ, this`writeBuf, cq`queues
      ensures View() == MoveOne(cfg, old(View()), old(draining), i)
    {
      hide Queues.Add;
      var ok := cq.AddCommand(cmd);
      var rest := q[..i] + q[i+1..];
      if cfg.unifiedQueue {
        unifiedQ := rest;
      } else if draining > 0 {
        writeBuf := rest;
      } else {
        readQ := rest;
      }
      if !cfg.unifiedQueue && q[i].isWrite {
        draining := draining - 1;
      }
    }

    /** The refresh scheduler's part of a cycle. */
    method RefreshTick()
      requires Valid()
      modifies rf, ch`refreshQ
      ensures cfg.ranks > 0 && cfg.RefreshInterval() > 0
      ensures Valid() && View() == RefreshStep(cfg, old(View()))
    {
      hide Inv, RefreshPlan.Tick, Config.RefreshInterval;
      RefreshStepKeepsInv(cfg, tm, View());
      rf.ClockTick();
    }

    /** One cycle of the controller is one `Tick` of the value model, and the invariant survives it. */
    method ClockTick()
      requires Valid()
      modifies this, ch, cq, rf
      ensures cfg.ranks > 0 && cfg.RefreshInterval() > 0
      ensures Valid() && View() == Tick(cfg, tm, old(View()))
    {
      hide Inv, Serve, Schedule, RefreshStep, Sound, Config.RefreshInterval;
      ghost var s := View();
      SoundIsUsable(cfg);
      TickKeepsInv(cfg, s);
      RefreshTick();
      ServeCommands();
      ScheduleTransaction();
      clk := clk + 1;
      cq.ClockTick();
    }
  }

  lemma SoundIsUsable(cfg: Config)
    requires Sound(cfg)
    ensures cfg.ranks > 0 && cfg.RefreshInterval() > 0
  {
  }

  lemma QueuesUsable(cfg: Config, tm: Table, s: State)
    requires Sound(cfg) && Inv(cfg, tm, s)
    ensures cfg.Valid() && Channel.WellShaped(cfg, s.ch) && QueuesOk(cfg, s.cq.queues) && s.cq.idx < |s.cq.queues|
    ensures forall id :: id in s.ch.banks ==> !s.ch.banks[id].mode.Sref?
    ensures s.ch.refreshQ != [] ==> IsRefreshRequest(cfg, s.ch.refreshQ[0])
  {
    InvFetchable(cfg, tm, s);
  }

  lemma CommandHasQueue(cfg: Config, queues: seq<seq<Command>>, t: Transaction)
    requires cfg.Valid() && QueuesOk(cfg, queues)
    ensures 0 <= Queues.QueueIndex(cfg, ToCommand(cfg, t).Target()) < |queues|
  {
    var id := ToCommand(cfg, t).Target();
    assert cfg.InRange(Command(Read, cfg.decode(t.addr), t.addr).Target());
    Queues.IndexInRange(cfg, id);
  }

  lemma ScheduleIs(cfg: Config, s: State)
    ensures var draining := DrainTarget(cfg, s);
      var q := Selected(cfg, s.desk, draining);
      var i := FirstAccepted(cfg, s.cq, q, 0);
      Schedule(cfg, s) ==
        if i == |q| then s.(draining := draining)
        else if !cfg.unifiedQueue && q[i].isWrite && HasAddr(s.desk.pendRd, q[i].addr) then s.(draining := 0)
        else MoveOne(cfg, s, draining, i)
  {
  }

  /** The move overwrites the drain counter. */
  lemma MoveOneIs(cfg: Config, s: State, draining: int, i: nat)
    requires i < |Selected(cfg, s.desk, draining)|
    ensures MoveOne(cfg, s.(draining := draining), draining, i) == MoveOne(cfg, s, draining, i)
  {
    hide Queues.Add;
  }

  /** A command fetched from the queues addresses banks that exist. */
  lemma FetchedInGeometry(cfg: Config, s: State)
    requires Sound(cfg) && Inv(cfg, MakeTable(cfg), s)
    ensures Fetch(cfg, s).0.Some? ==> InGeometry(cfg, Fetch(cfg, s).0.value)
    ensures Fetch(cfg, s).1.ch == s.ch
  {
    if Fetch(cfg, s).0.Some? {
      InvFetchable(cfg, MakeTable(cfg), s);
      var qi, j, e := FetchMeaning(cfg, s);
      QueueRequestReady(cfg, MakeTable(cfg), s, Fetch(cfg, s).0.value, Fetch(cfg, s).1, qi, j, e);
    }
  }

  lemma ChosenInGeometry(cfg: Config, s: State)
    requires Sound(cfg) && Inv(cfg, MakeTable(cfg), s)
    ensures Choose(cfg, s).0.Some? ==> InGeometry(cfg, Choose(cfg, s).0.value)
    ensures Choose(cfg, s).1.ch == s.ch && Channel.WellShaped(cfg, s.ch)
  {
    hide Fetch, Channel.ReadyCommand, DeskInv, WantedOk, TraceUseOk, Conserved, Queues.RefQueues;
    InvFetchable(cfg, MakeTable(cfg), s);
    if s.ch.refreshQ == [] {
      FetchedInGeometry(cfg, s);
    } else {
      var (cmd, cq) := Queues.FinishRefresh(cfg, s.ch, s.cq);
      assert IsRefreshRequest(cfg, s.ch.refreshQ[0]);
      if cmd.Some? {
        ReadyMeaning(cfg, s.ch, s.ch.refreshQ[0], s.clk, cmd.value);
      } else {
        RefreshWaitKeepsInv(cfg, MakeTable(cfg), s);
        FetchedInGeometry(cfg, s.(cq := cq));
      }
    }
  }

  // ---- facts used by the methods

  lemma AddChangesOnly(cfg: Config, s: State, addr: nat, isWrite: bool)
    ensures var t := AddTransaction(cfg, s, addr, isWrite);
      t == s.(desk := t.desk, ret := t.ret, accepted := t.accepted)
  {
    hide HasAddr, Enqueue;
  }

  /** Settling neither reads nor changes the trace and the channel. */
  lemma SettleKeepsRest(cfg: Config, s: State, s1: State, cmd: Command)
    requires s1 == s.(trace := s1.trace)
    ensures Settle(cfg, s1, cmd) == Settle(cfg, s, cmd).(trace := s1.trace)
    ensures Settle(cfg, s, cmd).ch == s.ch && Settle(cfg, s, cmd).clk == s.clk
  {
    hide With, Without, StampAll, HasAddr, RemoveFirst;
  }

  lemma {:induction false} NoneDone(ret: seq<Transaction>, now: nat, i: nat)
    requires i <= |ret|
    ensures FirstDone(ret, now, i) == |ret| ==> forall j :: i <= j < |ret| ==> now < ret[j].complete
    decreases |ret| - i
  {
    if i < |ret| && now < ret[i].complete {
      NoneDone(ret, now, i + 1);
    }
  }

  lemma DeliveryConserves(s: State, now: nat)
    ensures var s' := ReturnDone(s, now).1;
      Cores(s'.delivered) + Cores(s'.ret) == Cores(s.delivered) + Cores(s.ret)
  {
    hide Cores;
    var i := FirstDone(s.ret, now, 0);
    if i < |s.ret| {
      CoresRemove(s.ret, i);
      CoresAppend(s.delivered, [s.ret[i]]);
      CoresOne(s.ret[i]);
    }
  }

  lemma StampNone(q: seq<Transaction>, done: nat)
    ensures StampAll(q[..0], done) == []
  {
  }

  lemma StampNext(q: seq<Transaction>, n: nat, done: nat)
    requires n < |q|
    ensures StampAll(q[..n+1], done) == StampAll(q[..n], done) + [q[n].(complete := done)]
  {
  }

  lemma {:induction false} RemoveAnswered(q: seq<Transaction>, a: nat, i: nat)
    requires i < |q| && q[i].addr == a && forall j :: 0 <= j < i ==> q[j].addr != a
    ensures With(q, a) == [q[i]] + With(q[..i] + q[i+1..], a)
    ensures Without(q, a) == Without(q[..i] + q[i+1..], a)
    decreases i
  {
    if i == 0 {
      assert q[..i] + q[i+1..] == q[1..];
    } else {
      RemoveAnswered(q[1..], a, i - 1);
      assert (q[..i] + q[i+1..])[1..] == q[1..][..i-1] + q[1..][i..];
    }
  }

  lemma NoneOwed(q: seq<Transaction>, a: nat)
    requires With(q, a) == []
    ensures Without(q, a) == q
  {
    WithEmpty(q, a);
    forall i | 0 <= i < |q| ensures q[i].addr != a {
      assert q[i] in q;
    }
    AllKept(q, a);
  }
}
