/** Every operation of the controller keeps its invariant. */
module ControllerSteps {
  import opened Types
  import opened Timing
  import opened Trace
  import opened Control
  import opened Bookkeeping
  import opened DeskInvariant
  import opened ChannelRun
  import opened ControllerInvariant
  import Channel
  import Queues
  import RefreshPlan

  // ---- issuing from the queues

  /** A read with reads pending moves them, and only them, to the finished list. */
  lemma ReadSettles(cfg: Config, s: State, cmd: Command)
    requires cmd.kind.IsRead() && HasAddr(s.desk.pendRd, cmd.hex) && Conserved(s)
    ensures Settle(cfg, s, cmd) == s.(desk := Settled(s.desk, cmd.hex, false), ret := Settle(cfg, s, cmd).ret)
    ensures Conserved(Settle(cfg, s, cmd)) && CountAddr(s.desk.pendRd, cmd.hex) > 0
  {
    hide Cores, With, Without;
    var owed := With(s.desk.pendRd, cmd.hex);
    WithEmpty(s.desk.pendRd, cmd.hex);
    CoresSplit(s.desk.pendRd, cmd.hex);
    CoresStamp(owed, s.clk + cfg.ReadDelay());
    CoresAppend(s.ret, StampAll(owed, s.clk + cfg.ReadDelay()));
  }

  lemma WriteSettles(cfg: Config, s: State, cmd: Command)
    requires cmd.kind.IsWrite() && HasAddr(s.desk.pendWr, cmd.hex) && Distinct(s.desk.pendWr) && Conserved(s)
    ensures Settle(cfg, s, cmd) == s.(desk := Settled(s.desk, cmd.hex, true))
    ensures Conserved(Settle(cfg, s, cmd))
  {
    RemoveFirstMeaning(s.desk.pendWr, cmd.hex);
  }

  /** Issuing a queued access settles exactly the transactions that wait for it. */
  lemma AccessSettles(cfg: Config, s: State, s1: State, cmd: Command, qi: nat, j: nat, e: nat)
    requires DeskInv(cfg, s.cq.queues, s.desk) && !s.halted && Conserved(s)
    requires FetchedFrom(cfg, s, cmd, s1, qi, j, e) && cmd.kind.IsReadWrite()
    ensures var s2 := Settle(cfg, s1, cmd);
      s2 == s1.(desk := Settled(s.desk, cmd.hex, cmd.kind.IsWrite()), ret := s2.ret) && Conserved(s2)
    ensures cmd.kind.IsRead() <==> CountAddr(s.desk.pendRd, cmd.hex) > 0
  {
    QueuedIsPending(cfg, s.cq.queues, s.desk, qi, j);
    if cmd.kind.IsRead() {
      ReadSettles(cfg, s1, cmd);
    } else {
      WriteSettles(cfg, s1, cmd);
      WriteHasNoReads(cfg, s.cq.queues, s.desk, qi, j);
      WithEmpty(s.desk.pendRd, cmd.hex);
    }
  }

  lemma QueueRequestReady(cfg: Config, tm: Table, s: State, cmd: Command, s1: State, qi: nat, j: nat, e: nat)
    requires cfg.Valid() && Inv(cfg, tm, s) && FetchedFrom(cfg, s, cmd, s1, qi, j, e)
    ensures var req := s.cq.queues[qi][j];
      && IsQueued(cfg, req, qi) && IsRequest(cfg, req)
      && Channel.ReadyCommand(cfg, s.ch, req, s.clk) == Some(cmd)
      && cmd.addr == req.addr && cmd.hex == req.hex && !cmd.kind.IsRefresh() && InGeometry(cfg, cmd)
      && (cmd.kind.IsReadWrite() ==> s.ch.banks[cmd.Target()].mode.Open?)
  {
    var req := s.cq.queues[qi][j];
    assert IsQueued(cfg, req, qi);
    QueuedIsRequest(cfg, req, qi);
    InvFetchable(cfg, tm, s);
    ReadyMeaning(cfg, s.ch, req, s.clk, cmd);
    assert cmd.kind.IsReadWrite() ==> Channel.Targets(cfg, cmd, cmd.Target());
  }

  /** Channel, demand and trace after an access. */
  lemma AccessOnChannel(cfg: Config, tm: Table, s: State, s1: State, cmd: Command, qi: nat, j: nat, e: nat)
    requires cfg.Valid() && Inv(cfg, tm, s) && FetchedFrom(cfg, s, cmd, s1, qi, j, e) && cmd.kind.IsReadWrite()
    requires cmd.kind.IsRead() <==> CountAddr(s.desk.pendRd, cmd.hex) > 0
    ensures ChannelOk(cfg, tm, Channel.Issue(cfg, tm, s.ch, cmd, s.clk), s.trace + [Event(s, cmd)], s.clk)
    ensures WantedOk(cfg, Channel.Issue(cfg, tm, s.ch, cmd, s.clk), Removed(s.cq.queues, qi, e))
    ensures TraceUseOk(cfg, s.trace + [Event(s, cmd)])
    ensures Channel.RefreshQAfter(s.ch.refreshQ, cmd) == s.ch.refreshQ
  {
    QueueRequestReady(cfg, tm, s, cmd, s1, qi, j, e);
    IssueKeepsChannel(cfg, tm, s.ch, s.trace, s.clk, s.cq.queues[qi][j], Event(s, cmd));
    WantedAfterAccess(cfg, tm, s.ch, s.cq.queues, cmd, s.clk, qi, e);
    TraceUseExtends(cfg, s.trace, Event(s, cmd));
  }

  lemma AccessKeepsInv(cfg: Config, tm: Table, s: State, s1: State, cmd: Command, qi: nat, j: nat, e: nat)
    requires cfg.Valid() && Inv(cfg, tm, s) && FetchedFrom(cfg, s, cmd, s1, qi, j, e) && cmd.kind.IsReadWrite()
    ensures Inv(cfg, tm, IssueCommand(cfg, tm, s1, cmd))
  {
    AccessSettles(cfg, s, s1, cmd, qi, j, e);
    AccessOnChannel(cfg, tm, s, s1, cmd, qi, j, e);
    IssueKeepsDesk(cfg, s.cq.queues, s.desk, qi, e);
    var s2 := IssueCommand(cfg, tm, s1, cmd);
    assert s2.ch == Channel.Issue(cfg, tm, s.ch, cmd, s.clk) && s2.trace == s.trace + [Event(s, cmd)];
    assert s2.cq.queues == Removed(s.cq.queues, qi, e);
  }

  lemma RowCommandKeepsInv(cfg: Config, tm: Table, s: State, s1: State, cmd: Command, qi: nat, j: nat, e: nat)
    requires cfg.Valid() && Inv(cfg, tm, s) && FetchedFrom(cfg, s, cmd, s1, qi, j, e) && !cmd.kind.IsReadWrite()
    ensures Inv(cfg, tm, IssueCommand(cfg, tm, s1, cmd))
  {
    QueueRequestReady(cfg, tm, s, cmd, s1, qi, j, e);
    IssueKeepsChannel(cfg, tm, s.ch, s.trace, s.clk, s.cq.queues[qi][j], Event(s, cmd));
    WantedAfterRowCommand(cfg, tm, s.ch, s.cq.queues, cmd, s.clk, s.cq.queues[qi][j]);
    if cmd.kind.Precharge? {
      PrechargeIsDeserved(cfg, tm, s, qi, j, cmd);
    }
    TraceUseExtends(cfg, s.trace, Event(s, cmd));
  }

  lemma IssueFromQueue(cfg: Config, tm: Table, s: State)
    requires cfg.Valid() && Inv(cfg, tm, s) && Fetch(cfg, s).0.Some?
    ensures Inv(cfg, tm, IssueCommand(cfg, tm, Fetch(cfg, s).1, Fetch(cfg, s).0.value))
  {
    InvFetchable(cfg, tm, s);
    var qi, j, e := FetchMeaning(cfg, s);
    if Fetch(cfg, s).0.value.kind.IsReadWrite() {
      AccessKeepsInv(cfg, tm, s, Fetch(cfg, s).1, Fetch(cfg, s).0.value, qi, j, e);
    } else {
      RowCommandKeepsInv(cfg, tm, s, Fetch(cfg, s).1, Fetch(cfg, s).0.value, qi, j, e);
    }
  }

  /** A fetched command that is not an access leaves the queues as they were. */
  lemma FetchWithoutIssue(cfg: Config, tm: Table, s: State)
    requires cfg.Valid() && Inv(cfg, tm, s)
    requires Fetch(cfg, s).0.Some? ==> !Fetch(cfg, s).0.value.kind.IsReadWrite()
    ensures Inv(cfg, tm, Fetch(cfg, s).1)
  {
    InvFetchable(cfg, tm, s);
    if Fetch(cfg, s).0.Some? {
      var qi, j, e := FetchMeaning(cfg, s);
    } else {
      FetchNone(cfg, s);
    }
  }

  // ---- refresh

  /** What may be issued for a refresh request: the refresh itself or a precharge without a row. */
  lemma RefreshReady(cfg: Config, s: State, ref: Command, cmd: Command)
    requires Fetchable(cfg, s) && IsRefreshRequest(cfg, ref)
    requires Channel.ReadyCommand(cfg, s.ch, ref, s.clk) == Some(cmd)
    ensures cmd.kind.Precharge? || cmd == ref
    ensures cmd.addr.row == -1 && cmd.addr.rank == ref.addr.rank
  {
    ReadyMeaning(cfg, s.ch, ref, s.clk, cmd);
  }

  lemma RefreshOnChannel(cfg: Config, tm: Table, s: State, cmd: Command)
    requires cfg.Valid() && Inv(cfg, tm, s) && s.ch.refreshQ != []
    requires Channel.ReadyCommand(cfg, s.ch, s.ch.refreshQ[0], s.clk) == Some(cmd)
    ensures ChannelOk(cfg, tm, Channel.Issue(cfg, tm, s.ch, cmd, s.clk), s.trace + [Event(s, cmd)], s.clk)
    ensures WantedOk(cfg, Channel.Issue(cfg, tm, s.ch, cmd, s.clk), s.cq.queues)
    ensures TraceUseOk(cfg, s.trace + [Event(s, cmd)])
    ensures !cmd.kind.IsReadWrite() && (cmd.kind.Precharge? || cmd == s.ch.refreshQ[0])
  {
    hide ChannelOk, DeskInv, WantedOk, TraceUseOk, Conserved, Channel.ReadyCommand, Channel.Issue, Fetchable, CountAddr;
    var ref := s.ch.refreshQ[0];
    assert IsRefreshRequest(cfg, ref);
    assert !cmd.kind.IsReadWrite() && !cmd.kind.Activate? && cmd.addr.row == -1
      && (cmd.kind.Precharge? || cmd == ref) by {
      InvFetchable(cfg, tm, s);
      RefreshReady(cfg, s, ref, cmd);
    }
    IssueKeepsChannel(cfg, tm, s.ch, s.trace, s.clk, ref, Event(s, cmd));
    WantedAfterRowCommand(cfg, tm, s.ch, s.cq.queues, cmd, s.clk, ref);
    TraceUseExtends(cfg, s.trace, Event(s, cmd));
  }

  /** Issuing the refresh removes exactly the head of the refresh list. */
  lemma RefreshRemovesHead(q: seq<Command>, cmd: Command)
    requires q != [] && cmd.kind.IsRefresh() && cmd == q[0]
    ensures Channel.RefreshQAfter(q, cmd) == q[1..]
  {
  }

  lemma RefreshCommandKeepsInv(cfg: Config, tm: Table, s: State)
    requires cfg.Valid() && Inv(cfg, tm, s) && s.ch.refreshQ != []
    requires Queues.FinishRefresh(cfg, s.ch, s.cq).0.Some?
    ensures var (cmd, cq) := Queues.FinishRefresh(cfg, s.ch, s.cq);
      Inv(cfg, tm, IssueCommand(cfg, tm, s.(cq := cq), cmd.value))
  {
    hide ChannelOk, DeskInv, WantedOk, TraceUseOk, Cores, Channel.ReadyCommand, Queues.RefQueues, IsRefreshRequest;
    var (opt, cq) := Queues.FinishRefresh(cfg, s.ch, s.cq);
    var cmd := opt.value;
    RefreshOnChannel(cfg, tm, s, cmd);
    var s2 := IssueCommand(cfg, tm, s.(cq := cq), cmd);
    assert Event(s.(cq := cq), cmd) == Event(s, cmd);
    assert RefreshOk(cfg, s2.ch.refreshQ, cq, s.rf) by {
      assert {} + Queues.RefQueues(cfg, s.ch.refreshQ[0]) == Queues.RefQueues(cfg, s.ch.refreshQ[0]);
      if cmd.kind.IsRefresh() {
        RefreshRemovesHead(s.ch.refreshQ, cmd);
      }
    }
  }

  lemma RefreshWaitKeepsInv(cfg: Config, tm: Table, s: State)
    requires cfg.Valid() && Inv(cfg, tm, s) && s.ch.refreshQ != []
    requires Queues.FinishRefresh(cfg, s.ch, s.cq).0.None?
    ensures Inv(cfg, tm, s.(cq := Queues.FinishRefresh(cfg, s.ch, s.cq).1))
  {
    assert {} + Queues.RefQueues(cfg, s.ch.refreshQ[0]) == Queues.RefQueues(cfg, s.ch.refreshQ[0]);
  }

  lemma RequestIsValid(cfg: Config, rf: RefreshPlan.State)
    requires cfg.Valid() && RefreshPlan.InBounds(cfg, rf)
    ensures IsRefreshRequest(cfg, RefreshPlan.Request(cfg, rf))
    ensures RefreshPlan.InBounds(cfg, RefreshPlan.Advance(cfg, rf))
  {
  }

  lemma RefreshStepKeepsInv(cfg: Config, tm: Table, s: State)
    requires cfg.Valid() && Inv(cfg, tm, s)
    ensures Inv(cfg, tm, RefreshStep(cfg, s))
  {
    hide ChannelOk, DeskInv, TraceUseOk, Cores, RefreshPlan.Request, RefreshPlan.Advance, IsRefreshRequest;
    RequestIsValid(cfg, s.rf);
    var s' := RefreshStep(cfg, s);
    ChannelWaits(cfg, tm, s.ch, s.trace, s.clk, s.clk, s'.ch.refreshQ);
    assert s.cq.inRef ==> s'.ch.refreshQ[0] == s.ch.refreshQ[0];
  }

  // ---- scheduling and time

  lemma PushKeepsWanted(cfg: Config, ch: Channel.State, queues: seq<seq<Command>>, qi: nat, cmd: Command)
    requires WantedOk(cfg, ch, queues) && qi < |queues|
    ensures WantedOk(cfg, ch, Pushed(queues, qi, cmd))
  {
    forall id | id in ch.banks ensures BankWanted(cfg, Pushed(queues, qi, cmd), id, ch.banks[id]) {
      assert BankWanted(cfg, queues, id, ch.banks[id]);
      var p := Queues.QueueIndex(cfg, id);
      if ch.banks[id].mode.Open? && ch.banks[id].hits == 0 && p == qi {
        var c :| c in queues[qi] && c.Target() == id && c.addr.row == ch.banks[id].row;
        assert c in queues[qi] + [cmd];
      }
    }
  }

  lemma MoveKeepsInv(cfg: Config, tm: Table, s: State, draining: int, i: nat)
    requires cfg.Valid() && Inv(cfg, tm, s)
    requires i == FirstAccepted(cfg, s.cq, Selected(cfg, s.desk, draining), 0) < |Selected(cfg, s.desk, draining)|
    requires !cfg.unifiedQueue && Selected(cfg, s.desk, draining)[i].isWrite ==>
      !HasAddr(s.desk.pendRd, Selected(cfg, s.desk, draining)[i].addr)
    ensures Inv(cfg, tm, MoveOne(cfg, s, draining, i))
  {
    hide ChannelOk, DeskInv, WantedOk, TraceUseOk, Cores;
    var q := Selected(cfg, s.desk, draining);
    var cmd := ToCommand(cfg, q[i]);
    var qi := Queues.QueueIndex(cfg, cmd.Target());
    ScheduleKeepsDesk(cfg, s.cq, s.desk, draining, i, qi);
    PushKeepsWanted(cfg, s.ch, s.cq.queues, qi, cmd);
    assert Queues.Add(cfg, s.cq, cmd) == s.cq.(queues := Pushed(s.cq.queues, qi, cmd));
  }

  lemma DrainingIsFree(cfg: Config, tm: Table, s: State, draining: int)
    requires Inv(cfg, tm, s)
    ensures Inv(cfg, tm, s.(draining := draining))
  {
  }

  lemma ScheduleKeepsInv(cfg: Config, tm: Table, s: State)
    requires cfg.Valid() && Inv(cfg, tm, s)
    ensures Inv(cfg, tm, Schedule(cfg, s))
  {
    var draining := DrainTarget(cfg, s);
    var q := Selected(cfg, s.desk, draining);
    var i := FirstAccepted(cfg, s.cq, q, 0);
    if i < |q| && !(!cfg.unifiedQueue && q[i].isWrite && HasAddr(s.desk.pendRd, q[i].addr)) {
      MoveKeepsInv(cfg, tm, s, draining, i);
      assert Schedule(cfg, s) == MoveOne(cfg, s, draining, i);
    } else {
      DrainingIsFree(cfg, tm, s, Schedule(cfg, s).draining);
      assert Schedule(cfg, s) == s.(draining := Schedule(cfg, s).draining);
    }
  }

  lemma ClockKeepsInv(cfg: Config, tm: Table, s: State)
    requires Inv(cfg, tm, s)
    ensures Inv(cfg, tm, AdvanceClocks(s))
  {
    ChannelWaits(cfg, tm, s.ch, s.trace, s.clk, s.clk + 1, s.ch.refreshQ);
  }

  // ---- traffic with the outside

  lemma AddKeepsInv(cfg: Config, tm: Table, s: State, addr: nat, isWrite: bool)
    requires Inv(cfg, tm, s)
    ensures Inv(cfg, tm, AddTransaction(cfg, s, addr, isWrite))
  {
    hide ChannelOk, DeskInv, WantedOk, TraceUseOk, Cores, RefreshOk, HasAddr;
    var t := Transaction(addr, s.clk, 0, isWrite);
    var done := t.(complete := s.clk + 1);
    CoresAppend(s.accepted, [t]);
    CoresAppend(s.ret, [done]);
    CoresAppend(s.desk.pendRd, [t]);
    CoresOne(t);
    CoresOne(done);
    if isWrite {
      if !HasAddr(s.desk.pendWr, addr) {
        AcceptWrite(cfg, s.cq.queues, s.desk, t);
      }
    } else if !HasAddr(s.desk.pendWr, addr) {
      if HasAddr(s.desk.pendRd, addr) {
        AcceptMergedRead(cfg, s.cq.queues, s.desk, t);
      } else {
        AcceptRead(cfg, s.cq.queues, s.desk, t);
      }
    }
  }

  lemma ReturnKeepsInv(cfg: Config, tm: Table, s: State, clk: nat)
    requires Inv(cfg, tm, s)
    ensures Inv(cfg, tm, ReturnDone(s, clk).1)
  {
    hide ChannelOk, DeskInv, WantedOk, TraceUseOk, Cores, RefreshOk;
    var i := FirstDone(s.ret, clk, 0);
    if i < |s.ret| {
      CoresRemove(s.ret, i);
      CoresAppend(s.delivered, [s.ret[i]]);
      CoresOne(s.ret[i]);
    }
  }

  lemma InitialInv(cfg: Config, tm: Table)
    requires cfg.Valid()
    ensures Inv(cfg, tm, Initial(cfg))
  {
    InitialChannelOk(cfg, tm);
    var s := Initial(cfg);
    var id := Command(Read, cfg.decode(0), 0).Target();
    Queues.IndexInRange(cfg, id);
    forall a: nat, w: bool ensures Waiting(cfg, s.cq.queues, s.desk, a, w) == 0 && !Pending(s.desk, a, w) {
    }
  }
}
