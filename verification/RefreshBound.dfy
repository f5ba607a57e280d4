/** A pending rank refresh is issued by a deadline that can be read off the state. */
module RefreshBound {
  import opened Types
  import opened Timing
  import opened Trace
  import opened Control
  import opened ControllerInvariant
  import opened ControllerSteps
  import opened ControllerRuns
  import opened ChannelRun
  import opened DeskInvariant
  import Bank
  import Channel
  import Queues
  import RefreshPlan

  /** Least distance between two precharges of one rank. */
  function PrechargeGap(cfg: Config): nat {
    if NeedsPPD(cfg) then Max(1, cfg.tPPD) else 1
  }

  function OpenBanks(cfg: Config, ch: Channel.State, rank: int): set<BankId> {
    set id | id in ch.banks && id.rank == rank && ch.banks[id].mode.Open?
  }

  /** Cycles left to the preparation of a refresh with `open` banks to close. */
  function Preparation(cfg: Config, open: nat): nat {
    open * PrechargeGap(cfg) + cfg.tRP
  }

  /** The refresh of `rank` can be issued by cycle `t`. */
  ghost predicate Deadline(cfg: Config, ch: Channel.State, rank: int, clk: nat, t: nat) {
    var open := |OpenBanks(cfg, ch, rank)|;
    && clk <= t
    && (open > 0 ==> clk + Preparation(cfg, open) <= t)
    && (forall id :: id in ch.banks && id.rank == rank ==> BankBy(cfg, ch.banks[id], open, t))
  }

  /** The registers of one bank leave room for the preparation before cycle `t`. */
  predicate BankBy(cfg: Config, b: Bank.State, open: nat, t: nat) {
    b.at[Kind.Refresh] <= t && (b.mode.Open? ==> b.at[Precharge] + Preparation(cfg, open) <= t)
  }

  /** A deadline from any cycle `d` not before the clock and the registers of the rank. */
  lemma DeadlineFrom(cfg: Config, ch: Channel.State, rank: int, clk: nat, d: nat)
    requires clk <= d
    requires forall id :: id in ch.banks && id.rank == rank ==>
      ch.banks[id].at[Kind.Refresh] <= d && ch.banks[id].at[Precharge] <= d
    ensures Deadline(cfg, ch, rank, clk, d + Preparation(cfg, |OpenBanks(cfg, ch, rank)|))
  {
  }

  // ---- effect of one command on the rank

  /** A register that a spacing list does not mention keeps its value. */
  lemma Unlisted(at: Bank.Registers, lags: Lags, clk: nat, k: Kind)
    requires forall d :: (k, d) !in lags
    ensures Bank.RaiseAll(at, lags, clk)[k] == at[k]
  {
    Bank.RaiseAllIsMaximum(at, lags, clk, k);
  }

  lemma BankAfterRegisters(cfg: Config, tm: Table, b: Bank.State, id: BankId, cmd: Command, clk: nat)
    ensures Channel.BankAfter(cfg, tm, b, id, cmd, clk).at == Bank.RaiseAll(b.at, Applied(tm, cmd, id), clk)
  {
  }

  lemma ElsewhereLags(cfg: Config, k: Kind)
    ensures forall d :: (Precharge, d) !in OtherRanks(cfg, k)
    ensures forall d :: (Kind.Refresh, d) !in OtherRanks(cfg, k)
  {
  }

  lemma ElsewhereKeepsBank(cfg: Config, b: Bank.State, id: BankId, cmd: Command, clk: nat)
    requires cmd.addr.rank != id.rank && !cmd.kind.IsRankCmd()
    ensures var b' := Channel.BankAfter(cfg, MakeTable(cfg), b, id, cmd, clk);
      b'.mode == b.mode && b'.at[Precharge] == b.at[Precharge] && b'.at[Kind.Refresh] == b.at[Kind.Refresh]
  {
    BankAfterRegisters(cfg, MakeTable(cfg), b, id, cmd, clk);
    assert Applied(MakeTable(cfg), cmd, id) == OtherRanks(cfg, cmd.kind);
    ElsewhereLags(cfg, cmd.kind);
    Unlisted(b.at, OtherRanks(cfg, cmd.kind), clk, Precharge);
    Unlisted(b.at, OtherRanks(cfg, cmd.kind), clk, Kind.Refresh);
  }

  /** A command to another rank does not touch the deadline. */
  lemma ElsewhereKeepsDeadline(cfg: Config, ch: Channel.State, rank: int, now: nat, t: nat, cmd: Command, clk: nat)
    requires Deadline(cfg, ch, rank, now, t) && cmd.addr.rank != rank && !cmd.kind.IsRankCmd()
    ensures Deadline(cfg, Channel.Issue(cfg, MakeTable(cfg), ch, cmd, clk), rank, now, t)
  {
    hide Channel.BankAfter, Channel.AllAccept, Channel.WindowsAfter, Channel.RefreshQAfter, Preparation;
    var ch' := Channel.Issue(cfg, MakeTable(cfg), ch, cmd, clk);
    forall id | id in ch.banks && id.rank == rank
      ensures ch'.banks[id].mode == ch.banks[id].mode
      ensures ch'.banks[id].at[Precharge] == ch.banks[id].at[Precharge]
      ensures ch'.banks[id].at[Kind.Refresh] == ch.banks[id].at[Kind.Refresh]
    {
      ElsewhereKeepsBank(cfg, ch.banks[id], id, cmd, clk);
    }
    assert OpenBanks(cfg, ch', rank) == OpenBanks(cfg, ch, rank);
  }

  lemma PrechargeLags(cfg: Config, id: BankId, cmd: Command)
    requires cmd.kind.Precharge? && cmd.addr.rank == id.rank
    ensures forall d :: (Kind.Refresh, d) in Applied(MakeTable(cfg), cmd, id) ==> d <= cfg.tRP
    ensures id != cmd.Target() ==>
      forall d :: (Precharge, d) in Applied(MakeTable(cfg), cmd, id) ==> d <= PrechargeGap(cfg)
  {
  }

  /** How a precharge moves the registers that matter for the refresh. */
  lemma PrechargeOnBank(cfg: Config, b: Bank.State, id: BankId, cmd: Command, clk: nat)
    requires cmd.kind.Precharge? && cmd.addr.rank == id.rank
    ensures var b' := Channel.BankAfter(cfg, MakeTable(cfg), b, id, cmd, clk);
      && b'.at[Kind.Refresh] <= Max(b.at[Kind.Refresh], clk + cfg.tRP)
      && (id != cmd.Target() ==> b'.at[Precharge] <= Max(b.at[Precharge], clk + PrechargeGap(cfg)))
  {
    var lags := Applied(MakeTable(cfg), cmd, id);
    BankAfterRegisters(cfg, MakeTable(cfg), b, id, cmd, clk);
    PrechargeLags(cfg, id, cmd);
    Bank.RaiseAllIsMaximum(b.at, lags, clk, Kind.Refresh);
    Bank.RaiseAllIsMaximum(b.at, lags, clk, Precharge);
  }

  lemma PrechargeCloses(cfg: Config, b: Bank.State, id: BankId, cmd: Command, clk: nat)
    requires cmd.kind.Precharge? && cfg.InRange(id) && (id == cmd.Target() ==> b.mode.Open?)
    ensures Channel.BankAfter(cfg, MakeTable(cfg), b, id, cmd, clk).mode.Open? <==> b.mode.Open? && id != cmd.Target()
  {
    BankAfterShape(cfg, MakeTable(cfg), b, id, cmd, clk);
  }

  lemma PreparationStep(cfg: Config, open: nat)
    requires open > 0
    ensures Preparation(cfg, open) == Preparation(cfg, open - 1) + PrechargeGap(cfg) && PrechargeGap(cfg) >= 1
  {
  }

  lemma PrechargeOpenBanks(cfg: Config, ch: Channel.State, rank: int, clk: nat, cmd: Command)
    requires Channel.WellShaped(cfg, ch)
    requires cmd.kind.Precharge? && cmd.addr.rank == rank && cmd.Target() in OpenBanks(cfg, ch, rank)
    ensures OpenBanks(cfg, Channel.Issue(cfg, MakeTable(cfg), ch, cmd, clk), rank)
         == OpenBanks(cfg, ch, rank) - {cmd.Target()}
  {
    hide Channel.BankAfter, Channel.AllAccept, Channel.WindowsAfter, Channel.RefreshQAfter;
    var ch' := Channel.Issue(cfg, MakeTable(cfg), ch, cmd, clk);
    forall id: BankId ensures id in OpenBanks(cfg, ch', rank) <==> id in OpenBanks(cfg, ch, rank) - {cmd.Target()} {
      if id in ch.banks {
        PrechargeCloses(cfg, ch.banks[id], id, cmd, clk);
      }
    }
  }

  lemma PrechargeKeepsBankDeadline(cfg: Config, b: Bank.State, id: BankId, clk: nat, t: nat, cmd: Command, open: nat)
    requires cfg.InRange(id) && open > 0 && clk + Preparation(cfg, open) <= t && BankBy(cfg, b, open, t)
    requires cmd.kind.Precharge? && cmd.addr.rank == id.rank && (id == cmd.Target() ==> b.mode.Open?)
    ensures BankBy(cfg, Channel.BankAfter(cfg, MakeTable(cfg), b, id, cmd, clk), open - 1, t)
  {
    PrechargeOnBank(cfg, b, id, cmd, clk);
    PrechargeCloses(cfg, b, id, cmd, clk);
    PreparationStep(cfg, open);
    assert Preparation(cfg, open) >= cfg.tRP;
  }

  /** Precharging an open bank of the rank leaves one bank less to close and keeps the deadline. */
  lemma PrechargeKeepsDeadline(cfg: Config, ch: Channel.State, rank: int, clk: nat, t: nat, cmd: Command)
    requires Channel.WellShaped(cfg, ch) && Deadline(cfg, ch, rank, clk, t)
    requires cmd.kind.Precharge? && cmd.addr.rank == rank && cmd.Target() in OpenBanks(cfg, ch, rank)
    ensures var ch' := Channel.Issue(cfg, MakeTable(cfg), ch, cmd, clk);
      && |OpenBanks(cfg, ch', rank)| == |OpenBanks(cfg, ch, rank)| - 1
      && Deadline(cfg, ch', rank, clk + 1, t)
  {
    hide Channel.BankAfter, Channel.AllAccept, Channel.WindowsAfter, Channel.RefreshQAfter,
         Preparation, BankBy, PrechargeGap, Channel.WellShaped;
    var open := |OpenBanks(cfg, ch, rank)|;
    var ch' := Channel.Issue(cfg, MakeTable(cfg), ch, cmd, clk);
    PrechargeOpenBanks(cfg, ch, rank, clk, cmd);
    assert |OpenBanks(cfg, ch', rank)| == open - 1;
    PreparationStep(cfg, open);
    BanksStayInTime(cfg, ch, rank, clk, t, cmd, open);
  }

  lemma BanksStayInTime(cfg: Config, ch: Channel.State, rank: int, clk: nat, t: nat, cmd: Command, open: nat)
    requires Channel.WellShaped(cfg, ch) && open > 0 && clk + Preparation(cfg, open) <= t
    requires forall id :: id in ch.banks && id.rank == rank ==> BankBy(cfg, ch.banks[id], open, t)
    requires cmd.kind.Precharge? && cmd.addr.rank == rank && cmd.Target() in OpenBanks(cfg, ch, rank)
    ensures forall id :: id in ch.banks && id.rank == rank ==>
      BankBy(cfg, Channel.BankAfter(cfg, MakeTable(cfg), ch.banks[id], id, cmd, clk), open - 1, t)
  {
    hide Channel.BankAfter, Preparation, BankBy;
    forall id | id in ch.banks && id.rank == rank
      ensures BankBy(cfg, Channel.BankAfter(cfg, MakeTable(cfg), ch.banks[id], id, cmd, clk), open - 1, t)
    {
      PrechargeKeepsBankDeadline(cfg, ch.banks[id], id, clk, t, cmd, open);
    }
  }

  lemma NoOpenReady(cfg: Config, ch: Channel.State, clk: nat, ref: Command, id: BankId)
    requires Channel.WellShaped(cfg, ch) && id in OpenBanks(cfg, ch, ref.addr.rank)
    requires ref.kind == Kind.Refresh && Channel.ReadyCommand(cfg, ch, ref, clk).None?
    ensures ch.banks[id].at[Precharge] > clk
  {
    Channel.FirstToPrechargeMeaning(cfg, ch, ref.addr.rank, clk, 0, 0);
    assert !Channel.OpenAndReady(ch, id, clk);
  }

  lemma SomeRefreshLate(cfg: Config, ch: Channel.State, clk: nat, ref: Command) returns (id: BankId)
    requires Channel.WellShaped(cfg, ch) && OpenBanks(cfg, ch, ref.addr.rank) == {}
    requires forall x :: x in ch.banks ==> !ch.banks[x].mode.Sref?
    requires ref.kind == Kind.Refresh && Channel.ReadyCommand(cfg, ch, ref, clk).None?
    ensures id in ch.banks && id.rank == ref.addr.rank && ch.banks[id].at[Kind.Refresh] > clk
  {
    id :| Channel.InRank(cfg, ref.addr.rank, id) && id in ch.banks
          && Bank.ReadyCommand(ch.banks[id], ref, clk) != Some(ref);
    assert id !in OpenBanks(cfg, ch, ref.addr.rank);
  }

  /** If neither a precharge nor the refresh can be issued now, there is still time. */
  lemma WaitingKeepsDeadline(cfg: Config, ch: Channel.State, clk: nat, t: nat, ref: Command)
    requires Channel.WellShaped(cfg, ch) && Deadline(cfg, ch, ref.addr.rank, clk, t)
    requires forall id :: id in ch.banks ==> !ch.banks[id].mode.Sref?
    requires ref.kind == Kind.Refresh && Channel.ReadyCommand(cfg, ch, ref, clk).None?
    ensures Deadline(cfg, ch, ref.addr.rank, clk + 1, t)
  {
    var open := OpenBanks(cfg, ch, ref.addr.rank);
    hide Channel.ReadyCommand, Preparation;
    if open == {} {
      var id := SomeRefreshLate(cfg, ch, clk, ref);
    } else {
      var id :| id in open;
      NoOpenReady(cfg, ch, clk, ref, id);
    }
  }

  // ---- the controller while a refresh is prepared

  /** Since position `from`, the rank has only been precharged. */
  predicate OnlyPrecharged(tr: seq<Issued>, from: nat, to: nat, rank: int) {
    forall j :: from <= j < to && j < |tr| && tr[j].cmd.addr.rank == rank ==> tr[j].cmd.kind.Precharge?
  }

  ghost predicate Preparing(cfg: Config, s: State, from: nat, ref: Command, now: nat, t: nat) {
    && s.ch.refreshQ != [] && s.ch.refreshQ[0] == ref && ref.kind == Kind.Refresh
    && Deadline(cfg, s.ch, ref.addr.rank, now, t)
    && from <= |s.trace| && OnlyPrecharged(s.trace, from, |s.trace|, ref.addr.rank)
  }

  /** The refresh was issued by cycle `t`, after nothing but precharges of its rank. */
  predicate IssuedBy(s: State, from: nat, ref: Command, t: nat) {
    exists k :: from <= k < |s.trace| && s.trace[k].cmd == ref && s.trace[k].clk <= t
                && OnlyPrecharged(s.trace, from, k, ref.addr.rank)
  }

  lemma IssuedStays(s: State, s': State, from: nat, ref: Command, t: nat)
    requires IssuedBy(s, from, ref, t) && s.trace <= s'.trace
    ensures IssuedBy(s', from, ref, t)
  {
    var k :| from <= k < |s.trace| && s.trace[k].cmd == ref && s.trace[k].clk <= t
             && OnlyPrecharged(s.trace, from, k, ref.addr.rank);
    assert s'.trace[k] == s.trace[k];
    assert OnlyPrecharged(s'.trace, from, k, ref.addr.rank);
  }

  /** The queues held back are those that can hold commands of the rank. */
  lemma HeldBack(cfg: Config, ref: Command, id: BankId)
    requires ref.kind == Kind.Refresh && cfg.InRange(id)
    ensures Queues.QueueIndex(cfg, id) in Queues.RefQueues(cfg, ref) <==> id.rank == ref.addr.rank
  {
    Queues.IndexInRange(cfg, id);
  }

  /** While a rank is held back, the queues offer nothing for it. */
  lemma FetchedElsewhere(cfg: Config, tm: Table, s: State, cmd: Command, s1: State, qi: nat, j: nat, e: nat)
    requires cfg.Valid() && Inv(cfg, tm, s) && FetchedFrom(cfg, s, cmd, s1, qi, j, e)
    requires s.cq.inRef && s.ch.refreshQ[0].kind == Kind.Refresh
    ensures cmd.addr.rank != s.ch.refreshQ[0].addr.rank && !cmd.kind.IsRankCmd() && !cmd.kind.IsRefresh()
  {
    QueueRequestReady(cfg, tm, s, cmd, s1, qi, j, e);
    var ref := s.ch.refreshQ[0];
    assert s.cq.refIdx == Queues.RefQueues(cfg, ref) && qi !in s.cq.refIdx;
    if cmd.addr.rank == ref.addr.rank {
      HeldBack(cfg, ref, cmd.Target());
    }
  }

  lemma ElsewhereKeepsPreparing(cfg: Config, s: State, from: nat, ref: Command, now: nat, t: nat, cmd: Command)
    requires Preparing(cfg, s, from, ref, now, t)
    requires cmd.addr.rank != ref.addr.rank && !cmd.kind.IsRankCmd() && !cmd.kind.IsRefresh()
    ensures Preparing(cfg, IssueCommand(cfg, MakeTable(cfg), s, cmd), from, ref, now, t)
  {
    ElsewhereKeepsDeadline(cfg, s.ch, ref.addr.rank, now, t, cmd, s.clk);
    IssuedIsLast(cfg, MakeTable(cfg), s, cmd);
  }

  lemma FetchedKeepsPreparing(cfg: Config, s: State, s1: State, from: nat, ref: Command, now: nat, t: nat,
                              cmd: Command, qi: nat, j: nat, e: nat)
    requires Sound(cfg) && Inv(cfg, MakeTable(cfg), s) && s.cq.inRef && Preparing(cfg, s, from, ref, now, t)
    requires FetchedFrom(cfg, s, cmd, s1, qi, j, e)
    ensures Preparing(cfg, IssueCommand(cfg, MakeTable(cfg), s1, cmd), from, ref, now, t)
  {
    FetchedElsewhere(cfg, MakeTable(cfg), s, cmd, s1, qi, j, e);
    assert Preparing(cfg, s1, from, ref, now, t);
    ElsewhereKeepsPreparing(cfg, s1, from, ref, now, t, cmd);
  }

  lemma FetchKeepsRest(cfg: Config, s: State)
    ensures var s1 := Fetch(cfg, s).1; s1.ch == s.ch && s1.trace == s.trace && s1.clk == s.clk
    ensures s.cq.idx < |s.cq.queues| ==> Fetch(cfg, s).1.cq.inRef == s.cq.inRef
  {
    if s.cq.idx < |s.cq.queues| {
      Queues.PickMeaning(cfg, s.ch, s.cq, |s.cq.queues|);
    }
  }

  /** A turn of the queues during the preparation, whether or not the fetched command is issued. */
  lemma QueueTurnWhilePreparing(cfg: Config, s: State, from: nat, ref: Command, now: nat, t: nat)
    requires Sound(cfg) && Inv(cfg, MakeTable(cfg), s) && s.cq.inRef && Preparing(cfg, s, from, ref, now, t)
    ensures Preparing(cfg, Fetch(cfg, s).1, from, ref, now, t)
    ensures Fetch(cfg, s).0.Some? ==>
      Preparing(cfg, IssueCommand(cfg, MakeTable(cfg), Fetch(cfg, s).1, Fetch(cfg, s).0.value), from, ref, now, t)
  {
    FetchKeepsRest(cfg, s);
    if Fetch(cfg, s).0.Some? {
      InvFetchable(cfg, MakeTable(cfg), s);
      var qi, j, e := FetchMeaning(cfg, s);
      FetchedKeepsPreparing(cfg, s, Fetch(cfg, s).1, from, ref, now, t, Fetch(cfg, s).0.value, qi, j, e);
    }
  }

  lemma SecondWhilePreparing(cfg: Config, s: State, from: nat, ref: Command, now: nat, t: nat, first: Command)
    requires Sound(cfg) && Inv(cfg, MakeTable(cfg), s) && s.cq.inRef && Preparing(cfg, s, from, ref, now, t)
    ensures Preparing(cfg, SecondCommand(cfg, MakeTable(cfg), s, first), from, ref, now, t)
  {
    QueueTurnWhilePreparing(cfg, s, from, ref, now, t);
  }

  /** The command that serves a pending rank refresh. */
  lemma RefreshTurn(cfg: Config, s: State, from: nat, ref: Command, t: nat, cmd: Command)
    requires Sound(cfg) && Inv(cfg, MakeTable(cfg), s) && Preparing(cfg, s, from, ref, s.clk, t)
    requires Channel.ReadyCommand(cfg, s.ch, ref, s.clk) == Some(cmd)
    ensures cmd == ref || (cmd.kind.Precharge? && cmd.addr.rank == ref.addr.rank
                           && cmd.Target() in OpenBanks(cfg, s.ch, ref.addr.rank))
  {
    Channel.FirstToPrechargeMeaning(cfg, s.ch, ref.addr.rank, s.clk, 0, 0);
  }

  lemma PrechargeKeepsPreparing(cfg: Config, s: State, from: nat, ref: Command, t: nat, cmd: Command)
    requires Channel.WellShaped(cfg, s.ch) && Preparing(cfg, s, from, ref, s.clk, t)
    requires cmd.kind.Precharge? && cmd.addr.rank == ref.addr.rank
    requires cmd.Target() in OpenBanks(cfg, s.ch, ref.addr.rank)
    ensures Preparing(cfg, IssueCommand(cfg, MakeTable(cfg), s, cmd), from, ref, s.clk + 1, t)
  {
    hide Deadline, OpenBanks, Channel.BankAfter, Channel.AllAccept, Channel.WindowsAfter;
    PrechargeKeepsDeadline(cfg, s.ch, ref.addr.rank, s.clk, t, cmd);
    IssuedIsLast(cfg, MakeTable(cfg), s, cmd);
  }

  lemma RefreshIssuedNow(cfg: Config, s: State, from: nat, ref: Command, t: nat)
    requires Preparing(cfg, s, from, ref, s.clk, t)
    ensures IssuedBy(IssueCommand(cfg, MakeTable(cfg), s, ref), from, ref, t)
  {
    IssuedIsLast(cfg, MakeTable(cfg), s, ref);
    var s' := IssueCommand(cfg, MakeTable(cfg), s, ref);
    assert s'.trace[|s.trace|].cmd == ref;
    assert OnlyPrecharged(s'.trace, from, |s.trace|, ref.addr.rank);
  }

  // ---- traces only grow

  /** The trace has grown, by commands that are not older than the clock was. */
  predicate Later(s: State, s': State) {
    && s.trace <= s'.trace && s.clk <= s'.clk
    && forall k :: |s.trace| <= k < |s'.trace| ==> s'.trace[k].clk >= s.clk
  }

  lemma LaterStill(s: State, s': State, s'': State)
    requires Later(s, s') && Later(s', s'')
    ensures Later(s, s'')
  {
  }

  lemma IssuedLater(cfg: Config, tm: Table, s: State, cmd: Command)
    ensures Later(s, IssueCommand(cfg, tm, s, cmd))
  {
    IssuedIsLast(cfg, tm, s, cmd);
  }

  lemma SecondGrowsTrace(cfg: Config, tm: Table, s: State, first: Command)
    ensures Later(s, SecondCommand(cfg, tm, s, first))
  {
    hide IssueCommand, Fetch;
    FetchKeepsRest(cfg, s);
    var (cmd, s1) := Fetch(cfg, s);
    if cmd.Some? {
      IssuedLater(cfg, tm, s1, cmd.value);
    }
  }

  lemma ServeGrowsTrace(cfg: Config, tm: Table, s: State)
    ensures Later(s, Serve(cfg, tm, s))
  {
    var (cmd, s1) := Choose(cfg, s);
    assert s1.trace == s.trace && s1.clk == s.clk;
    hide Choose, IssueCommand, SecondCommand, Later;
    assert Later(s, s1) by { SameLater(s, s1); }
    if cmd.Some? {
      var s2 := IssueCommand(cfg, tm, s1, cmd.value);
      IssuedLater(cfg, tm, s1, cmd.value);
      SecondGrowsTrace(cfg, tm, s2, cmd.value);
      LaterStill(s, s1, s2);
      LaterStill(s, s2, SecondCommand(cfg, tm, s2, cmd.value));
    }
  }

  lemma SameLater(s: State, s': State)
    requires s'.trace == s.trace && s'.clk >= s.clk
    ensures Later(s, s')
  {
  }

  lemma StepGrowsTrace(cfg: Config, tm: Table, s: State, op: Op)
    requires cfg.ranks > 0 && cfg.RefreshInterval() > 0
    ensures Later(s, Step(cfg, tm, s, op))
  {
    hide Serve, RefreshPlan.Tick;
    if op.Cycle? {
      ServeGrowsTrace(cfg, tm, RefreshStep(cfg, s));
      ScheduleKeepsRest(cfg, Serve(cfg, tm, RefreshStep(cfg, s)));
    }
  }

  lemma {:induction false} RunGrowsTrace(cfg: Config, tm: Table, s: State, ops: seq<Op>)
    requires cfg.ranks > 0 && cfg.RefreshInterval() > 0
    ensures Later(s, Run(cfg, tm, s, ops))
    decreases |ops|
  {
    hide Later, Step;
    if ops == [] {
      SameLater(s, s);
    } else {
      var s1 := Run(cfg, tm, s, ops[..|ops|-1]);
      RunGrowsTrace(cfg, tm, s, ops[..|ops|-1]);
      StepGrowsTrace(cfg, tm, s1, ops[|ops|-1]);
      LaterStill(s, s1, Run(cfg, tm, s, ops));
    }
  }

  // ---- one cycle, one run

  lemma IssueKeepsQueues(cfg: Config, tm: Table, s: State, cmd: Command)
    ensures IssueCommand(cfg, tm, s, cmd).cq == s.cq && IssueCommand(cfg, tm, s, cmd).clk == s.clk
  {
  }

  /** Where a pending refresh stands: issued in time, or still in preparation at cycle `now`. */
  ghost predicate OnTrack(cfg: Config, s: State, from: nat, ref: Command, now: nat, t: nat) {
    IssuedBy(s, from, ref, t) || Preparing(cfg, s, from, ref, now, t)
  }

  lemma SecondAfterRefresh(cfg: Config, s: State, from: nat, ref: Command, t: nat)
    requires IssuedBy(s, from, ref, t)
    ensures IssuedBy(SecondCommand(cfg, MakeTable(cfg), s, ref), from, ref, t)
  {
    SecondGrowsTrace(cfg, MakeTable(cfg), s, ref);
    IssuedStays(s, SecondCommand(cfg, MakeTable(cfg), s, ref), from, ref, t);
  }

  /** What issuing the ready command of a pending refresh achieves. */
  lemma RefreshTurnOnTrack(cfg: Config, s: State, from: nat, ref: Command, t: nat, cmd: Command)
    requires Sound(cfg) && Inv(cfg, MakeTable(cfg), s) && Preparing(cfg, s, from, ref, s.clk, t)
    requires Channel.ReadyCommand(cfg, s.ch, ref, s.clk) == Some(cmd)
    ensures var s2 := IssueCommand(cfg, MakeTable(cfg), s.(cq := Queues.FinishRefresh(cfg, s.ch, s.cq).1), cmd);
      && Inv(cfg, MakeTable(cfg), s2)
      && (if cmd == ref then IssuedBy(s2, from, ref, t)
          else Preparing(cfg, s2, from, ref, s.clk + 1, t) && s2.cq.inRef)
  {
    hide Channel.ReadyCommand, Deadline, IssuedBy, OpenBanks, ChannelOk, DeskInv, WantedOk, TraceUseOk, Conserved,
         Queues.RefQueues, Channel.Issue;
    var s1 := s.(cq := Queues.FinishRefresh(cfg, s.ch, s.cq).1);
    InvFetchable(cfg, MakeTable(cfg), s);
    RefreshTurn(cfg, s, from, ref, t, cmd);
    RefreshCommandKeepsInv(cfg, MakeTable(cfg), s);
    IssueKeepsQueues(cfg, MakeTable(cfg), s1, cmd);
    assert Preparing(cfg, s1, from, ref, s1.clk, t);
    if cmd == ref {
      RefreshIssuedNow(cfg, s1, from, ref, t);
    } else {
      PrechargeKeepsPreparing(cfg, s1, from, ref, t, cmd);
    }
  }

  lemma ChoosesRefresh(cfg: Config, s: State, from: nat, ref: Command, t: nat)
    requires Inv(cfg, MakeTable(cfg), s) && Preparing(cfg, s, from, ref, s.clk, t)
    requires Channel.ReadyCommand(cfg, s.ch, ref, s.clk).Some?
    ensures s.ch.refreshQ != []
    ensures Choose(cfg, s) == (Channel.ReadyCommand(cfg, s.ch, ref, s.clk),
                               s.(cq := Queues.FinishRefresh(cfg, s.ch, s.cq).1))
  {
    hide ChannelOk, DeskInv, WantedOk, TraceUseOk, Conserved, Deadline, Channel.ReadyCommand, Queues.RefQueues;
  }

  lemma ServeChosen(cfg: Config, tm: Table, s: State, cmd: Command, s1: State)
    requires Choose(cfg, s) == (Some(cmd), s1)
    ensures var s2 := IssueCommand(cfg, tm, s1, cmd);
      Serve(cfg, tm, s) == if cfg.DualCmd() then SecondCommand(cfg, tm, s2, cmd) else s2
  {
    hide Choose, IssueCommand, SecondCommand;
  }

  lemma IntroduceOnTrack(cfg: Config, s: State, from: nat, ref: Command, now: nat, t: nat)
    ensures IssuedBy(s, from, ref, t) || Preparing(cfg, s, from, ref, now, t) ==> OnTrack(cfg, s, from, ref, now, t)
  {
    hide IssuedBy, Preparing;
  }

  /** The cycle in which the pending refresh gets its turn: a precharge of its rank, or the refresh. */
  lemma ServeRefresh(cfg: Config, s: State, from: nat, ref: Command, t: nat)
    requires Sound(cfg) && Inv(cfg, MakeTable(cfg), s) && Preparing(cfg, s, from, ref, s.clk, t)
    requires Channel.ReadyCommand(cfg, s.ch, ref, s.clk).Some?
    ensures OnTrack(cfg, Serve(cfg, MakeTable(cfg), s), from, ref, s.clk + 1, t)
  {
    hide *;
    var cmd := Channel.ReadyCommand(cfg, s.ch, ref, s.clk).value;
    ChoosesRefresh(cfg, s, from, ref, t);
    var s1 := s.(cq := Queues.FinishRefresh(cfg, s.ch, s.cq).1);
    var s2 := IssueCommand(cfg, MakeTable(cfg), s1, cmd);
    RefreshTurnOnTrack(cfg, s, from, ref, t, cmd);
    ServeChosen(cfg, MakeTable(cfg), s, cmd, s1);
    IntroduceOnTrack(cfg, Serve(cfg, MakeTable(cfg), s), from, ref, s.clk + 1, t);
    if cmd == ref {
      SecondAfterRefresh(cfg, s2, from, ref, t);
    } else {
      SecondWhilePreparing(cfg, s2, from, ref, s.clk + 1, t, cmd);
    }
  }

  lemma WaitKeepsPreparing(cfg: Config, s: State, from: nat, ref: Command, t: nat)
    requires Sound(cfg) && Inv(cfg, MakeTable(cfg), s) && Preparing(cfg, s, from, ref, s.clk, t)
    requires Channel.ReadyCommand(cfg, s.ch, ref, s.clk).None?
    ensures Preparing(cfg, s.(cq := Queues.FinishRefresh(cfg, s.ch, s.cq).1), from, ref, s.clk + 1, t)
  {
    NoSref(cfg, MakeTable(cfg), s.ch, s.trace, s.clk);
    WaitingKeepsDeadline(cfg, s.ch, s.clk, t, ref);
  }

  /** A cycle in which the refresh must wait serves another rank or nothing. */
  lemma ServeElsewhere(cfg: Config, s: State, from: nat, ref: Command, t: nat)
    requires Sound(cfg) && Inv(cfg, MakeTable(cfg), s) && Preparing(cfg, s, from, ref, s.clk, t)
    requires Channel.ReadyCommand(cfg, s.ch, ref, s.clk).None?
    ensures Preparing(cfg, Serve(cfg, MakeTable(cfg), s), from, ref, s.clk + 1, t)
  {
    var tm := MakeTable(cfg);
    var s1 := s.(cq := Queues.FinishRefresh(cfg, s.ch, s.cq).1);
    WaitKeepsPreparing(cfg, s, from, ref, t);
    RefreshWaitKeepsInv(cfg, tm, s);
    QueueTurnWhilePreparing(cfg, s1, from, ref, s.clk + 1, t);
    var (cmd, s2) := Fetch(cfg, s1);
    if cmd.Some? {
      IssueFromQueue(cfg, tm, s1);
      FetchKeepsRest(cfg, s1);
      IssueKeepsQueues(cfg, tm, s2, cmd.value);
      SecondWhilePreparing(cfg, IssueCommand(cfg, tm, s2, cmd.value), from, ref, s.clk + 1, t, cmd.value);
    }
  }

  lemma ScheduleKeepsRest(cfg: Config, s: State)
    ensures Schedule(cfg, s).ch == s.ch && Schedule(cfg, s).trace == s.trace && Schedule(cfg, s).clk == s.clk
  {
  }

  lemma RefreshStepKeepsPreparing(cfg: Config, s: State, from: nat, ref: Command, t: nat)
    requires cfg.Valid() && Preparing(cfg, s, from, ref, s.clk, t)
    ensures Preparing(cfg, RefreshStep(cfg, s), from, ref, s.clk, t)
  {
    assert OpenBanks(cfg, RefreshStep(cfg, s).ch, ref.addr.rank) == OpenBanks(cfg, s.ch, ref.addr.rank);
  }

  lemma SecondKeepsClock(cfg: Config, tm: Table, s: State, first: Command)
    ensures SecondCommand(cfg, tm, s, first).clk == s.clk
  {
    FetchKeepsRest(cfg, s);
    var (cmd, s1) := Fetch(cfg, s);
    if cmd.Some? {
      IssueKeepsQueues(cfg, tm, s1, cmd.value);
    }
  }

  lemma ServeKeepsClock(cfg: Config, tm: Table, s: State)
    ensures Serve(cfg, tm, s).clk == s.clk
  {
    var (cmd, s1) := Choose(cfg, s);
    assert s1.clk == s.clk;
    if cmd.Some? {
      IssueKeepsQueues(cfg, tm, s1, cmd.value);
      SecondKeepsClock(cfg, tm, IssueCommand(cfg, tm, s1, cmd.value), cmd.value);
    }
  }

  lemma ServeWhilePreparing(cfg: Config, s: State, from: nat, ref: Command, t: nat)
    requires Sound(cfg) && Inv(cfg, MakeTable(cfg), s) && Preparing(cfg, s, from, ref, s.clk, t)
    ensures OnTrack(cfg, Serve(cfg, MakeTable(cfg), s), from, ref, s.clk + 1, t)
  {
    if Channel.ReadyCommand(cfg, s.ch, ref, s.clk).Some? {
      ServeRefresh(cfg, s, from, ref, t);
    } else {
      ServeElsewhere(cfg, s, from, ref, t);
    }
  }

  lemma TickWhilePreparing(cfg: Config, s: State, from: nat, ref: Command, t: nat)
    requires Sound(cfg) && Inv(cfg, MakeTable(cfg), s) && Preparing(cfg, s, from, ref, s.clk, t)
    ensures OnTrack(cfg, Tick(cfg, MakeTable(cfg), s), from, ref, Tick(cfg, MakeTable(cfg), s).clk, t)
  {
    hide Serve, Schedule, Inv;
    var s1 := RefreshStep(cfg, s);
    RefreshStepKeepsPreparing(cfg, s, from, ref, t);
    RefreshStepKeepsInv(cfg, MakeTable(cfg), s);
    ServeWhilePreparing(cfg, s1, from, ref, t);
    ServeKeepsClock(cfg, MakeTable(cfg), s1);
    AfterServe(cfg, Serve(cfg, MakeTable(cfg), s1), from, ref, s.clk + 1, t);
  }

  lemma AfterServe(cfg: Config, s: State, from: nat, ref: Command, now: nat, t: nat)
    requires OnTrack(cfg, s, from, ref, now, t)
    ensures OnTrack(cfg, AdvanceClocks(Schedule(cfg, s)), from, ref, now, t)
    ensures AdvanceClocks(Schedule(cfg, s)).clk == s.clk + 1
  {
    ScheduleKeepsRest(cfg, s);
  }

  lemma TrafficKeepsRest(cfg: Config, tm: Table, s: State, op: Op)
    requires cfg.ranks > 0 && cfg.RefreshInterval() > 0 && !op.Cycle?
    ensures var s' := Step(cfg, tm, s, op); s'.ch == s.ch && s'.trace == s.trace && s'.clk == s.clk
  {
  }

  lemma StepWhilePreparing(cfg: Config, s: State, from: nat, ref: Command, t: nat, op: Op)
    requires Sound(cfg) && Inv(cfg, MakeTable(cfg), s) && Preparing(cfg, s, from, ref, s.clk, t)
    ensures OnTrack(cfg, Step(cfg, MakeTable(cfg), s, op), from, ref, Step(cfg, MakeTable(cfg), s, op).clk, t)
  {
    if op.Cycle? {
      TickWhilePreparing(cfg, s, from, ref, t);
    } else {
      TrafficKeepsRest(cfg, MakeTable(cfg), s, op);
    }
  }

  lemma {:induction false} RunOnTrack(cfg: Config, s: State, from: nat, ref: Command, t: nat, ops: seq<Op>)
    requires Sound(cfg) && Inv(cfg, MakeTable(cfg), s) && OnTrack(cfg, s, from, ref, s.clk, t)
    ensures OnTrack(cfg, Run(cfg, MakeTable(cfg), s, ops), from, ref, Run(cfg, MakeTable(cfg), s, ops).clk, t)
    decreases |ops|
  {
    hide Inv, IssuedBy, Preparing, Step, Config.RefreshInterval;
    if ops != [] {
      var before, op := ops[..|ops|-1], ops[|ops|-1];
      var s1 := Run(cfg, MakeTable(cfg), s, before);
      RunOnTrack(cfg, s, from, ref, t, before);
      RunKeepsInv(cfg, s, before);
      StepOnTrack(cfg, s1, from, ref, t, op);
    }
  }

  lemma StepOnTrack(cfg: Config, s: State, from: nat, ref: Command, t: nat, op: Op)
    requires Sound(cfg) && Inv(cfg, MakeTable(cfg), s) && OnTrack(cfg, s, from, ref, s.clk, t)
    ensures OnTrack(cfg, Step(cfg, MakeTable(cfg), s, op), from, ref, Step(cfg, MakeTable(cfg), s, op).clk, t)
  {
    hide Inv, IssuedBy, Preparing, Step;
    StepGrowsTrace(cfg, MakeTable(cfg), s, op);
    if IssuedBy(s, from, ref, t) {
      IssuedStays(s, Step(cfg, MakeTable(cfg), s, op), from, ref, t);
    } else {
      StepWhilePreparing(cfg, s, from, ref, t, op);
    }
  }

  /** Bounded refresh: let `d` be any cycle not before the clock and the precharge and refresh registers of
      the rank.  Whatever else happens, once the clock has passed `d` plus one precharge gap per open bank
      plus tRP, the refresh has been issued, and until then its rank saw nothing but precharges. */
  lemma RefreshIsBounded(cfg: Config, s: State, d: nat, ops: seq<Op>)
    requires Sound(cfg) && Inv(cfg, MakeTable(cfg), s)
    requires s.ch.refreshQ != [] && s.ch.refreshQ[0].kind == Kind.Refresh && s.clk <= d
    requires forall id :: id in s.ch.banks && id.rank == s.ch.refreshQ[0].addr.rank ==>
      s.ch.banks[id].at[Kind.Refresh] <= d && s.ch.banks[id].at[Precharge] <= d
    ensures var ref := s.ch.refreshQ[0];
      var t := d + Preparation(cfg, |OpenBanks(cfg, s.ch, ref.addr.rank)|);
      var s' := Run(cfg, MakeTable(cfg), s, ops);
      s'.clk > t ==> IssuedBy(s', |s.trace|, ref, t)
  {
    hide *;
    var ref := s.ch.refreshQ[0];
    DeadlineFrom(cfg, s.ch, ref.addr.rank, s.clk, d);
    BoundedBy(cfg, s, d + Preparation(cfg, |OpenBanks(cfg, s.ch, ref.addr.rank)|), ops);
  }

  lemma BoundedBy(cfg: Config, s: State, t: nat, ops: seq<Op>)
    requires Sound(cfg) && Inv(cfg, MakeTable(cfg), s)
    requires s.ch.refreshQ != [] && s.ch.refreshQ[0].kind == Kind.Refresh
    requires Deadline(cfg, s.ch, s.ch.refreshQ[0].addr.rank, s.clk, t)
    ensures var s' := Run(cfg, MakeTable(cfg), s, ops);
      s'.clk > t ==> IssuedBy(s', |s.trace|, s.ch.refreshQ[0], t)
  {
    RunOnTrack(cfg, s, |s.trace|, s.ch.refreshQ[0], t, ops);
  }
}
