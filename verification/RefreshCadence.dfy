/** Scheduler and service together: when refreshes are issued on a run, not only when they are requested. */
module RefreshCadence {
  import opened Types
  import opened Timing
  import opened Digits
  import opened Trace
  import opened Control
  import opened ControllerInvariant
  import opened ControllerSteps
  import opened ControllerRuns
  import opened ChannelRun
  import opened RefreshBound
  import Channel
  import Queues
  import RefreshPlan
  import RunTheorems

  // ---- the worst deadline

  /** How far a command can push the precharge and refresh registers of a bank ahead of the clock. */
  function Reach(cfg: Config): nat {
    Max(Max(ReadToActivate(cfg), WriteToActivate(cfg)), Max(Max(cfg.tRAS, cfg.tPPD), cfg.tRFC))
  }

  /** Cycles from the request of a rank refresh to its issue, at most. */
  function WorstCase(cfg: Config): nat {
    Reach(cfg) + Preparation(cfg, cfg.Banks())
  }

  lemma ReachBounds(cfg: Config, cmd: Command, id: BankId, k: Kind, d: int)
    requires (k, d) in Applied(MakeTable(cfg), cmd, id) && (k.Precharge? || k == Kind.Refresh)
    requires !cmd.kind.SrefEnter? && !cmd.kind.SrefExit?
    ensures d <= Reach(cfg)
  {
  }

  lemma HistoryBound(cfg: Config, tr: seq<Issued>, now: nat, id: BankId, k: Kind, at: nat)
    requires TraceOk(cfg, MakeTable(cfg), tr) && (forall i :: 0 <= i < |tr| ==> tr[i].clk <= now)
    requires LatestConstraint(MakeTable(cfg), tr, id, k, at) && (k.Precharge? || k == Kind.Refresh)
    ensures at <= now + Reach(cfg)
  {
    hide Applied, MakeTable, Reach, FollowsProtocol, KeepsWindows, Spaced;
    if at > 0 {
      var i, d :| 0 <= i < |tr| && (k, d) in Applied(MakeTable(cfg), tr[i].cmd, id) && at == tr[i].clk + d;
      assert EventOk(cfg, MakeTable(cfg), tr, i);
      ReachBounds(cfg, tr[i].cmd, id, k, d);
    }
  }

  lemma RegisterBound(cfg: Config, s: State, id: BankId, k: Kind)
    requires Inv(cfg, MakeTable(cfg), s) && id in s.ch.banks && (k.Precharge? || k == Kind.Refresh)
    ensures s.ch.banks[id].at[k] <= s.clk + Reach(cfg)
  {
    hide MakeTable, Reach, TraceOk, WantedOk, TraceUseOk, Conserved, RefreshOk, LatestConstraint;
    assert RegistersOk(MakeTable(cfg), s.ch.banks[id], s.trace, id);
    HistoryBound(cfg, s.trace, s.clk, id, k, s.ch.banks[id].at[k]);
  }

  // ---- how many banks a rank can have open

  function GroupBanks(rank: int, g: int, n: nat): set<BankId> {
    if n == 0 then {} else GroupBanks(rank, g, n - 1) + {BankId(rank, g, n - 1)}
  }

  function RankBanks(rank: int, groups: nat, n: nat): set<BankId> {
    if groups == 0 then {} else RankBanks(rank, groups - 1, n) + GroupBanks(rank, groups - 1, n)
  }

  lemma {:induction false} GroupSize(rank: int, g: int, n: nat)
    ensures |GroupBanks(rank, g, n)| == n
    ensures forall id :: id in GroupBanks(rank, g, n) <==> id.rank == rank && id.bankgroup == g && 0 <= id.bank < n
  {
    if n > 0 {
      GroupSize(rank, g, n - 1);
    }
  }

  predicate InGrid(rank: int, groups: nat, n: nat, id: BankId) {
    id.rank == rank && 0 <= id.bankgroup < groups && 0 <= id.bank < n
  }

  lemma {:induction false} RankMembers(rank: int, groups: nat, n: nat)
    ensures forall id :: id in RankBanks(rank, groups, n) <==> InGrid(rank, groups, n, id)
  {
    if groups > 0 {
      RankMembers(rank, groups - 1, n);
      GroupSize(rank, groups - 1, n);
      hide GroupBanks;
    }
  }

  lemma RankNext(rank: int, groups: nat, n: nat)
    ensures RankBanks(rank, groups, n)
      == if groups == 0 then {} else RankBanks(rank, groups - 1, n) + GroupBanks(rank, groups - 1, n)
  {
  }

  lemma GroupApart(rank: int, groups: nat, n: nat)
    ensures forall id :: id in RankBanks(rank, groups, n) ==> id !in GroupBanks(rank, groups, n)
  {
    RankMembers(rank, groups, n);
    GroupSize(rank, groups, n);
    hide RankBanks, GroupBanks;
  }

  lemma {:induction false} RankSize(rank: int, groups: nat, n: nat)
    ensures |RankBanks(rank, groups, n)| == groups * n
  {
    hide *;
    RankNext(rank, groups, n);
    if groups > 0 {
      RankSize(rank, groups - 1, n);
      GroupSize(rank, groups - 1, n);
      GroupApart(rank, groups - 1, n);
      Disjoint(RankBanks(rank, groups - 1, n), GroupBanks(rank, groups - 1, n));
      MulSucc(n, groups - 1);
    }
  }

  lemma Disjoint(a: set<BankId>, b: set<BankId>)
    requires forall id :: id in a ==> id !in b
    ensures |a + b| == |a| + |b|
  {
    assert a !! b;
  }

  lemma SubsetSize(a: set<BankId>, b: set<BankId>)
    requires a <= b
    ensures |a| <= |b|
  {
    assert b == a + (b - a);
  }

  lemma OpenAtMost(cfg: Config, ch: Channel.State, rank: int)
    requires Channel.WellShaped(cfg, ch)
    ensures |OpenBanks(cfg, ch, rank)| <= cfg.Banks()
  {
    RankSize(rank, cfg.bankgroups, cfg.banksPerGroup);
    RankMembers(rank, cfg.bankgroups, cfg.banksPerGroup);
    hide RankBanks;
    SubsetSize(OpenBanks(cfg, ch, rank), RankBanks(rank, cfg.bankgroups, cfg.banksPerGroup));
  }

  lemma LaterDeadline(cfg: Config, ch: Channel.State, rank: int, clk: nat, t: nat, t': nat)
    requires Deadline(cfg, ch, rank, clk, t) && t <= t'
    ensures Deadline(cfg, ch, rank, clk, t')
  {
    hide OpenBanks;
  }

  /** Whatever the state, a refresh requested now can be issued within the worst case. */
  lemma RequestDeadline(cfg: Config, s: State, rank: int)
    requires Inv(cfg, MakeTable(cfg), s)
    ensures Deadline(cfg, s.ch, rank, s.clk, s.clk + WorstCase(cfg))
  {
    hide Reach, Deadline, OpenBanks;
    hide TraceOk, WantedOk, TraceUseOk, Conserved, RefreshOk, RegistersOk, MachineOk, WindowsOk;
    var d := s.clk + Reach(cfg);
    forall id | id in s.ch.banks && id.rank == rank
      ensures s.ch.banks[id].at[Kind.Refresh] <= d && s.ch.banks[id].at[Precharge] <= d
    {
      RegisterBound(cfg, s, id, Kind.Refresh);
      RegisterBound(cfg, s, id, Precharge);
    }
    DeadlineFrom(cfg, s.ch, rank, s.clk, d);
    OpenAtMost(cfg, s.ch, rank);
    var open := |OpenBanks(cfg, s.ch, rank)|;
    MulMono(PrechargeGap(cfg), open, cfg.Banks());
    hide Inv;
    LaterDeadline(cfg, s.ch, rank, s.clk, d + Preparation(cfg, open), s.clk + WorstCase(cfg));
  }

  // ---- the refresh list through one cycle

  lemma IssueKeepsList(cfg: Config, tm: Table, s: State, cmd: Command)
    requires !cmd.kind.IsRefresh()
    ensures IssueCommand(cfg, tm, s, cmd).ch.refreshQ == s.ch.refreshQ
  {
  }

  /** The queues never hold a refresh, so their turn leaves the list alone. */
  lemma QueueTurnKeepsList(cfg: Config, s: State)
    requires cfg.Valid() && Inv(cfg, MakeTable(cfg), s)
    ensures var (cmd, s1) := Fetch(cfg, s);
      && s1.ch.refreshQ == s.ch.refreshQ
      && (cmd.Some? ==> IssueCommand(cfg, MakeTable(cfg), s1, cmd.value).ch.refreshQ == s.ch.refreshQ)
  {
    FetchKeepsRest(cfg, s);
    var (cmd, s1) := Fetch(cfg, s);
    if cmd.Some? {
      InvFetchable(cfg, MakeTable(cfg), s);
      var qi, j, e := FetchMeaning(cfg, s);
      QueueRequestReady(cfg, MakeTable(cfg), s, cmd.value, s1, qi, j, e);
      IssueKeepsList(cfg, MakeTable(cfg), s1, cmd.value);
    }
  }

  lemma SecondKeepsList(cfg: Config, s: State, first: Command)
    requires cfg.Valid() && Inv(cfg, MakeTable(cfg), s)
    ensures SecondCommand(cfg, MakeTable(cfg), s, first).ch.refreshQ == s.ch.refreshQ
  {
    hide Inv, Fetch, IssueCommand, Config.Valid;
    QueueTurnKeepsList(cfg, s);
  }

  lemma ServeWithoutRequest(cfg: Config, s: State)
    requires Sound(cfg) && Inv(cfg, MakeTable(cfg), s) && s.ch.refreshQ == []
    ensures Serve(cfg, MakeTable(cfg), s).ch.refreshQ == []
  {
    hide Inv, Fetch, IssueCommand, SecondCommand;
    QueueTurnKeepsList(cfg, s);
    var (cmd, s1) := Fetch(cfg, s);
    if cmd.Some? {
      IssueFromQueue(cfg, MakeTable(cfg), s);
      SecondKeepsList(cfg, IssueCommand(cfg, MakeTable(cfg), s1, cmd.value), cmd.value);
    }
  }

  /** Where a single pending request stands after the service of a cycle. */
  ghost predicate ServedOrPreparing(cfg: Config, s: State, from: nat, ref: Command, now: nat, t: nat) {
    || (s.ch.refreshQ == [] && IssuedBy(s, from, ref, t))
    || (s.ch.refreshQ == [ref] && Preparing(cfg, s, from, ref, now, t))
  }

  lemma RefreshEmptiesList(cfg: Config, tm: Table, s: State, ref: Command)
    requires s.ch.refreshQ == [ref] && ref.kind == Kind.Refresh
    ensures IssueCommand(cfg, tm, s, ref).ch.refreshQ == []
  {
    RefreshRemovesHead(s.ch.refreshQ, ref);
  }

  lemma ReadyRequest(cfg: Config, s: State, from: nat, ref: Command, t: nat)
    requires Sound(cfg) && Inv(cfg, MakeTable(cfg), s) && Preparing(cfg, s, from, ref, s.clk, t) && s.ch.refreshQ == [ref]
    requires Channel.ReadyCommand(cfg, s.ch, ref, s.clk).Some?
    ensures ServedOrPreparing(cfg, Serve(cfg, MakeTable(cfg), s), from, ref, s.clk + 1, t)
  {
    hide Inv, Channel.ReadyCommand, IssuedBy, Preparing, Deadline, OnTrack, Serve, SecondCommand, IssueCommand, Queues.FinishRefresh;
    var cmd := Channel.ReadyCommand(cfg, s.ch, ref, s.clk).value;
    ChoosesRefresh(cfg, s, from, ref, t);
    var s1 := s.(cq := Queues.FinishRefresh(cfg, s.ch, s.cq).1);
    var s2 := IssueCommand(cfg, MakeTable(cfg), s1, cmd);
    RefreshTurnOnTrack(cfg, s, from, ref, t, cmd);
    RefreshTurn(cfg, s, from, ref, t, cmd);
    ServeChosen(cfg, MakeTable(cfg), s, cmd, s1);
    SecondKeepsList(cfg, s2, cmd);
    PreparingIsRefresh(cfg, s, from, ref, s.clk, t);
    if cmd == ref {
      RefreshEmptiesList(cfg, MakeTable(cfg), s1, ref);
      SecondAfterRefresh(cfg, s2, from, ref, t);
    } else {
      IssueKeepsList(cfg, MakeTable(cfg), s1, cmd);
      SecondWhilePreparing(cfg, s2, from, ref, s.clk + 1, t, cmd);
    }
  }

  lemma PreparingIsRefresh(cfg: Config, s: State, from: nat, ref: Command, now: nat, t: nat)
    requires Preparing(cfg, s, from, ref, now, t)
    ensures ref.kind == Kind.Refresh && now <= t
  {
  }

  lemma NothingToFinish(cfg: Config, s: State, ref: Command)
    requires Inv(cfg, MakeTable(cfg), s) && s.ch.refreshQ == [ref] && Channel.ReadyCommand(cfg, s.ch, ref, s.clk).None?
    ensures Queues.FinishRefresh(cfg, s.ch, s.cq).0.None?
  {
    hide ChannelOk, WantedOk, TraceUseOk, Conserved, Channel.ReadyCommand, Queues.RefQueues;
  }

  lemma WaitingRequest(cfg: Config, s: State, from: nat, ref: Command, t: nat)
    requires Sound(cfg) && Inv(cfg, MakeTable(cfg), s) && Preparing(cfg, s, from, ref, s.clk, t) && s.ch.refreshQ == [ref]
    requires Channel.ReadyCommand(cfg, s.ch, ref, s.clk).None?
    ensures ServedOrPreparing(cfg, Serve(cfg, MakeTable(cfg), s), from, ref, s.clk + 1, t)
  {
    hide Inv, Channel.ReadyCommand, Preparing, IssuedBy, Fetch, IssueCommand, SecondCommand;
    ServeElsewhere(cfg, s, from, ref, t);
    var s1 := s.(cq := Queues.FinishRefresh(cfg, s.ch, s.cq).1);
    NothingToFinish(cfg, s, ref);
    RefreshWaitKeepsInv(cfg, MakeTable(cfg), s);
    QueueTurnKeepsList(cfg, s1);
    var (cmd, s2) := Fetch(cfg, s1);
    if cmd.Some? {
      IssueFromQueue(cfg, MakeTable(cfg), s1);
      SecondKeepsList(cfg, IssueCommand(cfg, MakeTable(cfg), s2, cmd.value), cmd.value);
    }
  }

  lemma ServeOneRequest(cfg: Config, s: State, from: nat, ref: Command, t: nat)
    requires Sound(cfg) && Inv(cfg, MakeTable(cfg), s) && Preparing(cfg, s, from, ref, s.clk, t) && s.ch.refreshQ == [ref]
    ensures ServedOrPreparing(cfg, Serve(cfg, MakeTable(cfg), s), from, ref, s.clk + 1, t)
  {
    hide Inv, Preparing, Serve, ServedOrPreparing, Channel.ReadyCommand;
    if Channel.ReadyCommand(cfg, s.ch, ref, s.clk).Some? {
      ReadyRequest(cfg, s, from, ref, t);
    } else {
      WaitingRequest(cfg, s, from, ref, t);
    }
  }

  // ---- the refresh list through a run

  /** The cycle of the last insertion before the current one. */
  function LastInsertion(cfg: Config, clk: nat): nat
    requires cfg.ranks > 0 && cfg.RefreshInterval() > 0
  {
    if clk == 0 then 0 else cfg.RefreshInterval() * ((clk - 1) / cfg.RefreshInterval())
  }

  predicate RankPolicy(cfg: Config) {
    !cfg.refreshPolicy.BankStaggered?
  }

  /** At most one request waits, and it is due within the worst case after its insertion. */
  ghost predicate OneRequest(cfg: Config, s: State)
    requires cfg.ranks > 0 && cfg.RefreshInterval() > 0
  {
    && s.rf.clk == s.clk && |s.ch.refreshQ| <= 1
    && (s.ch.refreshQ != [] ==>
          s.clk > 0 && Preparing(cfg, s, |s.trace|, s.ch.refreshQ[0], s.clk, LastInsertion(cfg, s.clk) + WorstCase(cfg)))
  }

  lemma LastInsertionNext(cfg: Config, clk: nat)
    requires cfg.ranks > 0 && cfg.RefreshInterval() > 0 && clk > 0
    ensures clk % cfg.RefreshInterval() == 0 ==>
      LastInsertion(cfg, clk + 1) == clk && LastInsertion(cfg, clk) + cfg.RefreshInterval() == clk
    ensures clk % cfg.RefreshInterval() != 0 ==> LastInsertion(cfg, clk + 1) == LastInsertion(cfg, clk)
  {
    hide Config.RefreshInterval;
    var i := cfg.RefreshInterval();
    SuccDivMod(clk - 1, i);
    Recompose(clk, i);
    MulSucc(i, (clk - 1) / i);
  }

  lemma Repeated(cfg: Config, s: State, from: nat, ref: Command, now: nat, t: nat)
    requires Preparing(cfg, s, from, ref, now, t)
    ensures Preparing(cfg, s, |s.trace|, ref, now, t)
  {
    hide Deadline;
  }

  lemma SameChannelPreparing(cfg: Config, s: State, s': State, from: nat, ref: Command, now: nat, t: nat)
    requires Preparing(cfg, s, from, ref, now, t) && s'.ch == s.ch && s'.trace == s.trace
    ensures Preparing(cfg, s', from, ref, now, t)
  {
    hide Deadline;
  }

  /** The rest of a cycle neither adds nor removes requests. */
  lemma EndOfCycleList(cfg: Config, tm: Table, s: State)
    requires cfg.ranks > 0 && cfg.RefreshInterval() > 0
    ensures var s1 := Serve(cfg, tm, RefreshStep(cfg, s)); var s' := Tick(cfg, tm, s);
      s'.ch == s1.ch && s'.trace == s1.trace && s'.clk == s.clk + 1 && s'.rf.clk == s.rf.clk + 1
  {
    hide Serve, RefreshPlan.Advance, RefreshPlan.Request, RefreshPlan.Due, Config.RefreshInterval;
    var s1 := Serve(cfg, tm, RefreshStep(cfg, s));
    ScheduleKeepsRest(cfg, s1);
    RunTheorems.TickFollowsPlan(cfg, tm, s);
  }

  lemma RefreshStepList(cfg: Config, s: State)
    requires cfg.ranks > 0 && cfg.RefreshInterval() > 0
    ensures var s1 := RefreshStep(cfg, s);
      && s1.trace == s.trace && s1.clk == s.clk && s1.ch == s.ch.(refreshQ := s1.ch.refreshQ)
      && s1.ch.refreshQ == s.ch.refreshQ + (if RefreshPlan.Due(cfg, s.rf) then [RefreshPlan.Request(cfg, s.rf)] else [])
  {
    hide RefreshPlan.Advance, RefreshPlan.Request, RefreshPlan.Due, Config.RefreshInterval;
  }

  lemma DeadlineIgnoresList(cfg: Config, ch: Channel.State, q: seq<Command>, rank: int, clk: nat, t: nat)
    requires Deadline(cfg, ch, rank, clk, t)
    ensures Deadline(cfg, ch.(refreshQ := q), rank, clk, t)
  {
    assert OpenBanks(cfg, ch.(refreshQ := q), rank) == OpenBanks(cfg, ch, rank);
    hide OpenBanks;
  }

  /** The cycle of an insertion: the list was empty, and the request is on its way within the worst case. */
  lemma InsertionCycle(cfg: Config, s: State)
    requires Sound(cfg) && RankPolicy(cfg) && WorstCase(cfg) < cfg.RefreshInterval()
    requires Inv(cfg, MakeTable(cfg), s) && OneRequest(cfg, s) && RefreshPlan.Due(cfg, s.rf)
    ensures s.ch.refreshQ == []
    ensures ServedOrPreparing(cfg, Tick(cfg, MakeTable(cfg), s), |s.trace|, RefreshPlan.Request(cfg, s.rf),
                              s.clk + 1, s.clk + WorstCase(cfg))
  {
    hide Inv, Deadline, Serve, Tick, IssuedBy, WorstCase, Config.RefreshInterval, LastInsertion;
    LastInsertionNext(cfg, s.clk);
    if s.ch.refreshQ != [] {
      PreparingIsRefresh(cfg, s, |s.trace|, s.ch.refreshQ[0], s.clk, LastInsertion(cfg, s.clk) + WorstCase(cfg));
    }
    var s1, ref, t := RefreshStep(cfg, s), RefreshPlan.Request(cfg, s.rf), s.clk + WorstCase(cfg);
    RefreshStepList(cfg, s);
    RequestDeadline(cfg, s, ref.addr.rank);
    DeadlineIgnoresList(cfg, s.ch, s1.ch.refreshQ, ref.addr.rank, s.clk, t);
    RefreshStepKeepsInv(cfg, MakeTable(cfg), s);
    assert Preparing(cfg, s1, |s.trace|, ref, s1.clk, t);
    ServeOneRequest(cfg, s1, |s.trace|, ref, t);
    EndOfCycleList(cfg, MakeTable(cfg), s);
    hide Preparing;
    ServedLater(cfg, Serve(cfg, MakeTable(cfg), s1), Tick(cfg, MakeTable(cfg), s), |s.trace|, ref, s.clk + 1, t);
  }

  lemma ServedLater(cfg: Config, s: State, s': State, from: nat, ref: Command, now: nat, t: nat)
    requires ServedOrPreparing(cfg, s, from, ref, now, t) && s'.ch == s.ch && s'.trace == s.trace
    ensures ServedOrPreparing(cfg, s', from, ref, now, t)
  {
    hide Deadline;
  }

  /** Every other cycle: the request waits, or goes. */
  lemma QuietCycle(cfg: Config, s: State)
    requires Sound(cfg) && Inv(cfg, MakeTable(cfg), s) && OneRequest(cfg, s) && !RefreshPlan.Due(cfg, s.rf)
    ensures OneRequest(cfg, Tick(cfg, MakeTable(cfg), s))
  {
    hide Inv, Preparing, Serve, Tick, IssuedBy, WorstCase, Config.RefreshInterval, LastInsertion;
    var s1, s' := RefreshStep(cfg, s), Tick(cfg, MakeTable(cfg), s);
    RefreshStepList(cfg, s);
    RefreshStepKeepsInv(cfg, MakeTable(cfg), s);
    EndOfCycleList(cfg, MakeTable(cfg), s);
    var s2 := Serve(cfg, MakeTable(cfg), s1);
    if s.ch.refreshQ == [] {
      ServeWithoutRequest(cfg, s1);
    } else {
      var ref, t := s.ch.refreshQ[0], LastInsertion(cfg, s.clk) + WorstCase(cfg);
      LastInsertionNext(cfg, s.clk);
      assert s1.ch == s.ch && s.ch.refreshQ == [ref];
      SameChannelPreparing(cfg, s, s1, |s.trace|, ref, s.clk, t);
      ServeOneRequest(cfg, s1, |s.trace|, ref, t);
      if s2.ch.refreshQ != [] {
        SameChannelPreparing(cfg, s2, s', |s.trace|, ref, s.clk + 1, t);
        Repeated(cfg, s', |s.trace|, ref, s.clk + 1, t);
      }
    }
  }

  lemma StepKeepsOneRequest(cfg: Config, s: State, op: Op)
    requires Sound(cfg) && RankPolicy(cfg) && WorstCase(cfg) < cfg.RefreshInterval()
    requires Inv(cfg, MakeTable(cfg), s) && OneRequest(cfg, s)
    ensures OneRequest(cfg, Step(cfg, MakeTable(cfg), s, op))
  {
    hide Inv, Preparing, Tick, IssuedBy, WorstCase, Config.RefreshInterval, LastInsertion;
    var s' := Step(cfg, MakeTable(cfg), s, op);
    if !op.Cycle? {
      TrafficKeepsRest(cfg, MakeTable(cfg), s, op);
      TrafficKeepsPlan(cfg, MakeTable(cfg), s, op);
      if s.ch.refreshQ != [] {
        SameChannelPreparing(cfg, s, s', |s.trace|, s.ch.refreshQ[0], s.clk, LastInsertion(cfg, s.clk) + WorstCase(cfg));
      }
    } else if RefreshPlan.Due(cfg, s.rf) {
      var ref := RefreshPlan.Request(cfg, s.rf);
      InsertionCycle(cfg, s);
      EndOfCycleList(cfg, MakeTable(cfg), s);
      LastInsertionNext(cfg, s.clk);
      if s'.ch.refreshQ != [] {
        Repeated(cfg, s', |s.trace|, ref, s.clk + 1, s.clk + WorstCase(cfg));
      }
    } else {
      QuietCycle(cfg, s);
    }
  }

  lemma TrafficKeepsPlan(cfg: Config, tm: Table, s: State, op: Op)
    requires cfg.ranks > 0 && cfg.RefreshInterval() > 0 && !op.Cycle?
    ensures Step(cfg, tm, s, op).rf == s.rf
  {
  }

  /** With an interval above the worst case, the refresh list never holds more than one request, and that
      one is issued within the worst case after its insertion. */
  lemma {:induction false} ListStaysShort(cfg: Config, ops: seq<Op>)
    requires Sound(cfg) && RankPolicy(cfg) && WorstCase(cfg) < cfg.RefreshInterval()
    ensures OneRequest(cfg, RunTheorems.After(cfg, ops))
    decreases |ops|
  {
    hide Inv, Step, WorstCase, Config.RefreshInterval;
    if ops == [] {
      assert RunTheorems.After(cfg, ops) == Initial(cfg);
    } else {
      hide OneRequest;
      ListStaysShort(cfg, ops[..|ops|-1]);
      EveryRunOk(cfg, ops[..|ops|-1]);
      StepKeepsOneRequest(cfg, RunTheorems.After(cfg, ops[..|ops|-1]), ops[|ops|-1]);
    }
  }

  // ---- every rank is refreshed in time

  lemma {:induction false} RunSplit(cfg: Config, tm: Table, s: State, ops: seq<Op>, n: nat)
    requires cfg.ranks > 0 && cfg.RefreshInterval() > 0 && n <= |ops|
    ensures Run(cfg, tm, s, ops) == Run(cfg, tm, Run(cfg, tm, s, ops[..n]), ops[n..])
    decreases |ops|
  {
    hide Step, Config.RefreshInterval;
    if n == |ops| {
      assert ops[..n] == ops && ops[n..] == [];
    } else {
      var before := ops[..|ops|-1];
      RunSplit(cfg, tm, s, before, n);
      assert before[..n] == ops[..n] && ops[n..][..|ops[n..]|-1] == before[n..] && ops[n..][|ops[n..]|-1] == ops[|ops|-1];
    }
  }

  lemma StepClock(cfg: Config, tm: Table, s: State, op: Op)
    requires cfg.ranks > 0 && cfg.RefreshInterval() > 0
    ensures Step(cfg, tm, s, op).clk == s.clk + (if op.Cycle? then 1 else 0)
  {
    hide Tick, Config.RefreshInterval;
    if op.Cycle? {
      RunTheorems.TickFollowsPlan(cfg, tm, s);
    } else {
      TrafficKeepsRest(cfg, tm, s, op);
    }
  }

  /** The operation of a run that carries out cycle `c`. */
  lemma {:induction false} CycleOfRun(cfg: Config, ops: seq<Op>, c: nat) returns (n: nat)
    requires cfg.ranks > 0 && cfg.RefreshInterval() > 0 && c < RunTheorems.After(cfg, ops).clk
    ensures n < |ops| && ops[n].Cycle? && RunTheorems.After(cfg, ops[..n]).clk == c
    decreases |ops|
  {
    hide Step, Config.RefreshInterval;
    if ops != [] {
      var before := ops[..|ops|-1];
      StepClock(cfg, MakeTable(cfg), RunTheorems.After(cfg, before), ops[|ops|-1]);
      if c < RunTheorems.After(cfg, before).clk {
        n := CycleOfRun(cfg, before, c);
        assert ops[..n] == before[..n] && ops[n] == before[n];
      } else {
        n := |ops| - 1;
      }
    }
  }

  ghost predicate RefreshedWithin(tr: seq<Issued>, rank: int, after: nat, due: nat) {
    exists k :: 0 <= k < |tr| && tr[k].cmd == RefreshPlan.RankRequest(rank) && after < tr[k].clk <= due
  }

  /** A request inserted in a cycle of a run is issued within the worst case. */
  lemma InsertedIsIssued(cfg: Config, ops: seq<Op>, n: nat, rank: int, t: nat)
    requires Sound(cfg) && RankPolicy(cfg) && WorstCase(cfg) < cfg.RefreshInterval()
    requires n < |ops| && ops[n].Cycle? && t < RunTheorems.After(cfg, ops[..n]).clk
    requires RefreshPlan.Tick(cfg, RunTheorems.After(cfg, ops[..n]).rf).0 == [RefreshPlan.RankRequest(rank)]
    requires RunTheorems.After(cfg, ops).clk > RunTheorems.After(cfg, ops[..n]).clk + WorstCase(cfg)
    ensures RefreshedWithin(RunTheorems.After(cfg, ops).trace, rank, t, RunTheorems.After(cfg, ops[..n]).clk + WorstCase(cfg))
  {
    hide Inv, Tick, WorstCase, Config.RefreshInterval, OneRequest;
    var tm, s := MakeTable(cfg), RunTheorems.After(cfg, ops[..n]);
    EveryRunOk(cfg, ops[..n]);
    ListStaysShort(cfg, ops[..n]);
    RestOfRun(cfg, tm, ops, n);
    hide RunTheorems.After, RefreshedWithin;
    RequestIsIssued(cfg, s, ops[n..][1..], rank, t);
  }

  lemma RestOfRun(cfg: Config, tm: Table, ops: seq<Op>, n: nat)
    requires cfg.ranks > 0 && cfg.RefreshInterval() > 0 && n < |ops| && ops[n].Cycle?
    ensures Run(cfg, tm, Initial(cfg), ops)
         == Run(cfg, tm, Tick(cfg, tm, Run(cfg, tm, Initial(cfg), ops[..n])), ops[n..][1..])
  {
    hide Run, Tick, Config.RefreshInterval;
    var s := Run(cfg, tm, Initial(cfg), ops[..n]);
    RunSplit(cfg, tm, Initial(cfg), ops, n);
    RunSplit(cfg, tm, s, ops[n..], 1);
    assert ops[n..][..1] == [ops[n]];
    OneStep(cfg, tm, s, ops[n]);
  }

  lemma RequestIsIssued(cfg: Config, s: State, rest: seq<Op>, rank: int, t: nat)
    requires Sound(cfg) && RankPolicy(cfg) && WorstCase(cfg) < cfg.RefreshInterval() && t < s.clk
    requires Inv(cfg, MakeTable(cfg), s) && OneRequest(cfg, s)
    requires RefreshPlan.Tick(cfg, s.rf).0 == [RefreshPlan.RankRequest(rank)]
    requires Run(cfg, MakeTable(cfg), Tick(cfg, MakeTable(cfg), s), rest).clk > s.clk + WorstCase(cfg)
    ensures RefreshedWithin(Run(cfg, MakeTable(cfg), Tick(cfg, MakeTable(cfg), s), rest).trace, rank, t, s.clk + WorstCase(cfg))
  {
    hide Inv, Run, Preparing, Tick, IssuedBy, WorstCase, Config.RefreshInterval, OneRequest, OnTrack, Later, RefreshedWithin;
    var tm, s1 := MakeTable(cfg), Tick(cfg, MakeTable(cfg), s);
    var ref, due, last := RefreshPlan.RankRequest(rank), s.clk + WorstCase(cfg), Run(cfg, tm, s1, rest);
    InsertionCycle(cfg, s);
    TickKeepsInv(cfg, s);
    EndOfCycleList(cfg, tm, s);
    IntroduceOnTrack(cfg, s1, |s.trace|, ref, s1.clk, due);
    RunOnTrack(cfg, s1, |s.trace|, ref, due, rest);
    StepGrowsTrace(cfg, tm, s, Cycle);
    RunGrowsTrace(cfg, tm, s1, rest);
    LaterStill(s, s1, last);
    IssuedInTime(cfg, s, last, rank, t, due);
  }

  lemma OneStep(cfg: Config, tm: Table, s: State, op: Op)
    requires cfg.ranks > 0 && cfg.RefreshInterval() > 0
    ensures Run(cfg, tm, s, [op]) == Step(cfg, tm, s, op)
  {
    hide Step;
    assert [op][..0] == [];
  }

  lemma IssuedInTime(cfg: Config, s: State, last: State, rank: int, t: nat, due: nat)
    requires OnTrack(cfg, last, |s.trace|, RefreshPlan.RankRequest(rank), last.clk, due) && last.clk > due
    requires Later(s, last) && t < s.clk
    ensures RefreshedWithin(last.trace, rank, t, due)
  {
    hide OpenBanks, BankBy;
    var ref := RefreshPlan.RankRequest(rank);
    assert IssuedBy(last, |s.trace|, ref, due);
    var k :| |s.trace| <= k < |last.trace| && last.trace[k].cmd == ref && last.trace[k].clk <= due
             && OnlyPrecharged(last.trace, |s.trace|, k, ref.addr.rank);
  }

  /** Under the staggered rank policy, with an interval above the worst case, every rank is issued a refresh
      in every span of tREFI plus the worst case, on every run that lasts so long. */
  lemma EveryRankIsRefreshed(cfg: Config, ops: seq<Op>, t: nat, rank: nat)
    requires Sound(cfg) && cfg.refreshPolicy.RankStaggered? && rank < cfg.ranks
    requires WorstCase(cfg) < cfg.RefreshInterval()
    requires RunTheorems.After(cfg, ops).clk > t + cfg.tREFI + WorstCase(cfg)
    ensures RefreshedWithin(RunTheorems.After(cfg, ops).trace, rank, t, t + cfg.tREFI + WorstCase(cfg))
  {
    hide WorstCase, RunTheorems.After, Config.RefreshInterval, RefreshPlan.Tick;
    var c := RefreshPlan.EveryRankWithinTREFI(cfg, t, rank);
    var n := CycleOfRun(cfg, ops, c);
    RunTheorems.RunFollowsPlan(cfg, ops[..n]);
    InsertedIsIssued(cfg, ops, n, rank, t);
    hide RefreshPlan.RankRequest;
  }
}
