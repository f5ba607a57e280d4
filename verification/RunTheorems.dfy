/** What every run of a controller guarantees, whatever is submitted and collected and when. */
module RunTheorems {
  import opened Types
  import opened Timing
  import opened Trace
  import opened DataBus
  import opened Control
  import opened Bookkeeping
  import opened DeskInvariant
  import opened ChannelRun
  import opened ControllerInvariant
  import opened ControllerRuns
  import Bank
  import Channel
  import Queues
  import RefreshPlan
  import ControllerSteps

  /** The controller after a run from its initial state. */
  function After(cfg: Config, ops: seq<Op>): State
    requires cfg.ranks > 0 && cfg.RefreshInterval() > 0
  {
    Run(cfg, MakeTable(cfg), Initial(cfg), ops)
  }

  /** Every request the banks may be asked about is one they know how to serve. */
  ghost predicate RequestsServed(s: State) {
    && (forall id, qi, i :: id in s.ch.banks && 0 <= qi < |s.cq.queues| && 0 <= i < |s.cq.queues[qi]| ==>
          Bank.RequiredKind(s.ch.banks[id], s.cq.queues[qi][i]).Some?)
    && (forall id, i :: id in s.ch.banks && 0 <= i < |s.ch.refreshQ| ==>
          Bank.RequiredKind(s.ch.banks[id], s.ch.refreshQ[i]).Some?)
  }

  lemma RequestServed(b: Bank.State, req: Command)
    requires !b.mode.Sref? && (req.kind.IsReadWrite() || req.kind.IsRefresh())
    ensures Bank.RequiredKind(b, req).Some?
  {
  }

  lemma InvServesRequests(cfg: Config, tm: Table, s: State)
    requires Inv(cfg, tm, s)
    ensures RequestsServed(s)
  {
    hide Bank.RequiredKind, ChannelOk, WantedOk, TraceUseOk, Conserved, WaitingOk, OrderOk, DeskOk;
    InvFetchable(cfg, tm, s);
    forall id, qi, i | id in s.ch.banks && 0 <= qi < |s.cq.queues| && 0 <= i < |s.cq.queues[qi]|
      ensures Bank.RequiredKind(s.ch.banks[id], s.cq.queues[qi][i]).Some?
    {
      assert IsQueued(cfg, s.cq.queues[qi][i], qi);
      RequestServed(s.ch.banks[id], s.cq.queues[qi][i]);
    }
    forall id, i | id in s.ch.banks && 0 <= i < |s.ch.refreshQ|
      ensures Bank.RequiredKind(s.ch.banks[id], s.ch.refreshQ[i]).Some?
    {
      assert IsRefreshRequest(cfg, s.ch.refreshQ[i]);
      RequestServed(s.ch.banks[id], s.ch.refreshQ[i]);
    }
  }

  /** No fatal exit lies behind, and none is possible whatever the banks are asked next. */
  ghost predicate Safe(s: State) {
    !s.halted && !s.ch.aborted && RequestsServed(s)
  }

  lemma InvSafe(cfg: Config, s: State)
    requires Inv(cfg, MakeTable(cfg), s)
    ensures Safe(s)
  {
    hide RequestsServed;
    InvServesRequests(cfg, MakeTable(cfg), s);
  }

  /** The states in which a cycle that starts at `s` asks the banks: after the refresh scheduler, and after
      the first command if there is one. */
  ghost predicate SafeCycle(cfg: Config, s: State)
    requires cfg.ranks > 0 && cfg.RefreshInterval() > 0
  {
    var s1 := RefreshStep(cfg, s);
    var (cmd, s2) := Choose(cfg, s1);
    Safe(s1) && (cmd.Some? ==> Safe(IssueCommand(cfg, MakeTable(cfg), s2, cmd.value)))
  }

  lemma InvSafeCycle(cfg: Config, s: State)
    requires Sound(cfg) && Inv(cfg, MakeTable(cfg), s)
    ensures SafeCycle(cfg, s)
  {
    hide Inv, Safe, RefreshStep, Choose, IssueCommand;
    var s1 := RefreshStep(cfg, s);
    ControllerSteps.RefreshStepKeepsInv(cfg, MakeTable(cfg), s);
    InvSafe(cfg, s1);
    ChooseKeepsInv(cfg, s1);
    var (cmd, s2) := Choose(cfg, s1);
    if cmd.Some? {
      InvSafe(cfg, IssueCommand(cfg, MakeTable(cfg), s2, cmd.value));
    }
  }

  /** No run takes a fatal exit: not the three look-ups of the controller and the command queue, not the
      bank machine on an issued command, not the bank machine on any request it may be asked about, between
      operations or within a cycle. */
  lemma NoRunExits(cfg: Config, ops: seq<Op>)
    requires Sound(cfg)
    ensures Safe(After(cfg, ops)) && SafeCycle(cfg, After(cfg, ops))
  {
    hide Run, Safe, SafeCycle, Inv;
    EveryRunOk(cfg, ops);
    InvSafe(cfg, After(cfg, ops));
    InvSafeCycle(cfg, After(cfg, ops));
  }

  /** Transactions are conserved, and each address with reads (or a write) pending has exactly one read
      (or write) on its way to the DRAM. */
  lemma RunConserves(cfg: Config, ops: seq<Op>)
    requires Sound(cfg)
    ensures var s := After(cfg, ops);
      && Cores(s.accepted) == Cores(s.delivered) + Cores(s.ret) + Cores(s.desk.pendRd)
      && (forall a: nat, w: bool ::
            Waiting(cfg, s.cq.queues, s.desk, a, w) == if Pending(s.desk, a, w) then 1 else 0)
  {
    hide Run, Waiting;
    EveryRunOk(cfg, ops);
  }

  /** When a write issues, no read of its address is still owed; a read always answers one. */
  lemma WritesFollowReads(cfg: Config, ops: seq<Op>, k: nat)
    requires Sound(cfg) && k < |After(cfg, ops).trace|
    ensures var e := After(cfg, ops).trace[k];
      (e.cmd.kind.IsWrite() ==> e.owed == 0) && (e.cmd.kind.IsRead() ==> e.owed > 0)
  {
    hide Run;
    EveryRunOk(cfg, ops);
    assert UseOk(cfg, After(cfg, ops).trace, k);
  }

  /** Each earliest-time register is the maximum, over all commands issued so far, of issue time plus
      applied spacing. */
  lemma RegistersAreHistory(cfg: Config, ops: seq<Op>, id: BankId, kind: Kind)
    requires Sound(cfg) && cfg.InRange(id)
    ensures var s := After(cfg, ops);
      id in s.ch.banks && LatestConstraint(MakeTable(cfg), s.trace, id, kind, s.ch.banks[id].at[kind])
  {
    hide Run, LatestConstraint;
    EveryRunOk(cfg, ops);
    var s := After(cfg, ops);
    assert RegistersOk(MakeTable(cfg), s.ch.banks[id], s.trace, id);
  }

  /** Every command keeps every applied spacing to every earlier command, on every bank it acts on. */
  lemma SpacingsKept(cfg: Config, ops: seq<Op>, i: nat, k: nat)
    requires Sound(cfg) && i < k < |After(cfg, ops).trace|
    ensures Spaced(cfg, MakeTable(cfg), After(cfg, ops).trace[i], After(cfg, ops).trace[k])
  {
    hide Run, Spaced;
    EveryRunOk(cfg, ops);
    assert EventOk(cfg, MakeTable(cfg), After(cfg, ops).trace, k);
  }

  /** Data-bus exclusivity on every run; only the close-page policy needs the auto-precharge gap. */
  lemma BusIsExclusive(cfg: Config, ops: seq<Op>, i: nat, k: nat)
    requires Sound(cfg) && i < k < |After(cfg, ops).trace|
    requires After(cfg, ops).trace[i].cmd.kind.IsReadWrite() && After(cfg, ops).trace[k].cmd.kind.IsReadWrite()
    requires cfg.closePage ==> AutoPrechargeGap(cfg)
    ensures BurstStart(cfg, After(cfg, ops).trace[k]) >= BurstStart(cfg, After(cfg, ops).trace[i]) + cfg.burst
  {
    hide Run, TraceOk, BurstStart, AutoPrechargeGap;
    EveryRunOk(cfg, ops);
    assert UseOk(cfg, After(cfg, ops).trace, i);
    BurstsNeverOverlap(cfg, After(cfg, ops).trace, i, k);
  }

  /** Every access of a run hits the row of the latest standing activation of its bank. */
  lemma AccessesHit(cfg: Config, ops: seq<Op>, k: nat) returns (i: nat)
    requires Sound(cfg) && k < |After(cfg, ops).trace| && After(cfg, ops).trace[k].cmd.kind.IsReadWrite()
    ensures var tr := After(cfg, ops).trace;
      StandingActivation(tr, i, k, tr[k].cmd.Target()) && tr[i].cmd.addr.row == tr[k].cmd.addr.row
  {
    hide Run, TraceOk;
    EveryRunOk(cfg, ops);
    i := AccessesHitTheOpenRow(cfg, MakeTable(cfg), After(cfg, ops).trace, k);
  }

  /** The trace of every run is one the banks accept, with the accesses of the row policy. */
  lemma RunAccepted(cfg: Config, ops: seq<Op>)
    requires Sound(cfg)
    ensures Accepted(cfg, After(cfg, ops).trace)
  {
    hide Run, Inv, Accepted;
    EveryRunOk(cfg, ops);
    InvAccepted(cfg, After(cfg, ops));
  }

  lemma RunTraceOk(cfg: Config, ops: seq<Op>)
    requires Sound(cfg)
    ensures TraceOk(cfg, MakeTable(cfg), After(cfg, ops).trace) && TraceUseOk(cfg, After(cfg, ops).trace)
  {
    hide Run, TraceOk, TraceUseOk;
    EveryRunOk(cfg, ops);
  }

  lemma RefreshOnTrace(cfg: Config, tr: seq<Issued>, i: nat, k: nat)
    requires cfg.Valid() && TraceOk(cfg, MakeTable(cfg), tr) && TraceUseOk(cfg, tr) && i < k < |tr|
    requires tr[i].cmd.kind == Kind.Refresh && tr[k].cmd.addr.rank == tr[i].cmd.addr.rank
    ensures tr[k].clk >= tr[i].clk + cfg.tRFC
    ensures forall id :: Channel.InRank(cfg, tr[i].cmd.addr.rank, id) ==> OpenRow(tr, i, id).None?
  {
    hide Spaced, KeepsWindows;
    assert EventOk(cfg, MakeTable(cfg), tr, i);
    assert UseOk(cfg, tr, i) && UseOk(cfg, tr, k);
    RefreshSilencesRank(cfg, tr, i, k);
  }

  /** A rank refresh finds every bank of its rank closed, and nothing reaches the rank for tRFC cycles. */
  lemma RefreshIsQuiet(cfg: Config, ops: seq<Op>, i: nat, k: nat)
    requires Sound(cfg) && i < k < |After(cfg, ops).trace|
    requires After(cfg, ops).trace[i].cmd.kind == Kind.Refresh
    requires After(cfg, ops).trace[k].cmd.addr.rank == After(cfg, ops).trace[i].cmd.addr.rank
    ensures var tr := After(cfg, ops).trace;
      && tr[k].clk >= tr[i].clk + cfg.tRFC
      && (forall id :: Channel.InRank(cfg, tr[i].cmd.addr.rank, id) ==> OpenRow(tr, i, id).None?)
  {
    hide Run, Inv;
    var tr := After(cfg, ops).trace;
    RunTraceOk(cfg, ops);
    RefreshOnTrace(cfg, tr, i, k);
  }

  /** Any five activations of a rank span tFAW cycles, any 33 span t32AW cycles on GDDR devices. */
  lemma ActivationsAreSpread(cfg: Config, ops: seq<Op>, ps: seq<nat>, rank: int)
    requires Sound(cfg) && ActivationPositions(After(cfg, ops).trace, ps, rank)
    ensures var tr := After(cfg, ops).trace;
      && (|ps| == 5 ==> tr[ps[4]].clk >= tr[ps[0]].clk + cfg.tFAW)
      && (|ps| == 33 && cfg.IsGDDR() ==> tr[ps[32]].clk >= tr[ps[0]].clk + cfg.t32AW)
  {
    hide Run, TraceOk;
    EveryRunOk(cfg, ops);
    if |ps| == 5 {
      FiveActivationsSpanFAW(cfg, MakeTable(cfg), After(cfg, ops).trace, ps, rank);
    } else if |ps| == 33 && cfg.IsGDDR() {
      ThirtyThreeActivationsSpan32AW(cfg, MakeTable(cfg), After(cfg, ops).trace, ps, rank);
    }
  }

  // ---- no wasted activation

  lemma {:induction false} HitSinceActivation(tr: seq<Issued>, i: nat, k: nat, id: BankId) returns (j: nat)
    requires StandingActivation(tr, i, k, id) && RowHits(tr, k, id) > 0
    ensures i < j < k && Accesses(tr[j], id)
  {
    if Accesses(tr[k-1], id) {
      j := k - 1;
    } else {
      j := HitSinceActivation(tr, i, k - 1, id);
    }
  }

  lemma {:induction false} StandingRow(tr: seq<Issued>, i: nat, k: nat, id: BankId)
    requires StandingActivation(tr, i, k, id)
    ensures OpenRow(tr, k, id) == Some(tr[i].cmd.addr.row)
  {
    if i < k - 1 {
      StandingRow(tr, i, k - 1, id);
    }
  }

  /** Between an activation and a precharge made for a queued command (one that names a row), the row is
      read or written at least once. */
  lemma NoWastedActivation(cfg: Config, ops: seq<Op>, i: nat, k: nat) returns (j: nat)
    requires Sound(cfg) && k < |After(cfg, ops).trace|
    requires var e := After(cfg, ops).trace[k];
      e.cmd.kind.Precharge? && e.cmd.addr.row != -1 && StandingActivation(After(cfg, ops).trace, i, k, e.cmd.Target())
    ensures var tr := After(cfg, ops).trace;
      i < j < k && Accesses(tr[j], tr[k].cmd.Target()) && tr[j].cmd.addr.row == tr[i].cmd.addr.row
  {
    hide Run, Spaced;
    EveryRunOk(cfg, ops);
    var tr := After(cfg, ops).trace;
    var id := tr[k].cmd.Target();
    assert UseOk(cfg, tr, k);
    j := HitSinceActivation(tr, i, k, id);
    assert EventOk(cfg, MakeTable(cfg), tr, j);
    StandingRow(tr, i, j, id);
  }

  // ---- the refresh plan of a run

  /** What a controller has exchanged with the outside. */
  function Traffic(s: State): (seq<Transaction>, seq<Transaction>) {
    (s.accepted, s.delivered)
  }

  lemma TickFollowsPlan(cfg: Config, tm: Table, s: State)
    requires cfg.ranks > 0 && cfg.RefreshInterval() > 0
    ensures Tick(cfg, tm, s).rf == RefreshPlan.Tick(cfg, s.rf).1 && Tick(cfg, tm, s).clk == s.clk + 1
    ensures Traffic(Tick(cfg, tm, s)) == Traffic(s)
  {
    ServeLeavesPlan(cfg, tm, RefreshStep(cfg, s));
  }

  lemma FetchLeavesPlan(cfg: Config, s: State)
    ensures Fetch(cfg, s).1.rf == s.rf && Fetch(cfg, s).1.clk == s.clk
    ensures Traffic(Fetch(cfg, s).1) == Traffic(s)
  {
  }

  lemma IssueLeavesPlan(cfg: Config, tm: Table, s: State, cmd: Command)
    ensures IssueCommand(cfg, tm, s, cmd).rf == s.rf && IssueCommand(cfg, tm, s, cmd).clk == s.clk
    ensures Traffic(IssueCommand(cfg, tm, s, cmd)) == Traffic(s)
  {
  }

  lemma ServeLeavesPlan(cfg: Config, tm: Table, s: State)
    ensures Serve(cfg, tm, s).rf == s.rf && Serve(cfg, tm, s).clk == s.clk
    ensures Traffic(Serve(cfg, tm, s)) == Traffic(s)
  {
    hide IssueCommand, Fetch;
    var (cmd, s1) := Choose(cfg, s);
    FetchLeavesPlan(cfg, s);
    if s.ch.refreshQ != [] {
      FetchLeavesPlan(cfg, s.(cq := Queues.FinishRefresh(cfg, s.ch, s.cq).1));
    }
    if cmd.Some? {
      IssueLeavesPlan(cfg, tm, s1, cmd.value);
      var s2 := IssueCommand(cfg, tm, s1, cmd.value);
      FetchLeavesPlan(cfg, s2);
      var (second, s3) := Fetch(cfg, s2);
      if second.Some? {
        IssueLeavesPlan(cfg, tm, s3, second.value);
      }
    }
  }

  /** On every run the refresh scheduler is where the plan puts it after as many cycles as have passed. */
  lemma {:induction false} RunFollowsPlan(cfg: Config, ops: seq<Op>)
    requires cfg.ranks > 0 && cfg.RefreshInterval() > 0
    ensures After(cfg, ops).rf == RefreshPlan.After(cfg, After(cfg, ops).clk)
    decreases |ops|
  {
    hide Tick;
    if ops != [] {
      RunFollowsPlan(cfg, ops[..|ops|-1]);
      TickFollowsPlan(cfg, MakeTable(cfg), After(cfg, ops[..|ops|-1]));
    }
  }
}
