/** The invariant holds on every run of a controller. */
module ControllerRuns {
  import opened Types
  import opened Timing
  import opened Trace
  import opened Control
  import opened ControllerInvariant
  import opened ControllerSteps
  import opened DeskInvariant
  import opened Bookkeeping
  import opened SharedCycle
  import Channel
  import Queues

  /** What a run needs of its configuration; the second part matters only with dual commands. */
  ghost predicate Sound(cfg: Config) {
    cfg.Valid() && (cfg.DualCmd() ==> AccessSpacingsPositive(cfg))
  }

  // ---- dual issue

  lemma InvAccepted(cfg: Config, s: State)
    requires Inv(cfg, MakeTable(cfg), s)
    ensures Accepted(cfg, s.trace)
  {
    hide TraceOk;
    forall k | 0 <= k < |s.trace| ensures OwnKind(cfg, s.trace[k]) {
      assert UseOk(cfg, s.trace, k);
    }
  }

  /** The command fetched in the same cycle after an access is not an access. */
  lemma SecondIsNoAccess(cfg: Config, s: State)
    requires cfg.Valid() && AccessSpacingsPositive(cfg) && Inv(cfg, MakeTable(cfg), s)
    requires s.trace != [] && s.trace[|s.trace|-1].cmd.kind.IsReadWrite() && s.trace[|s.trace|-1].clk == s.clk
    requires Fetch(cfg, s).0.Some?
    ensures !Fetch(cfg, s).0.value.kind.IsReadWrite()
  {
    hide Queues.GetCommand, Settle, Channel.Issue, AccessSpacingsPositive, TraceOk;
    var (cmd, s1) := Fetch(cfg, s);
    IssueFromQueue(cfg, MakeTable(cfg), s);
    var s2 := IssueCommand(cfg, MakeTable(cfg), s1, cmd.value);
    assert TraceOk(cfg, MakeTable(cfg), s2.trace) && s2.trace == s.trace + [Event(s1, cmd.value)];
    InvAccepted(cfg, s2);
    hide Inv;
    if cmd.value.kind.IsReadWrite() {
      ConsecutiveAccesses(cfg, s2.trace, |s.trace|);
    }
  }

  /** Dual issue loses nothing: the second command of a cycle is either issued or leaves every queue as
      it was. */
  lemma DualIssueLosesNothing(cfg: Config, s: State, first: Command)
    requires cfg.Valid() && AccessSpacingsPositive(cfg) && Inv(cfg, MakeTable(cfg), s)
    requires s.trace != [] && s.trace[|s.trace|-1].cmd == first && s.trace[|s.trace|-1].clk == s.clk
    ensures var s' := SecondCommand(cfg, MakeTable(cfg), s, first);
      && Inv(cfg, MakeTable(cfg), s')
      && (s'.trace == s.trace ==> s'.cq.queues == s.cq.queues && s'.desk == s.desk)
  {
    var (cmd, s1) := Fetch(cfg, s);
    InvFetchable(cfg, MakeTable(cfg), s);
    if cmd.Some? {
      var qi, j, e := FetchMeaning(cfg, s);
      if first.kind.IsReadWrite() {
        SecondIsNoAccess(cfg, s);
      }
      if cmd.value.kind.IsReadWrite() != first.kind.IsReadWrite() {
        IssueFromQueue(cfg, MakeTable(cfg), s);
        assert IssueCommand(cfg, MakeTable(cfg), s1, cmd.value).trace == s.trace + [Event(s1, cmd.value)];
      } else {
        FetchWithoutIssue(cfg, MakeTable(cfg), s);
      }
    } else {
      FetchNone(cfg, s);
      FetchWithoutIssue(cfg, MakeTable(cfg), s);
    }
  }

  /** Without positive spacings the code can lose an access: whenever the first command of a cycle and the
      one fetched after it are both accesses, the second is erased from its queue and not issued, so its
      transaction stays pending with nothing left to serve it.  In every other case nothing is lost. */
  lemma SecondCommandKeepsInvIff(cfg: Config, tm: Table, s: State, first: Command)
    requires cfg.Valid() && Inv(cfg, tm, s)
    ensures var fetched := Fetch(cfg, s).0;
      Inv(cfg, tm, SecondCommand(cfg, tm, s, first))
      <==> !(fetched.Some? && fetched.value.kind.IsReadWrite() && first.kind.IsReadWrite())
  {
    var (cmd, s1) := Fetch(cfg, s);
    if cmd.Some? && cmd.value.kind.IsReadWrite() != first.kind.IsReadWrite() {
      IssueFromQueue(cfg, tm, s);
    } else if cmd.Some? && cmd.value.kind.IsReadWrite() {
      LostAccess(cfg, tm, s);
    } else {
      FetchWithoutIssue(cfg, tm, s);
    }
  }

  lemma LostAccess(cfg: Config, tm: Table, s: State)
    requires cfg.Valid() && Inv(cfg, tm, s) && Fetch(cfg, s).0.Some? && Fetch(cfg, s).0.value.kind.IsReadWrite()
    ensures var (cmd, s1) := Fetch(cfg, s);
      var (a, w) := (cmd.value.hex, cmd.value.kind.IsWrite());
      && Pending(s1.desk, a, w) && Waiting(cfg, s1.cq.queues, s1.desk, a, w) == 0
      && !Inv(cfg, tm, s1)
  {
    InvFetchable(cfg, tm, s);
    var qi, j, e := FetchMeaning(cfg, s);
    LostEntry(cfg, s.cq.queues, s.desk, qi, e);
  }

  lemma LostEntry(cfg: Config, queues: seq<seq<Command>>, d: Desk, qi: nat, e: nat)
    requires DeskInv(cfg, queues, d) && qi < |queues| && e < |queues[qi]|
    ensures var (a, w) := (queues[qi][e].hex, queues[qi][e].kind.IsWrite());
      && Pending(d, a, w) && Waiting(cfg, Removed(queues, qi, e), d, a, w) == 0
      && !WaitingOk(cfg, Removed(queues, qi, e), d)
  {
    hide CountCmd, CountTx, Queues.QueueIndex, OrderOk, DeskOk;
    var (a, w) := (queues[qi][e].hex, queues[qi][e].kind.IsWrite());
    QueuedIsPending(cfg, queues, d, qi, e);
    assert Waiting(cfg, queues, d, a, w) == 1;
    assert IsQueued(cfg, queues[qi][e], qi) && HomeQueue(cfg, a) == qi;
    CountCmdRemove(queues[qi], e, a, w);
    assert Waiting(cfg, Removed(queues, qi, e), d, a, w) == 0;
  }

  // ---- one cycle

  lemma QueueTurn(cfg: Config, s: State)
    requires Sound(cfg) && Inv(cfg, MakeTable(cfg), s)
    ensures var (cmd, s1) := Fetch(cfg, s);
      Inv(cfg, MakeTable(cfg), if cmd.Some? then IssueCommand(cfg, MakeTable(cfg), s1, cmd.value) else s1)
  {
    if Fetch(cfg, s).0.Some? {
      IssueFromQueue(cfg, MakeTable(cfg), s);
    } else {
      FetchWithoutIssue(cfg, MakeTable(cfg), s);
    }
  }

  lemma ChooseKeepsInv(cfg: Config, s: State)
    requires Sound(cfg) && Inv(cfg, MakeTable(cfg), s)
    ensures var (cmd, s1) := Choose(cfg, s);
      Inv(cfg, MakeTable(cfg), if cmd.Some? then IssueCommand(cfg, MakeTable(cfg), s1, cmd.value) else s1)
  {
    var tm := MakeTable(cfg);
    if s.ch.refreshQ == [] {
      QueueTurn(cfg, s);
    } else if Queues.FinishRefresh(cfg, s.ch, s.cq).0.Some? {
      RefreshCommandKeepsInv(cfg, tm, s);
    } else {
      RefreshWaitKeepsInv(cfg, tm, s);
      QueueTurn(cfg, s.(cq := Queues.FinishRefresh(cfg, s.ch, s.cq).1));
    }
  }

  lemma IssuedIsLast(cfg: Config, tm: Table, s: State, cmd: Command)
    ensures var s2 := IssueCommand(cfg, tm, s, cmd);
      s2.trace == s.trace + [Event(s, cmd)] && s2.clk == s.clk && s2.trace[|s2.trace|-1] == Event(s, cmd)
  {
  }

  lemma ServeKeepsInv(cfg: Config, s: State)
    requires Sound(cfg) && Inv(cfg, MakeTable(cfg), s)
    ensures Inv(cfg, MakeTable(cfg), Serve(cfg, MakeTable(cfg), s))
  {
    ChooseKeepsInv(cfg, s);
    var (cmd, s1) := Choose(cfg, s);
    if cmd.Some? && cfg.DualCmd() {
      IssuedIsLast(cfg, MakeTable(cfg), s1, cmd.value);
      DualIssueLosesNothing(cfg, IssueCommand(cfg, MakeTable(cfg), s1, cmd.value), cmd.value);
    }
  }

  lemma EndOfCycle(cfg: Config, s: State)
    requires Sound(cfg) && Inv(cfg, MakeTable(cfg), s)
    ensures Inv(cfg, MakeTable(cfg), AdvanceClocks(Schedule(cfg, s)))
  {
    ScheduleKeepsInv(cfg, MakeTable(cfg), s);
    ClockKeepsInv(cfg, MakeTable(cfg), Schedule(cfg, s));
  }

  lemma TickKeepsInv(cfg: Config, s: State)
    requires Sound(cfg) && Inv(cfg, MakeTable(cfg), s)
    ensures Inv(cfg, MakeTable(cfg), Tick(cfg, MakeTable(cfg), s))
  {
    RefreshStepKeepsInv(cfg, MakeTable(cfg), s);
    ServeKeepsInv(cfg, RefreshStep(cfg, s));
    EndOfCycle(cfg, Serve(cfg, MakeTable(cfg), RefreshStep(cfg, s)));
  }

  lemma StepKeepsInv(cfg: Config, s: State, op: Op)
    requires Sound(cfg) && Inv(cfg, MakeTable(cfg), s)
    ensures Inv(cfg, MakeTable(cfg), Step(cfg, MakeTable(cfg), s, op))
  {
    match op
    case Submit(addr, isWrite) => AddKeepsInv(cfg, MakeTable(cfg), s, addr, isWrite);
    case Cycle => TickKeepsInv(cfg, s);
    case Collect(clk) => ReturnKeepsInv(cfg, MakeTable(cfg), s, clk);
  }

  /** Whatever is submitted and collected, and however many cycles pass, the invariant holds. */
  lemma {:induction false} RunKeepsInv(cfg: Config, s: State, ops: seq<Op>)
    requires Sound(cfg) && Inv(cfg, MakeTable(cfg), s)
    ensures Inv(cfg, MakeTable(cfg), Run(cfg, MakeTable(cfg), s, ops))
    decreases |ops|
  {
    if ops != [] {
      RunKeepsInv(cfg, s, ops[..|ops|-1]);
      StepKeepsInv(cfg, Run(cfg, MakeTable(cfg), s, ops[..|ops|-1]), ops[|ops|-1]);
    }
  }

  lemma EveryRunOk(cfg: Config, ops: seq<Op>)
    requires Sound(cfg)
    ensures Inv(cfg, MakeTable(cfg), Run(cfg, MakeTable(cfg), Initial(cfg), ops))
  {
    InitialInv(cfg, MakeTable(cfg));
    RunKeepsInv(cfg, Initial(cfg), ops);
  }
}
