/** The command bus carries one command a cycle, or one row and one column command on devices that have a
    bus for each. */
module CommandBus {
  import opened Types
  import opened Timing
  import opened Trace
  import opened Control
  import opened Completion
  import opened RunTheorems

  /** Two commands of one cycle need the two buses. */
  predicate Together(cfg: Config, a: Issued, b: Issued) {
    cfg.DualCmd() && a.cmd.kind.IsReadWrite() != b.cmd.kind.IsReadWrite()
  }

  predicate BusShared(cfg: Config, tr: seq<Issued>) {
    forall i, k :: 0 <= i < k < |tr| && tr[i].clk == tr[k].clk ==> k == i + 1 && Together(cfg, tr[i], tr[k])
  }

  /** What one cycle adds to the trace: nothing, one command, or two for the two buses. */
  predicate Added(cfg: Config, tr: seq<Issued>, tr': seq<Issued>, clk: nat) {
    && |tr| <= |tr'| <= |tr| + 2 && tr'[..|tr|] == tr
    && (forall k :: |tr| <= k < |tr'| ==> tr'[k].clk == clk)
    && (|tr'| == |tr| + 2 ==> Together(cfg, tr'[|tr|], tr'[|tr| + 1]))
  }

  lemma ServeAdds(cfg: Config, tm: Table, s: State)
    ensures Added(cfg, s.trace, Serve(cfg, tm, s).trace, s.clk)
  {
    hide Choose, IssueCommand, Fetch;
    ChooseKeepsLedger(cfg, s);
    var (cmd, s1) := Choose(cfg, s);
    if cmd.Some? {
      IssueShape(cfg, tm, s1, cmd.value);
      var s2 := IssueCommand(cfg, tm, s1, cmd.value);
      FetchKeepsLedger(cfg, s2);
      var (second, s3) := Fetch(cfg, s2);
      if second.Some? {
        IssueShape(cfg, tm, s3, second.value);
      }
    }
  }

  lemma AddedStaysShared(cfg: Config, tr: seq<Issued>, tr': seq<Issued>, clk: nat)
    requires BusShared(cfg, tr) && Added(cfg, tr, tr', clk) && forall k :: 0 <= k < |tr| ==> tr[k].clk < clk
    ensures BusShared(cfg, tr')
  {
    assert forall k :: 0 <= k < |tr| ==> tr'[k] == tr'[..|tr|][k];
  }

  lemma TickAdds(cfg: Config, tm: Table, s: State)
    requires cfg.ranks > 0 && cfg.RefreshInterval() > 0
    ensures Added(cfg, s.trace, Tick(cfg, tm, s).trace, s.clk)
  {
    hide Serve, Schedule;
    var s1 := RefreshStep(cfg, s);
    ServeAdds(cfg, tm, s1);
    ScheduleKeepsLedger(cfg, Serve(cfg, tm, s1));
  }

  lemma AddKeepsTrace(cfg: Config, s: State, addr: nat, isWrite: bool)
    ensures AddTransaction(cfg, s, addr, isWrite).trace == s.trace
  {
  }

  /** On every run no two commands share a cycle, except one access and one row command on a device with
      separate buses; never three. */
  lemma {:induction false} OneCommandPerBus(cfg: Config, ops: seq<Op>)
    requires cfg.ranks > 0 && cfg.RefreshInterval() > 0
    ensures BusShared(cfg, After(cfg, ops).trace)
    decreases |ops|
  {
    hide BusShared, Tick, Added, AddTransaction, Timely;
    if ops == [] {
      EmptyIsShared(cfg);
    } else {
      var s, op := After(cfg, ops[..|ops| - 1]), ops[|ops| - 1];
      OneCommandPerBus(cfg, ops[..|ops| - 1]);
      match op
      case Submit(addr, isWrite) => AddKeepsTrace(cfg, s, addr, isWrite);
      case Cycle =>
        RunDated(cfg, ops[..|ops| - 1]);
        TickAdds(cfg, MakeTable(cfg), s);
        AddedStaysShared(cfg, s.trace, Tick(cfg, MakeTable(cfg), s).trace, s.clk);
      case Collect(clk) =>
    }
  }

  lemma EmptyIsShared(cfg: Config)
    ensures BusShared(cfg, [])
  {
  }

  lemma RunDated(cfg: Config, ops: seq<Op>)
    requires cfg.ranks > 0 && cfg.RefreshInterval() > 0
    ensures var s := After(cfg, ops); forall k :: 0 <= k < |s.trace| ==> s.trace[k].clk < s.clk
  {
    hide Run, WritesHeld, AnswersOk;
    RunTimely(cfg, ops);
  }
}
