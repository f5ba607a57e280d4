/** The device parameters by name: what the spacing table comes to on every run. */
module DeviceTimings {
  import opened Types
  import opened Timing
  import opened Trace
  import opened Control
  import opened ControllerRuns
  import opened ControllerInvariant
  import Channel
  import RunTheorems

  predicate Apart(a: Issued, b: Issued, d: int) {
    b.clk >= a.clk + d
  }

  predicate IsRowOrRefresh(k: Kind) {
    k.Activate? || k == Kind.Refresh || k.RefreshBank?
  }

  /** Two commands to one bank. */
  predicate BankTimings(cfg: Config, a: Kind, b: Kind, dt: int) {
    var wide := cfg.IsGDDR() || cfg.IsHBM();
    && (a.Activate? && b.IsRead() ==> dt >= if wide then cfg.tRCDRD else cfg.tRCD - cfg.AL)
    && (a.Activate? && b.IsWrite() ==> dt >= if wide then cfg.tRCDWR else cfg.tRCD - cfg.AL)
    && (a.Activate? && b.Precharge? ==> dt >= cfg.tRAS)
    && (a.Activate? && b.Activate? ==> dt >= cfg.tRAS + cfg.tRP)
    && (a.Precharge? && IsRowOrRefresh(b) ==> dt >= cfg.tRP)
    && (a.Read? && b.Precharge? ==> dt >= cfg.AL + cfg.tRTP)
    && (a.Write? && b.Precharge? ==> dt >= cfg.AL + cfg.CWL + cfg.burst + cfg.tWR)
    && (a.ReadPrecharge? && b.Activate? ==> dt >= cfg.AL + cfg.burst + cfg.tRTP + cfg.tRP)
    && (a.ReadPrecharge? && IsRowOrRefresh(b) ==> dt >= cfg.AL + cfg.tRTP + cfg.tRP)
    && (a.WritePrecharge? && IsRowOrRefresh(b) ==> dt >= cfg.AL + cfg.CWL + cfg.burst + cfg.tWR + cfg.tRP)
  }

  /** Two commands to different banks of one rank; `near` when the banks share a bank group. */
  predicate RankTimings(cfg: Config, a: Kind, b: Kind, near: bool, dt: int) {
    var long := near && cfg.bankgroups > 1;
    && (a.Activate? && b.Activate? ==> dt >= if long then cfg.tRRD_L else cfg.tRRD_S)
    && (a.IsRead() && b.IsRead() ==> dt >= if long then cfg.tCCD_L else cfg.tCCD_S)
    && (a.IsWrite() && b.IsWrite() ==> dt >= if long then cfg.tCCD_L else cfg.tCCD_S)
    && (a.IsWrite() && b.IsRead() ==> dt >= cfg.WriteDelay() + if long then cfg.tWTR_L else cfg.tWTR_S)
    && (a.IsRead() && b.IsWrite() ==> dt >= cfg.RL() + cfg.burst + cfg.tRTRS - cfg.WL())
    && (a.Precharge? && b.Precharge? && (cfg.IsGDDR() || cfg.protocol.LPDDR4?) ==> dt >= cfg.tPPD)
  }

  lemma Listed(cfg: Config, a: Issued, b: Issued, id: BankId, i: nat)
    requires Spaced(cfg, MakeTable(cfg), a, b) && Channel.Targets(cfg, b.cmd, id)
    requires i < |Applied(MakeTable(cfg), a.cmd, id)| && Applied(MakeTable(cfg), a.cmd, id)[i].0 == b.cmd.kind
    ensures Apart(a, b, Applied(MakeTable(cfg), a.cmd, id)[i].1)
  {
    var lag := Applied(MakeTable(cfg), a.cmd, id)[i];
    assert (b.cmd.kind, lag.1) in Applied(MakeTable(cfg), a.cmd, id);
  }

  /** Position of the four accesses in a list of access spacings. */
  function AccessIndex(k: Kind): nat
    requires k.IsReadWrite()
  {
    if k.Read? then 0 else if k.Write? then 1 else if k.ReadPrecharge? then 2 else 3
  }

  /** Position of `b` in the same-bank list of `a`, where the device names a parameter for the pair. */
  function BankIndex(a: Kind, b: Kind): Option<nat> {
    if a.Activate? then
      if b.Activate? then Some(0) else if b.IsReadWrite() then Some(1 + AccessIndex(b))
      else if b.Precharge? then Some(5) else None
    else if a.Read? || a.Write? then if b.Precharge? then Some(4) else None
    else if a.Precharge? || a.ReadPrecharge? || a.WritePrecharge? then
      if b.Activate? then Some(0) else if b == Kind.Refresh then Some(1) else if b.RefreshBank? then Some(2) else None
    else None
  }

  lemma BankListed(cfg: Config, a: Kind, b: Kind, dt: int)
    ensures BankIndex(a, b).None? ==> BankTimings(cfg, a, b, dt)
    ensures BankIndex(a, b).Some? ==>
      var (i, lags) := (BankIndex(a, b).value, SameBank(cfg, a));
      i < |lags| && lags[i].0 == b && (dt >= lags[i].1 ==> BankTimings(cfg, a, b, dt))
  {
  }

  lemma BankSpacing(cfg: Config, a: Issued, b: Issued)
    requires Spaced(cfg, MakeTable(cfg), a, b) && Channel.Targets(cfg, b.cmd, a.cmd.Target())
    requires !a.cmd.kind.IsRankCmd()
    ensures BankTimings(cfg, a.cmd.kind, b.cmd.kind, b.clk - a.clk)
  {
    var (ka, kb) := (a.cmd.kind, b.cmd.kind);
    assert Applied(MakeTable(cfg), a.cmd, a.cmd.Target()) == SameBank(cfg, ka);
    BankListed(cfg, ka, kb, b.clk - a.clk);
    hide BankTimings, SameBank, Applied, BankIndex;
    if BankIndex(ka, kb).Some? {
      Listed(cfg, a, b, a.cmd.Target(), BankIndex(ka, kb).value);
    }
  }

  /** Position of `b` in the lists that `a` applies to the other banks of its rank. */
  function RankIndex(cfg: Config, a: Kind, b: Kind): Option<nat> {
    if a.IsReadWrite() && b.IsReadWrite() then Some(AccessIndex(b))
    else if a.Activate? && b.Activate? then Some(0)
    else if a.Precharge? && b.Precharge? && NeedsPPD(cfg) then Some(0)
    else None
  }

  function RankLags(cfg: Config, a: Kind, near: bool): Lags {
    if near then OtherBanksSameBankgroup(cfg, a) else OtherBankgroupsSameRank(cfg, a)
  }

  lemma RankListed(cfg: Config, a: Kind, b: Kind, near: bool, dt: int)
    requires cfg.bankgroups > 0
    ensures RankIndex(cfg, a, b).None? ==> RankTimings(cfg, a, b, near, dt)
    ensures RankIndex(cfg, a, b).Some? ==>
      var (i, lags) := (RankIndex(cfg, a, b).value, RankLags(cfg, a, near));
      i < |lags| && lags[i].0 == b && (dt >= lags[i].1 ==> RankTimings(cfg, a, b, near, dt))
  {
  }

  lemma RankSpacing(cfg: Config, a: Issued, b: Issued)
    requires Spaced(cfg, MakeTable(cfg), a, b) && cfg.InRange(b.cmd.Target())
    requires !a.cmd.kind.IsRankCmd() && !b.cmd.kind.IsRankCmd()
    requires a.cmd.addr.rank == b.cmd.addr.rank && a.cmd.Target() != b.cmd.Target()
    ensures RankTimings(cfg, a.cmd.kind, b.cmd.kind, a.cmd.addr.bankgroup == b.cmd.addr.bankgroup, b.clk - a.clk)
  {
    var (ka, kb, near) := (a.cmd.kind, b.cmd.kind, a.cmd.addr.bankgroup == b.cmd.addr.bankgroup);
    assert Channel.Targets(cfg, b.cmd, b.cmd.Target());
    assert Applied(MakeTable(cfg), a.cmd, b.cmd.Target()) == RankLags(cfg, ka, near);
    RankListed(cfg, ka, kb, near, b.clk - a.clk);
    hide RankTimings, RankLags, Applied, RankIndex;
    if RankIndex(cfg, ka, kb).Some? {
      Listed(cfg, a, b, b.cmd.Target(), RankIndex(cfg, ka, kb).value);
    }
  }

  /** On every run, commands to one bank keep tRCD, tRAS, tRC, tRP, tRTP and tWR. */
  lemma RunKeepsBankTimings(cfg: Config, ops: seq<Op>, i: nat, k: nat)
    requires Sound(cfg) && i < k < |RunTheorems.After(cfg, ops).trace|
    requires var tr := RunTheorems.After(cfg, ops).trace;
      !tr[i].cmd.kind.IsRankCmd() && Channel.Targets(cfg, tr[k].cmd, tr[i].cmd.Target())
    ensures var tr := RunTheorems.After(cfg, ops).trace;
      BankTimings(cfg, tr[i].cmd.kind, tr[k].cmd.kind, tr[k].clk - tr[i].clk)
  {
    hide RunTheorems.After, BankTimings, Spaced, Inv;
    RunTheorems.SpacingsKept(cfg, ops, i, k);
    BankSpacing(cfg, RunTheorems.After(cfg, ops).trace[i], RunTheorems.After(cfg, ops).trace[k]);
  }

  /** On every run, commands to different banks of one rank keep tRRD, tCCD, tWTR, the read-to-write
      turnaround and tPPD, in their long or short form. */
  lemma RunKeepsRankTimings(cfg: Config, ops: seq<Op>, i: nat, k: nat)
    requires Sound(cfg) && i < k < |RunTheorems.After(cfg, ops).trace|
    requires var (a, b) := (RunTheorems.After(cfg, ops).trace[i].cmd, RunTheorems.After(cfg, ops).trace[k].cmd);
      && !a.kind.IsRankCmd() && !b.kind.IsRankCmd() && a.addr.rank == b.addr.rank && a.Target() != b.Target()
    ensures var (a, b) := (RunTheorems.After(cfg, ops).trace[i], RunTheorems.After(cfg, ops).trace[k]);
      RankTimings(cfg, a.cmd.kind, b.cmd.kind, a.cmd.addr.bankgroup == b.cmd.addr.bankgroup, b.clk - a.clk)
  {
    hide RunTheorems.After, RankTimings, Spaced, KeepsWindows, FollowsProtocol, TraceUseOk;
    RunTheorems.SpacingsKept(cfg, ops, i, k);
    RunTheorems.RunTraceOk(cfg, ops);
    assert EventOk(cfg, MakeTable(cfg), RunTheorems.After(cfg, ops).trace, k);
    hide Sound;
    RankSpacing(cfg, RunTheorems.After(cfg, ops).trace[i], RunTheorems.After(cfg, ops).trace[k]);
  }
}
