/** Spacings may be negative, but they are added to an unsigned clock: when that sum can wrap around. */
module ClockSums {
  import opened Types
  import opened Timing
  import opened Channel
  import opened Trace
  import opened Control
  import opened ControllerRuns
  import opened SharedCycle
  import RunTheorems

  /** The earliest read and write after an activation are late enough for the negative spacings that some
      bank of the geometry is subject to. */
  predicate SpacingsCovered(cfg: Config) {
    && (!cfg.closePage || cfg.bankgroups > 1 || cfg.banksPerGroup > 1 ==> ActivateToRead(cfg) + ReadToWrite(cfg) >= 0)
    && (cfg.ranks > 1 ==> ActivateToRead(cfg) + ReadToWriteO(cfg) >= 0)
    && (cfg.ranks > 1 ==> ActivateToWrite(cfg) + WriteToReadO(cfg) >= 0)
  }

  /** No sum of issue time and applied spacing is negative, on any trace that the banks accept. */
  ghost predicate SumsNeverWrap(cfg: Config) {
    forall tr: seq<Issued>, k: nat, id: BankId, lag: (Kind, int) ::
      Accepted(cfg, tr) && k < |tr| && cfg.InRange(id) && lag in Applied(MakeTable(cfg), tr[k].cmd, id)
      ==> tr[k].clk + lag.1 >= 0
  }

  /** The spacings that can be negative are those from a read to a write and from a write to a read of
      another rank. */
  lemma OnlyTurnarounds(cfg: Config, cmd: Command, id: BankId, lag: (Kind, int))
    requires cfg.Valid() && cfg.InRange(id) && InGeometry(cfg, cmd) && lag in Applied(MakeTable(cfg), cmd, id) && lag.1 < 0
    ensures cmd.kind.IsReadWrite()
    ensures cmd.kind.IsRead() && id.rank == cmd.addr.rank ==>
      lag.1 == ReadToWrite(cfg) && (cmd.kind.Read? || id != cmd.Target())
    ensures cmd.kind.IsRead() && id.rank != cmd.addr.rank ==> lag.1 == ReadToWriteO(cfg) && cfg.ranks > 1
    ensures cmd.kind.IsWrite() ==> lag.1 == WriteToReadO(cfg) && cfg.ranks > 1
  {
  }

  function ActivateTo(cfg: Config, isWrite: bool): int {
    if isWrite then ActivateToWrite(cfg) else ActivateToRead(cfg)
  }

  /** No access comes before an activation and its spacing. */
  lemma EarliestAccess(cfg: Config, tr: seq<Issued>, k: nat)
    requires Accepted(cfg, tr) && k < |tr| && tr[k].cmd.kind.IsReadWrite()
    ensures tr[k].clk >= ActivateTo(cfg, tr[k].cmd.kind.IsWrite())
  {
    hide KeepsWindows;
    var tm := MakeTable(cfg);
    var i := AccessesHitTheOpenRow(cfg, tm, tr, k);
    assert EventOk(cfg, tm, tr, k);
    ActivationSpacing(cfg, tr[i], tr[k]);
  }

  lemma ActivationSpacing(cfg: Config, act: Issued, b: Issued)
    requires Spaced(cfg, MakeTable(cfg), act, b) && act.cmd.kind.Activate? && b.cmd.kind.IsReadWrite()
    requires act.cmd.Target() == b.cmd.Target() && cfg.InRange(b.cmd.Target())
    ensures b.clk >= act.clk + ActivateTo(cfg, b.cmd.kind.IsWrite())
  {
    var lags := Applied(MakeTable(cfg), act.cmd, b.cmd.Target());
    assert lags == SameBank(cfg, Activate) && Targets(cfg, b.cmd, b.cmd.Target());
    var i := if b.cmd.kind.Read? then 1 else if b.cmd.kind.Write? then 2 else if b.cmd.kind.ReadPrecharge? then 3 else 4;
    assert lags[i] == (b.cmd.kind, ActivateTo(cfg, b.cmd.kind.IsWrite()));
    assert lags[i] in lags;
  }

  lemma CoveredSum(cfg: Config, tr: seq<Issued>, k: nat, id: BankId, lag: (Kind, int))
    requires cfg.Valid() && SpacingsCovered(cfg) && Accepted(cfg, tr) && k < |tr|
    requires cfg.InRange(id) && lag in Applied(MakeTable(cfg), tr[k].cmd, id)
    ensures tr[k].clk + lag.1 >= 0
  {
    assert EventOk(cfg, MakeTable(cfg), tr, k) && OwnKind(cfg, tr[k]);
    if lag.1 < 0 {
      OnlyTurnarounds(cfg, tr[k].cmd, id, lag);
      EarliestAccess(cfg, tr, k);
      hide Applied, Spaced, MakeTable;
      assert tr[k].cmd.kind.Read? ==> !cfg.closePage;
    }
  }

  // ---- the condition is exact

  /** Activate the first bank and access it as early as possible. */
  function FirstAccess(cfg: Config, isWrite: bool): seq<Issued>
    requires cfg.Valid()
  {
    [On(FIRST_BANK, Activate, 0), On(FIRST_BANK, cfg.AccessKind(isWrite), ActivateTo(cfg, isWrite))]
  }

  lemma FirstAccessAccepted(cfg: Config, isWrite: bool)
    requires cfg.Valid()
    ensures Accepted(cfg, FirstAccess(cfg, isWrite))
  {
    var tr := FirstAccess(cfg, isWrite);
    assert OpenRow(tr, 0, FIRST_BANK).None? && OpenRow(tr, 1, FIRST_BANK) == Some(0);
    assert Activations(tr, 0, 0) == [];
    assert Spaced(cfg, MakeTable(cfg), tr[0], tr[1]) by {
      FirstAccessSpaced(cfg, isWrite);
    }
    hide Spaced;
    assert EventOk(cfg, MakeTable(cfg), tr, 0) && EventOk(cfg, MakeTable(cfg), tr, 1);
  }

  lemma FirstAccessSpaced(cfg: Config, isWrite: bool)
    requires cfg.Valid()
    ensures Spaced(cfg, MakeTable(cfg), FirstAccess(cfg, isWrite)[0], FirstAccess(cfg, isWrite)[1])
  {
    var a, b := FirstAccess(cfg, isWrite)[0], FirstAccess(cfg, isWrite)[1];
    forall id: BankId, d: int | Targets(cfg, b.cmd, id) && (b.cmd.kind, d) in Applied(MakeTable(cfg), a.cmd, id)
      ensures b.clk >= a.clk + d
    {
      assert id == FIRST_BANK && Applied(MakeTable(cfg), a.cmd, id) == SameBank(cfg, Activate);
    }
  }

  /** A turnaround that reaches back before cycle 0 for the earliest access. */
  lemma UncoveredSum(cfg: Config) returns (isWrite: bool, id: BankId, lag: (Kind, int))
    requires cfg.Valid() && !SpacingsCovered(cfg)
    ensures cfg.InRange(id) && lag in Applied(MakeTable(cfg), FirstAccess(cfg, isWrite)[1].cmd, id)
    ensures ActivateTo(cfg, isWrite) + lag.1 < 0
  {
    hide Config.DecodesInto, Config.RefreshInterval;
    if cfg.ranks > 1 && ActivateToWrite(cfg) + WriteToReadO(cfg) < 0 {
      isWrite, id := true, BankId(1, 0, 0);
      lag := Applied(MakeTable(cfg), FirstAccess(cfg, isWrite)[1].cmd, id)[0];
    } else {
      isWrite := false;
      if cfg.ranks > 1 && ActivateToRead(cfg) + ReadToWriteO(cfg) < 0 {
        id := BankId(1, 0, 0);
      } else if cfg.bankgroups > 1 {
        id := BankId(0, 1, 0);
      } else {
        id := BankId(0, 0, if cfg.closePage then 1 else 0);
      }
      lag := Applied(MakeTable(cfg), FirstAccess(cfg, isWrite)[1].cmd, id)[1];
    }
  }

  /** The unsigned sums never wrap around, on any accepted trace, exactly when the negative spacings that
      apply in the geometry are covered by the activate-to-access spacings. */
  lemma SumsNeverWrapIff(cfg: Config)
    requires cfg.Valid()
    ensures SumsNeverWrap(cfg) <==> SpacingsCovered(cfg)
  {
    if SpacingsCovered(cfg) {
      hide SpacingsCovered, Accepted, MakeTable, Applied;
      forall tr: seq<Issued>, k: nat, id: BankId, lag: (Kind, int)
        | Accepted(cfg, tr) && k < |tr| && cfg.InRange(id) && lag in Applied(MakeTable(cfg), tr[k].cmd, id)
        ensures tr[k].clk + lag.1 >= 0
      {
        CoveredSum(cfg, tr, k, id, lag);
      }
    } else {
      hide SpacingsCovered, Accepted, Applied;
      var isWrite, id, lag := UncoveredSum(cfg);
      FirstAccessAccepted(cfg, isWrite);
      var tr := FirstAccess(cfg, isWrite);
      assert tr[1].clk + lag.1 < 0;
    }
  }

  /** On every run the sum of issue time and applied spacing stays natural. */
  lemma RunSumsNeverWrap(cfg: Config, ops: seq<Op>, k: nat, id: BankId, lag: (Kind, int))
    requires Sound(cfg) && SpacingsCovered(cfg) && k < |RunTheorems.After(cfg, ops).trace|
    requires cfg.InRange(id) && lag in Applied(MakeTable(cfg), RunTheorems.After(cfg, ops).trace[k].cmd, id)
    ensures RunTheorems.After(cfg, ops).trace[k].clk + lag.1 >= 0
  {
    hide RunTheorems.After, Applied, Accepted, SpacingsCovered;
    RunTheorems.RunAccepted(cfg, ops);
    CoveredSum(cfg, RunTheorems.After(cfg, ops).trace, k, id, lag);
  }
}
