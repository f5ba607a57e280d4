/** When two accesses of one channel can fall into the same cycle. */
module SharedCycle {
  import opened Types
  import opened Timing
  import opened Channel
  import opened Trace

  /** Every spacing between accesses that some pair of banks of the geometry is subject to is positive.
      Accesses to one bank follow each other directly only while rows stay open. */
  predicate AccessSpacingsPositive(cfg: Config) {
    && (!cfg.closePage || cfg.banksPerGroup > 1 ==>
          ReadToReadL(cfg) > 0 && ReadToWrite(cfg) > 0 && WriteToReadL(cfg) > 0 && WriteToWriteL(cfg) > 0)
    && (cfg.bankgroups > 1 ==>
          ReadToReadS(cfg) > 0 && ReadToWrite(cfg) > 0 && WriteToReadS(cfg) > 0 && WriteToWriteS(cfg) > 0)
    && (cfg.ranks > 1 ==>
          ReadToReadO(cfg) > 0 && ReadToWriteO(cfg) > 0 && WriteToReadO(cfg) > 0 && WriteToWriteO(cfg) > 0)
  }

  /** No accepted trace has an access right after another in the same cycle. */
  ghost predicate CyclesUnshared(cfg: Config) {
    forall tr: seq<Issued>, k: nat ::
      Accepted(cfg, tr) && 0 < k < |tr| && tr[k-1].cmd.kind.IsReadWrite() && tr[k].cmd.kind.IsReadWrite()
      ==> tr[k-1].clk < tr[k].clk
  }

  // ---- positive spacings keep accesses apart

  lemma AccessLag(cfg: Config, a: Issued, b: Issued)
    requires Spaced(cfg, MakeTable(cfg), a, b) && AccessSpacingsPositive(cfg)
    requires cfg.InRange(a.cmd.Target()) && cfg.InRange(b.cmd.Target())
    requires a.cmd.kind.IsReadWrite() && b.cmd.kind.IsReadWrite() && OwnKind(cfg, a)
    requires a.cmd.Target() != b.cmd.Target() || a.cmd.kind.Read? || a.cmd.kind.Write?
    ensures a.clk < b.clk
  {
    var id := b.cmd.Target();
    var lags := Applied(MakeTable(cfg), a.cmd, id);
    var i := if b.cmd.kind.Read? then 0 else if b.cmd.kind.Write? then 1 else if b.cmd.kind.ReadPrecharge? then 2 else 3;
    assert Targets(cfg, b.cmd, id);
    assert lags[i].0 == b.cmd.kind && (b.cmd.kind, lags[i].1) in lags;
  }

  lemma ConsecutiveAccesses(cfg: Config, tr: seq<Issued>, k: nat)
    requires Accepted(cfg, tr) && 0 < k < |tr| && AccessSpacingsPositive(cfg)
    requires tr[k-1].cmd.kind.IsReadWrite() && tr[k].cmd.kind.IsReadWrite()
    ensures tr[k-1].clk < tr[k].clk
  {
    hide AccessSpacingsPositive, Spaced, KeepsWindows;
    assert EventOk(cfg, MakeTable(cfg), tr, k) && EventOk(cfg, MakeTable(cfg), tr, k - 1);
    assert OwnKind(cfg, tr[k-1]);
    AccessLag(cfg, tr[k-1], tr[k]);
  }

  // ---- a spacing that is not positive lets them meet

  const FIRST_BANK: BankId := BankId(0, 0, 0)

  function On(id: BankId, kind: Kind, clk: nat): Issued {
    Issued(Command(kind, Address(0, id.rank, id.bankgroup, id.bank, 0, 0), 0), clk, 0)
  }

  /** The spacing from an access of the first bank to an access of bank `id`. */
  function SpacingTo(cfg: Config, id: BankId, fromWrite: bool, toWrite: bool): int {
    if id.rank != 0 then
      if fromWrite then (if toWrite then WriteToWriteO(cfg) else WriteToReadO(cfg))
      else if toWrite then ReadToWriteO(cfg) else ReadToReadO(cfg)
    else if id.bankgroup != 0 then
      if fromWrite then (if toWrite then WriteToWriteS(cfg) else WriteToReadS(cfg))
      else if toWrite then ReadToWrite(cfg) else ReadToReadS(cfg)
    else
      if fromWrite then (if toWrite then WriteToWriteL(cfg) else WriteToReadL(cfg))
      else if toWrite then ReadToWrite(cfg) else ReadToReadL(cfg)
  }

  /** Cycles from the first to the second activation, and from there to the accesses. */
  function ActivationGap(cfg: Config): nat {
    Max(cfg.tRRD_S, ActivateToActivateL(cfg))
  }

  function AccessCycle(cfg: Config): nat
    requires cfg.Valid()
  {
    ActivationGap(cfg) + Max(ActivateToRead(cfg), ActivateToWrite(cfg))
  }

  /** Open the two banks (or the one), then access both in one cycle. */
  function Meeting(cfg: Config, id: BankId, fromWrite: bool, toWrite: bool): seq<Issued>
    requires cfg.Valid()
  {
    var t := AccessCycle(cfg);
    [On(FIRST_BANK, Activate, 0)]
    + (if id == FIRST_BANK then [] else [On(id, Activate, ActivationGap(cfg))])
    + [On(FIRST_BANK, cfg.AccessKind(fromWrite), t), On(id, cfg.AccessKind(toWrite), t)]
  }

  ghost predicate CanMeet(cfg: Config, id: BankId, fromWrite: bool, toWrite: bool) {
    && cfg.Valid() && cfg.InRange(id) && (id == FIRST_BANK ==> !cfg.closePage)
    && SpacingTo(cfg, id, fromWrite, toWrite) <= 0
  }

  lemma RowSpaced(cfg: Config, a: Issued, b: Issued)
    requires cfg.Valid() && a.cmd.kind.Activate? && (b.cmd.kind.Activate? || b.cmd.kind.IsReadWrite())
    requires a.cmd.Target() == b.cmd.Target() ==> b.cmd.kind.IsReadWrite()
    requires b.cmd.kind.Activate? ==> b.clk >= a.clk + ActivationGap(cfg)
    requires a.cmd.Target() == b.cmd.Target() ==> b.clk >= a.clk + Max(ActivateToRead(cfg), ActivateToWrite(cfg))
    ensures Spaced(cfg, MakeTable(cfg), a, b)
  {
    forall id: BankId, d: int | Targets(cfg, b.cmd, id) && (b.cmd.kind, d) in Applied(MakeTable(cfg), a.cmd, id)
      ensures b.clk >= a.clk + d
    {
      assert id == b.cmd.Target();
    }
  }

  lemma AccessesMeet(cfg: Config, id: BankId, fromWrite: bool, toWrite: bool, clk: nat)
    requires CanMeet(cfg, id, fromWrite, toWrite)
    ensures Spaced(cfg, MakeTable(cfg), On(FIRST_BANK, cfg.AccessKind(fromWrite), clk), On(id, cfg.AccessKind(toWrite), clk))
  {
    var a, b := On(FIRST_BANK, cfg.AccessKind(fromWrite), clk), On(id, cfg.AccessKind(toWrite), clk);
    forall x: BankId, d: int | Targets(cfg, b.cmd, x) && (b.cmd.kind, d) in Applied(MakeTable(cfg), a.cmd, x)
      ensures d <= 0
    {
      assert x == id;
    }
  }

  lemma MeetingSpaced(cfg: Config, id: BankId, fromWrite: bool, toWrite: bool, i: nat, k: nat)
    requires CanMeet(cfg, id, fromWrite, toWrite) && i < k < |Meeting(cfg, id, fromWrite, toWrite)|
    ensures Spaced(cfg, MakeTable(cfg), Meeting(cfg, id, fromWrite, toWrite)[i], Meeting(cfg, id, fromWrite, toWrite)[k])
  {
    hide Spaced;
    var tr := Meeting(cfg, id, fromWrite, toWrite);
    if i == |tr| - 2 {
      AccessesMeet(cfg, id, fromWrite, toWrite, AccessCycle(cfg));
    } else {
      RowSpaced(cfg, tr[i], tr[k]);
    }
  }

  lemma MeetingFollows(cfg: Config, id: BankId, fromWrite: bool, toWrite: bool, k: nat)
    requires CanMeet(cfg, id, fromWrite, toWrite) && k < |Meeting(cfg, id, fromWrite, toWrite)|
    ensures FollowsProtocol(cfg, Meeting(cfg, id, fromWrite, toWrite), k)
    ensures KeepsWindows(cfg, Meeting(cfg, id, fromWrite, toWrite), k)
  {
    var tr := Meeting(cfg, id, fromWrite, toWrite);
    assert OpenRow(tr, 0, id).None? && OpenRow(tr, 1, FIRST_BANK) == Some(0);
    assert Activations(tr, 0, 0) == [] && |Activations(tr, 1, id.rank)| <= 1;
    if id == FIRST_BANK {
      assert OpenRow(tr, 2, FIRST_BANK) == Some(0);
    } else {
      assert OpenRow(tr, 1, id).None? && OpenRow(tr, 2, id) == Some(0) && OpenRow(tr, 2, FIRST_BANK) == Some(0);
      assert OpenRow(tr, 3, id) == Some(0);
    }
  }

  /** The meeting is a trace the banks accept under the row policy. */
  lemma MeetingAccepted(cfg: Config, id: BankId, fromWrite: bool, toWrite: bool)
    requires CanMeet(cfg, id, fromWrite, toWrite)
    ensures Accepted(cfg, Meeting(cfg, id, fromWrite, toWrite)) && !CyclesUnshared(cfg)
  {
    var tr := Meeting(cfg, id, fromWrite, toWrite);
    forall k | 0 <= k < |tr| ensures EventOk(cfg, MakeTable(cfg), tr, k) {
      forall i | 0 <= i < k ensures Spaced(cfg, MakeTable(cfg), tr[i], tr[k]) {
        MeetingSpaced(cfg, id, fromWrite, toWrite, i, k);
      }
      hide Spaced, FollowsProtocol, KeepsWindows;
      MeetingFollows(cfg, id, fromWrite, toWrite, k);
    }
    hide EventOk;
    var k := |tr| - 1;
    assert tr[k-1].cmd.kind.IsReadWrite() && tr[k].cmd.kind.IsReadWrite() && tr[k-1].clk == tr[k].clk;
  }

  /** Two accesses can share a cycle exactly when some spacing that applies between them is not positive. */
  lemma CyclesUnsharedIffPositive(cfg: Config)
    requires cfg.Valid()
    ensures CyclesUnshared(cfg) <==> AccessSpacingsPositive(cfg)
  {
    if AccessSpacingsPositive(cfg) {
      forall tr: seq<Issued>, k: nat
        | Accepted(cfg, tr) && 0 < k < |tr| && tr[k-1].cmd.kind.IsReadWrite() && tr[k].cmd.kind.IsReadWrite()
        ensures tr[k-1].clk < tr[k].clk
      {
        ConsecutiveAccesses(cfg, tr, k);
      }
    } else {
      var id, fromWrite, toWrite := SpacingAtFault(cfg);
      MeetingAccepted(cfg, id, fromWrite, toWrite);
    }
  }

  lemma SpacingAtFault(cfg: Config) returns (id: BankId, fromWrite: bool, toWrite: bool)
    requires cfg.Valid() && !AccessSpacingsPositive(cfg)
    ensures CanMeet(cfg, id, fromWrite, toWrite)
  {
    hide Config.RefreshInterval, Config.DecodesInto;
    if cfg.ranks > 1 && (ReadToReadO(cfg) <= 0 || ReadToWriteO(cfg) <= 0 || WriteToReadO(cfg) <= 0 || WriteToWriteO(cfg) <= 0) {
      id := BankId(1, 0, 0);
    } else if cfg.bankgroups > 1 && (ReadToReadS(cfg) <= 0 || ReadToWrite(cfg) <= 0 || WriteToReadS(cfg) <= 0 || WriteToWriteS(cfg) <= 0) {
      id := BankId(0, 1, 0);
    } else {
      id := BankId(0, 0, if cfg.closePage then 1 else 0);
    }
    if SpacingTo(cfg, id, false, false) <= 0 {
      fromWrite, toWrite := false, false;
    } else if SpacingTo(cfg, id, false, true) <= 0 {
      fromWrite, toWrite := false, true;
    } else if SpacingTo(cfg, id, true, false) <= 0 {
      fromWrite, toWrite := true, false;
    } else {
      fromWrite, toWrite := true, true;
    }
  }
}
