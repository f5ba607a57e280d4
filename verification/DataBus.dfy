/** Use of the shared data bus and of the activation windows over a whole trace. */
module DataBus {
  import opened Types
  import opened Timing
  import opened Channel
  import opened Trace

  /** First bus cycle of the burst of a read or write. */
  function BurstStart(cfg: Config, e: Issued): nat {
    e.clk + (if e.cmd.kind.IsRead() then cfg.RL() else cfg.WL())
  }

  /** A read that closes its bank leaves room for the write that follows the next activation. */
  predicate AutoPrechargeGap(cfg: Config) {
    cfg.CL <= cfg.AL + cfg.tRTP + cfg.tRP + ActivateToWrite(cfg) + cfg.CWL
  }

  /** Spacing between two accesses to different banks, or to one bank that the first leaves open. */
  lemma DirectSpacing(cfg: Config, a: Issued, b: Issued)
    requires Spaced(cfg, MakeTable(cfg), a, b) && cfg.InRange(b.cmd.Target())
    requires a.cmd.kind.IsReadWrite() && b.cmd.kind.IsReadWrite()
    requires a.cmd.Target() != b.cmd.Target() || a.cmd.kind.Read? || a.cmd.kind.Write?
    ensures BurstStart(cfg, b) >= BurstStart(cfg, a) + cfg.burst
  {
    var id := b.cmd.Target();
    var lags := Applied(MakeTable(cfg), a.cmd, id);
    var i := if b.cmd.kind.Read? then 0 else if b.cmd.kind.Write? then 1 else if b.cmd.kind.ReadPrecharge? then 2 else 3;
    assert Targets(cfg, b.cmd, id);
    assert lags[i].0 == b.cmd.kind && (b.cmd.kind, lags[i].1) in lags;
  }

  /** Spacing between an access that closes its bank and a later access to that bank. */
  lemma ReopenedSpacing(cfg: Config, a: Issued, act: Issued, b: Issued)
    requires Spaced(cfg, MakeTable(cfg), a, act) && Spaced(cfg, MakeTable(cfg), act, b)
    requires cfg.InRange(b.cmd.Target()) && a.cmd.Target() == act.cmd.Target() == b.cmd.Target()
    requires a.cmd.kind.ReadPrecharge? || a.cmd.kind.WritePrecharge?
    requires act.cmd.kind.Activate? && b.cmd.kind.IsReadWrite()
    requires a.cmd.kind.ReadPrecharge? ==> AutoPrechargeGap(cfg)
    ensures BurstStart(cfg, b) >= BurstStart(cfg, a) + cfg.burst
  {
    var id := b.cmd.Target();
    var tm := MakeTable(cfg);
    var closing := Applied(tm, a.cmd, id);
    assert Targets(cfg, act.cmd, id) && closing[0].0 == Activate;
    assert (Activate, closing[0].1) in closing;
    var opening := Applied(tm, act.cmd, id);
    var i := if b.cmd.kind.Read? then 1 else if b.cmd.kind.Write? then 2 else if b.cmd.kind.ReadPrecharge? then 3 else 4;
    assert Targets(cfg, b.cmd, id);
    assert opening[i].0 == b.cmd.kind && (b.cmd.kind, opening[i].1) in opening;
  }

  /** Data-bus exclusivity: every burst starts after the bursts of all earlier accesses have ended. */
  lemma BurstsNeverOverlap(cfg: Config, tr: seq<Issued>, i: nat, k: nat)
    requires cfg.Valid() && TraceOk(cfg, MakeTable(cfg), tr) && i < k < |tr|
    requires tr[i].cmd.kind.IsReadWrite() && tr[k].cmd.kind.IsReadWrite()
    requires tr[i].cmd.kind.ReadPrecharge? ==> AutoPrechargeGap(cfg)
    ensures BurstStart(cfg, tr[k]) >= BurstStart(cfg, tr[i]) + cfg.burst
  {
    var tm := MakeTable(cfg);
    assert EventOk(cfg, tm, tr, k);
    if tr[i].cmd.Target() != tr[k].cmd.Target() || tr[i].cmd.kind.Read? || tr[i].cmd.kind.Write? {
      DirectSpacing(cfg, tr[i], tr[k]);
    } else {
      var id := tr[k].cmd.Target();
      assert Closes(tr[i], id) && OpenRow(tr, i + 1, id).None?;
      var j := ActivationBetween(tr, i + 1, k, id);
      assert EventOk(cfg, tm, tr, j);
      ReopenedSpacing(cfg, tr[i], tr[j], tr[k]);
    }
  }

  // ---- the gap is needed

  /** On every trace that the banks accept under the row policy, bursts follow each other in issue order. */
  ghost predicate BusInOrder(cfg: Config) {
    forall tr: seq<Issued>, i: nat, k: nat ::
      Accepted(cfg, tr) && i < k < |tr|
      && tr[i].cmd.kind.IsReadWrite() && tr[k].cmd.kind.IsReadWrite()
      ==> BurstStart(cfg, tr[k]) >= BurstStart(cfg, tr[i]) + cfg.burst
  }

  function OnBankZero(kind: Kind, clk: nat): Issued {
    Issued(Command(kind, Address(0, 0, 0, 0, 0, 0), 0), clk, 0)
  }

  /** Activate, read and close, activate, write and close: each as early as the table allows. */
  function TightReuse(cfg: Config): seq<Issued>
    requires cfg.Valid()
  {
    var read := cfg.TRC() + ActivateToRead(cfg);
    var again := read + ReadpToAct(cfg);
    [OnBankZero(Activate, 0), OnBankZero(ReadPrecharge, read), OnBankZero(Activate, again),
     OnBankZero(WritePrecharge, again + ActivateToWrite(cfg))]
  }

  lemma TightReuseSpaced(cfg: Config, i: nat, k: nat)
    requires cfg.Valid() && i < k < 4
    ensures Spaced(cfg, MakeTable(cfg), TightReuse(cfg)[i], TightReuse(cfg)[k])
  {
    var tr := TightReuse(cfg);
    forall id: BankId, d: int
      | Targets(cfg, tr[k].cmd, id) && (tr[k].cmd.kind, d) in Applied(MakeTable(cfg), tr[i].cmd, id)
      ensures tr[k].clk >= tr[i].clk + d
    {
      assert id == BankId(0, 0, 0);
      assert Applied(MakeTable(cfg), tr[i].cmd, id) == SameBank(cfg, tr[i].cmd.kind);
      var lags := SameBank(cfg, tr[i].cmd.kind);
      if tr[i].cmd.kind == ReadPrecharge {
        assert lags[0] == (Activate, ReadpToAct(cfg));
      } else {
        assert lags[0] == (Activate, cfg.TRC()) && lags[4] == (WritePrecharge, ActivateToWrite(cfg));
        assert lags[3] == (ReadPrecharge, ActivateToRead(cfg));
      }
    }
  }

  lemma TightReuseOk(cfg: Config)
    requires cfg.Valid()
    ensures TraceOk(cfg, MakeTable(cfg), TightReuse(cfg))
  {
    var tr := TightReuse(cfg);
    var id := BankId(0, 0, 0);
    assert OpenRow(tr, 0, id) == None && OpenRow(tr, 1, id) == Some(0) && OpenRow(tr, 2, id) == None;
    assert OpenRow(tr, 3, id) == Some(0);
    assert Activations(tr, 0, 0) == [] && |Activations(tr, 1, 0)| == 1 && |Activations(tr, 2, 0)| == 1;
    forall k | 0 <= k < |tr| ensures EventOk(cfg, MakeTable(cfg), tr, k) {
      forall i | 0 <= i < k ensures Spaced(cfg, MakeTable(cfg), tr[i], tr[k]) {
        TightReuseSpaced(cfg, i, k);
      }
    }
  }

  /** The bus is exclusive on every accepted trace exactly when rows stay open or the auto-precharge gap
      holds. */
  lemma BusInOrderIffGap(cfg: Config)
    requires cfg.Valid()
    ensures BusInOrder(cfg) <==> (cfg.closePage ==> AutoPrechargeGap(cfg))
  {
    if cfg.closePage ==> AutoPrechargeGap(cfg) {
      forall tr: seq<Issued>, i: nat, k: nat
        | Accepted(cfg, tr) && i < k < |tr|
          && tr[i].cmd.kind.IsReadWrite() && tr[k].cmd.kind.IsReadWrite()
        ensures BurstStart(cfg, tr[k]) >= BurstStart(cfg, tr[i]) + cfg.burst
      {
        assert OwnKind(cfg, tr[i]);
        BurstsNeverOverlap(cfg, tr, i, k);
      }
    } else {
      var tr := TightReuse(cfg);
      TightReuseOk(cfg);
      assert BurstStart(cfg, tr[3]) < BurstStart(cfg, tr[1]) + cfg.burst;
    }
  }

  // ---- activation windows

  /** Activations of a rank are listed in order, and each one is listed. */
  lemma {:induction false} ActivationsSorted(cfg: Config, tm: Table, tr: seq<Issued>, k: nat, rank: int)
    requires TraceOk(cfg, tm, tr) && k <= |tr|
    ensures forall x, y :: 0 <= x <= y < |Activations(tr, k, rank)| ==>
      Activations(tr, k, rank)[x] <= Activations(tr, k, rank)[y]
    ensures forall x :: 0 <= x < |Activations(tr, k, rank)| ==>
      k > 0 && Activations(tr, k, rank)[x] <= tr[k-1].clk
  {
    if k == 0 {
      assert Activations(tr, k, rank) == [];
    } else {
      ActivationsSorted(cfg, tm, tr, k - 1, rank);
      assert EventOk(cfg, tm, tr, k - 1);
      var before := Activations(tr, k - 1, rank);
      assert forall x :: 0 <= x < |before| ==> before[x] <= tr[k-2].clk <= tr[k-1].clk;
      assert Activations(tr, k, rank) == before || Activations(tr, k, rank) == before + [tr[k-1].clk];
    }
  }

  lemma {:induction false} ActivationsGrow(tr: seq<Issued>, i: nat, k: nat, rank: int)
    requires i <= k <= |tr|
    ensures Activations(tr, i, rank) <= Activations(tr, k, rank)
  {
    if i < k {
      ActivationsGrow(tr, i, k - 1, rank);
    }
  }

  /** Strictly increasing positions of activations of one rank. */
  predicate ActivationPositions(tr: seq<Issued>, ps: seq<nat>, rank: int) {
    && (forall x :: 0 <= x < |ps| ==>
          ps[x] < |tr| && tr[ps[x]].cmd.kind.Activate? && tr[ps[x]].cmd.addr.rank == rank)
    && (forall x :: 0 < x < |ps| ==> ps[x-1] < ps[x])
  }

  lemma {:induction false} PositionsCount(tr: seq<Issued>, ps: seq<nat>, rank: int, x: nat)
    requires ActivationPositions(tr, ps, rank) && x < |ps|
    ensures |Activations(tr, ps[x], rank)| >= |Activations(tr, ps[0], rank)| + x
    ensures ps[0] <= ps[x]
  {
    if x > 0 {
      PositionsCount(tr, ps, rank, x - 1);
      ActivationsGrow(tr, ps[x-1] + 1, ps[x], rank);
    }
  }

  lemma WindowOverPositions(cfg: Config, tm: Table, tr: seq<Issued>, ps: seq<nat>, rank: int, size: nat, width: nat)
    requires TraceOk(cfg, tm, tr) && size > 0
    requires ActivationPositions(tr, ps, rank) && |ps| == size + 1
    requires WindowKept(Activations(tr, ps[size], rank), tr[ps[size]].clk, size, width)
    ensures tr[ps[size]].clk >= tr[ps[0]].clk + width
  {
    PositionsCount(tr, ps, rank, size);
    var acts := Activations(tr, ps[size], rank);
    var n := |Activations(tr, ps[0], rank)|;
    ActivationsSorted(cfg, tm, tr, ps[size], rank);
    PositionsCount(tr, ps, rank, 1);
    assert ps[1] <= ps[size] by { PositionsOrdered(tr, ps, rank, 1, size); }
    ActivationsGrow(tr, ps[0] + 1, ps[size], rank);
    assert Activations(tr, ps[0] + 1, rank)[n] == tr[ps[0]].clk;
    assert acts[n] == tr[ps[0]].clk;
    assert acts[n] <= acts[|acts| - size];
  }

  lemma {:induction false} PositionsOrdered(tr: seq<Issued>, ps: seq<nat>, rank: int, x: nat, y: nat)
    requires ActivationPositions(tr, ps, rank) && x <= y < |ps|
    ensures ps[x] <= ps[y]
  {
    if x < y {
      PositionsOrdered(tr, ps, rank, x, y - 1);
    }
  }

  /** Any five activations of one rank span at least tFAW cycles. */
  lemma FiveActivationsSpanFAW(cfg: Config, tm: Table, tr: seq<Issued>, ps: seq<nat>, rank: int)
    requires TraceOk(cfg, tm, tr) && ActivationPositions(tr, ps, rank) && |ps| == 5
    ensures tr[ps[4]].clk >= tr[ps[0]].clk + cfg.tFAW
  {
    assert EventOk(cfg, tm, tr, ps[4]);
    WindowOverPositions(cfg, tm, tr, ps, rank, 4, cfg.tFAW);
  }

  /** On GDDR devices any 33 activations of one rank span at least t32AW cycles. */
  lemma ThirtyThreeActivationsSpan32AW(cfg: Config, tm: Table, tr: seq<Issued>, ps: seq<nat>, rank: int)
    requires TraceOk(cfg, tm, tr) && ActivationPositions(tr, ps, rank) && |ps| == 33 && cfg.IsGDDR()
    ensures tr[ps[32]].clk >= tr[ps[0]].clk + cfg.t32AW
  {
    assert EventOk(cfg, tm, tr, ps[32]);
    WindowOverPositions(cfg, tm, tr, ps, rank, 32, cfg.t32AW);
  }
}
