/** The registers, bank states and windows of a channel always summarise the whole command trace. */
module ChannelRun {
  import opened Types
  import opened Timing
  import opened Channel
  import opened Trace
  import Bank

  /** `t` is the maximum, over the whole trace, of issue time plus applied spacing (0 if none applies). */
  ghost predicate LatestConstraint(tm: Table, tr: seq<Issued>, id: BankId, kind: Kind, t: nat) {
    && (forall i, d :: 0 <= i < |tr| && (kind, d) in Applied(tm, tr[i].cmd, id) ==> t >= tr[i].clk + d)
    && (t == 0
        || exists i, d :: 0 <= i < |tr| && (kind, d) in Applied(tm, tr[i].cmd, id) && t == tr[i].clk + d)
  }

  ghost predicate RegistersOk(tm: Table, b: Bank.State, tr: seq<Issued>, id: BankId) {
    forall k: Kind :: LatestConstraint(tm, tr, id, k, b.at[k])
  }

  predicate MachineOk(b: Bank.State, tr: seq<Issued>, id: BankId) {
    match OpenRow(tr, |tr|, id)
    case None => b.mode == Bank.Closed && b.row == -1 && b.hits == 0
    case Some(r) => b.mode == Bank.Open && b.row == r && b.hits == RowHits(tr, |tr|, id)
  }

  /** The window list is a suffix of the activation history; whatever it dropped has expired. */
  predicate WindowOk(window: seq<nat>, acts: seq<nat>, size: nat, width: nat, now: nat) {
    && |window| <= size && |window| <= |acts|
    && (forall x :: 0 <= x < |window| ==> window[x] == acts[|acts| - |window| + x] + width)
    && (forall x :: 0 <= x < |acts| - |window| ==> acts[x] + width <= now)
  }

  predicate WindowsOk(cfg: Config, ch: State, tr: seq<Issued>, now: nat, rank: int)
    requires 0 <= rank < |ch.fourAW| && rank < |ch.thirtyTwoAW|
  {
    && WindowOk(ch.fourAW[rank], Activations(tr, |tr|, rank), 4, cfg.tFAW, now)
    && (cfg.IsGDDR() ==> WindowOk(ch.thirtyTwoAW[rank], Activations(tr, |tr|, rank), 32, cfg.t32AW, now))
  }

  /** The channel state is the summary of the trace. */
  ghost predicate Summarises(cfg: Config, tm: Table, ch: State, tr: seq<Issued>, now: nat) {
    && WellShaped(cfg, ch) && !ch.aborted
    && (forall id :: id in ch.banks ==> RegistersOk(tm, ch.banks[id], tr, id))
    && (forall id :: id in ch.banks ==> MachineOk(ch.banks[id], tr, id))
    && (forall rank :: 0 <= rank < cfg.ranks ==> WindowsOk(cfg, ch, tr, now, rank))
  }

  ghost predicate ChannelOk(cfg: Config, tm: Table, ch: State, tr: seq<Issued>, now: nat) {
    && TraceOk(cfg, tm, tr)
    && (forall k :: 0 <= k < |tr| ==> tr[k].clk <= now)
    && Summarises(cfg, tm, ch, tr, now)
  }

  /** What the queues and the refresh list may ask of a channel. */
  predicate IsRequest(cfg: Config, req: Command) {
    if req.kind.IsReadWrite() then cfg.InRange(req.Target()) && req.addr.row >= 0
    else if req.kind.RefreshBank? then cfg.InRange(req.Target()) && req.addr.row == -1
    else req.kind.Refresh? && 0 <= req.addr.rank < cfg.ranks && req.addr.row == -1
  }

  /** A ready command fits the state and the registers of every bank it acts on. */
  lemma ReadyMeaning(cfg: Config, ch: State, req: Command, clk: nat, cmd: Command)
    requires WellShaped(cfg, ch) && IsRequest(cfg, req)
    requires forall id :: id in ch.banks ==> !ch.banks[id].mode.Sref?
    requires ReadyCommand(cfg, ch, req, clk) == Some(cmd)
    ensures InGeometry(cfg, cmd) && cmd.hex == req.hex
    ensures forall id :: Targets(cfg, cmd, id) ==>
      && clk >= ch.banks[id].at[cmd.kind]
      && Bank.Accepts(ch.banks[id], cmd.kind)
    ensures cmd.kind.IsReadWrite() ==> cmd == req && ch.banks[cmd.Target()].row == cmd.addr.row
    ensures cmd.kind.Activate? ==> ActivationWindowOk(cfg, ch, cmd.addr.rank, clk) && req.kind.IsReadWrite()
    ensures cmd.kind.Activate? || cmd.kind.Precharge? || cmd == req
    ensures cmd.addr.rank == req.addr.rank
    ensures req.kind.IsReadWrite() ==> cmd.addr == req.addr && !cmd.kind.IsRefresh()
    ensures !req.kind.IsReadWrite() ==> cmd.addr.row == -1
  {
    if req.kind.IsRankCmd() {
      FirstToPrechargeMeaning(cfg, ch, req.addr.rank, clk, 0, 0);
    }
  }

  lemma RegistersStep(tm: Table, b: Bank.State, tr: seq<Issued>, id: BankId, e: Issued, b': Bank.State)
    requires RegistersOk(tm, b, tr, id)
    requires b'.at == Bank.RaiseAll(b.at, Applied(tm, e.cmd, id), e.clk)
    ensures RegistersOk(tm, b', tr + [e], id)
  {
    forall k: Kind ensures LatestConstraint(tm, tr + [e], id, k, b'.at[k]) {
      RegisterStep(tm, b.at, tr, id, e, k);
    }
  }

  lemma RegisterStep(tm: Table, at: Bank.Registers, tr: seq<Issued>, id: BankId, e: Issued, k: Kind)
    requires LatestConstraint(tm, tr, id, k, at[k])
    ensures LatestConstraint(tm, tr + [e], id, k, Bank.RaiseAll(at, Applied(tm, e.cmd, id), e.clk)[k])
  {
    hide Applied, Bank.RaiseAll;
    var lags := Applied(tm, e.cmd, id);
    var t := Bank.RaiseAll(at, lags, e.clk)[k];
    var tr' := tr + [e];
    Bank.RaiseAllIsMaximum(at, lags, e.clk, k);
    forall i, d | 0 <= i < |tr'| && (k, d) in Applied(tm, tr'[i].cmd, id) ensures t >= tr'[i].clk + d {
      if i < |tr| {
        assert tr'[i] == tr[i];
      }
    }
    if t != at[k] {
      var d :| (k, d) in lags && t == e.clk + d;
      assert tr'[|tr|] == e;
    } else if t != 0 {
      var i, d :| 0 <= i < |tr| && (k, d) in Applied(tm, tr[i].cmd, id) && t == tr[i].clk + d;
      assert tr'[i] == tr[i];
    }
  }

  lemma MachineStep(cfg: Config, b: Bank.State, tr: seq<Issued>, id: BankId, e: Issued)
    requires cfg.InRange(id) && MachineOk(b, tr, id)
    requires InGeometry(cfg, e.cmd)
    requires Targets(cfg, e.cmd, id) ==> Bank.Accepts(b, e.cmd.kind)
    ensures MachineOk(if Targets(cfg, e.cmd, id) then Bank.AfterCommand(b, e.cmd) else b, tr + [e], id)
  {
    ReadingsOfPrefix(tr, [e], |tr|, id);
    assert (tr + [e])[|tr|] == e;
  }

  lemma WindowStep(window: seq<nat>, acts: seq<nat>, size: nat, width: nat, now: nat, clk: nat)
    requires WindowOk(window, acts, size, width, now) && now <= clk && size > 0
    requires WindowReady(window, size, clk)
    ensures WindowKept(acts, clk, size, width)
    ensures WindowOk(PushWindow(window, clk, width), acts + [clk], size, width, clk)
  {
    var window' := PushWindow(window, clk, width);
    var acts' := acts + [clk];
    forall x | 0 <= x < |window'| ensures window'[x] == acts'[|acts'| - |window'| + x] + width {
    }
  }

  lemma WindowWaits(window: seq<nat>, acts: seq<nat>, size: nat, width: nat, now: nat, clk: nat)
    requires WindowOk(window, acts, size, width, now) && now <= clk
    ensures WindowOk(window, acts, size, width, clk)
  {
  }

  /** The windows of one rank after an event. */
  lemma WindowsStep(cfg: Config, ch: State, tr: seq<Issued>, now: nat, e: Issued, rank: int)
    requires |ch.fourAW| == |ch.thirtyTwoAW| == cfg.ranks
    requires 0 <= rank < cfg.ranks && WindowsOk(cfg, ch, tr, now, rank) && now <= e.clk
    requires e.cmd.kind.Activate? ==> ActivationWindowOk(cfg, ch, e.cmd.addr.rank, e.clk)
    ensures WindowsOk(cfg, WindowsAfter(cfg, ch, e.cmd, e.clk), tr + [e], e.clk, rank)
    ensures e.cmd.kind.Activate? && e.cmd.addr.rank == rank ==>
      && WindowKept(Activations(tr, |tr|, rank), e.clk, 4, cfg.tFAW)
      && (cfg.IsGDDR() ==> WindowKept(Activations(tr, |tr|, rank), e.clk, 32, cfg.t32AW))
  {
    var acts := Activations(tr, |tr|, rank);
    ReadingsOfPrefix(tr, [e], |tr|, BankId(rank, 0, 0));
    assert (tr + [e])[|tr|] == e;
    if e.cmd.kind.Activate? && e.cmd.addr.rank == rank {
      assert Activations(tr + [e], |tr| + 1, rank) == acts + [e.clk];
      WindowStep(ch.fourAW[rank], acts, 4, cfg.tFAW, now, e.clk);
      if cfg.IsGDDR() {
        WindowStep(ch.thirtyTwoAW[rank], acts, 32, cfg.t32AW, now, e.clk);
      }
    } else {
      assert Activations(tr + [e], |tr| + 1, rank) == acts;
      var ch' := WindowsAfter(cfg, ch, e.cmd, e.clk);
      assert ch'.fourAW[rank] == ch.fourAW[rank] && ch'.thirtyTwoAW[rank] == ch.thirtyTwoAW[rank];
      WindowWaits(ch.fourAW[rank], acts, 4, cfg.tFAW, now, e.clk);
      if cfg.IsGDDR() {
        WindowWaits(ch.thirtyTwoAW[rank], acts, 32, cfg.t32AW, now, e.clk);
      }
    }
  }

  lemma ReadySpaced(cfg: Config, tm: Table, ch: State, tr: seq<Issued>, e: Issued, i: nat)
    requires i < |tr|
    requires forall id :: id in ch.banks ==> RegistersOk(tm, ch.banks[id], tr, id)
    requires forall id :: Targets(cfg, e.cmd, id) ==> id in ch.banks && e.clk >= ch.banks[id].at[e.cmd.kind]
    ensures Spaced(cfg, tm, tr[i], e)
  {
    forall id: BankId, d: int | Targets(cfg, e.cmd, id) && (e.cmd.kind, d) in Applied(tm, tr[i].cmd, id)
      ensures e.clk >= tr[i].clk + d
    {
      assert LatestConstraint(tm, tr, id, e.cmd.kind, ch.banks[id].at[e.cmd.kind]);
    }
  }

  lemma ReadyFollowsProtocol(cfg: Config, ch: State, tr: seq<Issued>, e: Issued)
    requires WellShaped(cfg, ch) && InGeometry(cfg, e.cmd)
    requires forall id :: id in ch.banks ==> MachineOk(ch.banks[id], tr, id)
    requires forall id :: Targets(cfg, e.cmd, id) ==> Bank.Accepts(ch.banks[id], e.cmd.kind)
    requires e.cmd.kind.IsReadWrite() ==> ch.banks[e.cmd.Target()].row == e.cmd.addr.row
    ensures FollowsProtocol(cfg, tr + [e], |tr|)
  {
    var tr', k := tr + [e], |tr|;
    assert tr'[k] == e;
    forall id: BankId ensures OpenRow(tr', k, id) == OpenRow(tr, k, id) {
      ReadingsOfPrefix(tr, [e], k, id);
    }
    if e.cmd.kind.Refresh? {
      forall x: BankId | InRank(cfg, e.cmd.addr.rank, x) ensures OpenRow(tr', k, x).None? {
        assert Targets(cfg, e.cmd, x) && MachineOk(ch.banks[x], tr, x);
      }
    } else {
      var id := e.cmd.Target();
      assert Targets(cfg, e.cmd, id) && MachineOk(ch.banks[id], tr, id);
    }
  }

  /** Issuing a ready command extends the trace by an allowed event. */
  lemma ReadyEventOk(cfg: Config, tm: Table, ch: State, tr: seq<Issued>, now: nat, req: Command, e: Issued)
    requires ChannelOk(cfg, tm, ch, tr, now) && now <= e.clk && IsRequest(cfg, req)
    requires ReadyCommand(cfg, ch, req, e.clk) == Some(e.cmd)
    ensures EventOk(cfg, tm, tr + [e], |tr|)
  {
    var tr', k := tr + [e], |tr|;
    NoSref(cfg, tm, ch, tr, now);
    ReadyMeaning(cfg, ch, req, e.clk, e.cmd);
    assert tr'[k] == e && (k > 0 ==> tr'[k-1] == tr[k-1]);
    forall i | 0 <= i < k ensures Spaced(cfg, tm, tr'[i], tr'[k]) {
      assert tr'[i] == tr[i];
      ReadySpaced(cfg, tm, ch, tr, e, i);
    }
    ReadyFollowsProtocol(cfg, ch, tr, e);
    if e.cmd.kind.Activate? {
      WindowsStep(cfg, ch, tr, now, e, e.cmd.addr.rank);
      ReadingsOfPrefix(tr, [e], k, BankId(e.cmd.addr.rank, 0, 0));
    }
  }

  lemma NoSref(cfg: Config, tm: Table, ch: State, tr: seq<Issued>, now: nat)
    requires Summarises(cfg, tm, ch, tr, now)
    ensures forall id :: id in ch.banks ==> !ch.banks[id].mode.Sref?
  {
    forall id | id in ch.banks ensures !ch.banks[id].mode.Sref? {
      assert MachineOk(ch.banks[id], tr, id);
    }
  }

  lemma TraceExtends(cfg: Config, tm: Table, tr: seq<Issued>, e: Issued)
    requires TraceOk(cfg, tm, tr) && EventOk(cfg, tm, tr + [e], |tr|)
    ensures TraceOk(cfg, tm, tr + [e])
  {
    forall k | 0 <= k < |tr| + 1 ensures EventOk(cfg, tm, tr + [e], k) {
      if k < |tr| {
        EventOkOfPrefix(cfg, tm, tr, [e], k);
      }
    }
  }

  /** Incremental timing refines history: issuing any ready command keeps the registers equal to the
      maximum over the trace, the bank states equal to the trace's reading, the windows a live suffix of
      the activations, and reaches no abrupt exit. */
  lemma IssueKeepsChannel(cfg: Config, tm: Table, ch: State, tr: seq<Issued>, now: nat, req: Command, e: Issued)
    requires ChannelOk(cfg, tm, ch, tr, now) && now <= e.clk && IsRequest(cfg, req)
    requires ReadyCommand(cfg, ch, req, e.clk) == Some(e.cmd)
    ensures ChannelOk(cfg, tm, Issue(cfg, tm, ch, e.cmd, e.clk), tr + [e], e.clk)
  {
    hide Summarises, EventOk, TraceOk, Issue, ReadyCommand, IsRequest;
    ReadyEventOk(cfg, tm, ch, tr, now, req, e);
    TraceExtends(cfg, tm, tr, e);
    SummaryStep(cfg, tm, ch, tr, now, req, e);
  }

  lemma SummaryStep(cfg: Config, tm: Table, ch: State, tr: seq<Issued>, now: nat, req: Command, e: Issued)
    requires Summarises(cfg, tm, ch, tr, now) && now <= e.clk && IsRequest(cfg, req)
    requires ReadyCommand(cfg, ch, req, e.clk) == Some(e.cmd)
    ensures Summarises(cfg, tm, Issue(cfg, tm, ch, e.cmd, e.clk), tr + [e], e.clk)
  {
    hide ReadyCommand, RegistersOk, MachineOk, WindowsOk, BankAfter, RefreshQAfter, IsRequest, InGeometry;
    NoSref(cfg, tm, ch, tr, now);
    ReadyMeaning(cfg, ch, req, e.clk, e.cmd);
    StatesAfterIssue(cfg, tm, ch, tr, now, e, Issue(cfg, tm, ch, e.cmd, e.clk));
  }

  lemma BankStep(cfg: Config, tm: Table, b: Bank.State, tr: seq<Issued>, id: BankId, e: Issued)
    requires cfg.InRange(id) && InGeometry(cfg, e.cmd)
    requires RegistersOk(tm, b, tr, id) && MachineOk(b, tr, id)
    requires Targets(cfg, e.cmd, id) ==> Bank.Accepts(b, e.cmd.kind)
    ensures RegistersOk(tm, BankAfter(cfg, tm, b, id, e.cmd, e.clk), tr + [e], id)
    ensures MachineOk(BankAfter(cfg, tm, b, id, e.cmd, e.clk), tr + [e], id)
  {
    var b1 := if Targets(cfg, e.cmd, id) then Bank.AfterCommand(b, e.cmd) else b;
    var b2 := Bank.Raise(b1, Applied(tm, e.cmd, id), e.clk);
    assert b2.at == Bank.RaiseAll(b.at, Applied(tm, e.cmd, id), e.clk);
    assert BankAfter(cfg, tm, b, id, e.cmd, e.clk) == b2;
    RegistersStep(tm, b, tr, id, e, b2);
    MachineStep(cfg, b, tr, id, e);
    assert MachineOk(b1, tr + [e], id) ==> MachineOk(b2, tr + [e], id);
  }

  lemma StatesAfterIssue(cfg: Config, tm: Table, ch: State, tr: seq<Issued>, now: nat, e: Issued, ch': State)
    requires WellShaped(cfg, ch) && WellShaped(cfg, ch') && now <= e.clk && InGeometry(cfg, e.cmd)
    requires forall id :: id in ch.banks ==> RegistersOk(tm, ch.banks[id], tr, id) && MachineOk(ch.banks[id], tr, id)
    requires forall rank :: 0 <= rank < cfg.ranks ==> WindowsOk(cfg, ch, tr, now, rank)
    requires AllAccept(cfg, ch, e.cmd)
    requires e.cmd.kind.Activate? ==> ActivationWindowOk(cfg, ch, e.cmd.addr.rank, e.clk)
    requires forall id :: id in ch.banks ==> ch'.banks[id] == BankAfter(cfg, tm, ch.banks[id], id, e.cmd, e.clk)
    requires ch'.fourAW == WindowsAfter(cfg, ch, e.cmd, e.clk).fourAW && ch'.thirtyTwoAW == WindowsAfter(cfg, ch, e.cmd, e.clk).thirtyTwoAW
    ensures forall id :: id in ch'.banks ==> RegistersOk(tm, ch'.banks[id], tr + [e], id)
    ensures forall id :: id in ch'.banks ==> MachineOk(ch'.banks[id], tr + [e], id)
    ensures forall rank :: 0 <= rank < cfg.ranks ==> WindowsOk(cfg, ch', tr + [e], e.clk, rank)
  {
    forall id | id in ch'.banks
      ensures RegistersOk(tm, ch'.banks[id], tr + [e], id) && MachineOk(ch'.banks[id], tr + [e], id)
    {
      BankStep(cfg, tm, ch.banks[id], tr, id, e);
    }
    forall rank | 0 <= rank < cfg.ranks ensures WindowsOk(cfg, ch', tr + [e], e.clk, rank) {
      WindowsStep(cfg, ch, tr, now, e, rank);
    }
  }

  lemma ChannelWaits(cfg: Config, tm: Table, ch: State, tr: seq<Issued>, now: nat, clk: nat, refreshQ: seq<Command>)
    requires ChannelOk(cfg, tm, ch, tr, now) && now <= clk
    ensures ChannelOk(cfg, tm, ch.(refreshQ := refreshQ), tr, clk)
  {
    var ch' := ch.(refreshQ := refreshQ);
    assert forall rank :: 0 <= rank < cfg.ranks && WindowsOk(cfg, ch, tr, now, rank) ==> WindowsOk(cfg, ch', tr, clk, rank);
  }

  lemma InitialChannelOk(cfg: Config, tm: Table)
    ensures ChannelOk(cfg, tm, Initial(cfg), [], 0)
  {
    var ch := Initial(cfg);
    forall id | id in ch.banks ensures RegistersOk(tm, ch.banks[id], [], id) && MachineOk(ch.banks[id], [], id) {
    }
    forall rank | 0 <= rank < cfg.ranks ensures WindowsOk(cfg, ch, [], 0, rank) {
    }
  }
}
