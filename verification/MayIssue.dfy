/** What a queued request may issue, read off the command trace and the device parameters alone, and that a
    controller never idles while something may be issued. */
module MayIssue {
  import opened Types
  import opened Timing
  import opened Trace
  import opened Control
  import opened DeskInvariant
  import opened ChannelRun
  import opened ControllerInvariant
  import opened ControllerSteps
  import opened ControllerRuns
  import opened RefreshBound
  import Bank
  import Channel
  import Queues
  import RunTheorems

  // ---- the spacing of every pair of commands, by name

  datatype Relation = SameBank | SameGroup | SameRank | OtherRank

  /** Where bank `id` lies from the bank of a command. */
  function RelationTo(cmd: Command, id: BankId): Relation {
    if id.rank != cmd.addr.rank then OtherRank
    else if id.bankgroup != cmd.addr.bankgroup then SameRank
    else if id.bank != cmd.addr.bank then SameGroup
    else SameBank
  }

  /** Cycles between the accesses `a` and `b`; the long form inside an enabled bank group. */
  function AccessSpacing(cfg: Config, a: Kind, b: Kind, rel: Relation): int {
    var long := !rel.SameRank? && cfg.bankgroups > 1;
    if rel.OtherRank? then
      if a.IsRead() then
        if b.IsRead() then cfg.burst + cfg.tRTRS else cfg.RL() + cfg.burst + cfg.tRTRS - cfg.WL()
      else if b.IsRead() then cfg.WL() + cfg.burst + cfg.tRTRS - cfg.RL() else cfg.burst
    else if a.IsRead() == b.IsRead() then Max(cfg.burst, if long then cfg.tCCD_L else cfg.tCCD_S)
    else if a.IsRead() then cfg.RL() + cfg.burst + cfg.tRTRS - cfg.WL()
    else cfg.WL() + cfg.burst + (if long then cfg.tWTR_L else cfg.tWTR_S)
  }

  predicate OpensOrRefreshes(k: Kind) {
    k.Activate? || k == Kind.Refresh || k.RefreshBank?
  }

  /** From a command to a later one on the same bank. */
  function BankSpacing(cfg: Config, a: Kind, b: Kind): Option<int> {
    match a
    case Activate =>
      if b.Activate? then Some(cfg.tRAS + cfg.tRP)
      else if b.IsRead() then Some(if cfg.IsGDDR() || cfg.IsHBM() then cfg.tRCDRD else cfg.tRCD - cfg.AL)
      else if b.IsWrite() then Some(if cfg.IsGDDR() || cfg.IsHBM() then cfg.tRCDWR else cfg.tRCD - cfg.AL)
      else if b.Precharge? then Some(cfg.tRAS) else None
    case Precharge => if OpensOrRefreshes(b) then Some(cfg.tRP) else None
    case Read =>
      if b.IsReadWrite() then Some(AccessSpacing(cfg, a, b, SameBank))
      else if b.Precharge? then Some(cfg.AL + cfg.tRTP) else None
    case Write =>
      if b.IsReadWrite() then Some(AccessSpacing(cfg, a, b, SameBank))
      else if b.Precharge? then Some(cfg.AL + cfg.CWL + cfg.burst + cfg.tWR) else None
    case ReadPrecharge =>
      if b.Activate? then Some(cfg.AL + cfg.burst + cfg.tRTP + cfg.tRP)
      else if OpensOrRefreshes(b) then Some(cfg.AL + cfg.tRTP + cfg.tRP) else None
    case WritePrecharge =>
      if OpensOrRefreshes(b) then Some(cfg.AL + cfg.CWL + cfg.burst + cfg.tWR + cfg.tRP) else None
    case _ => None
  }

  /** From a command to a later one on another bank of the rank. */
  function NeighbourSpacing(cfg: Config, a: Kind, b: Kind, rel: Relation): Option<int> {
    if a.IsReadWrite() && b.IsReadWrite() then Some(AccessSpacing(cfg, a, b, rel))
    else if a.Activate? && b.Activate? then
      Some(if rel.SameGroup? && cfg.bankgroups > 1 then cfg.tRRD_L else cfg.tRRD_S)
    else if a.Activate? && b.RefreshBank? then Some(cfg.tRAS + cfg.tRP)
    else if a.Precharge? && b.Precharge? && (cfg.IsGDDR() || cfg.protocol.LPDDR4?) then Some(cfg.tPPD)
    else if a.RefreshBank? && b.Activate? then Some(cfg.tRFC)
    else if a.RefreshBank? && b.RefreshBank? then Some(cfg.tREFI)
    else None
  }

  /** The least distance from command `a` to a later `b` on a bank in relation `rel`, if there is one. */
  function Spacing(cfg: Config, a: Kind, b: Kind, rel: Relation): Option<int> {
    if a == Kind.Refresh then
      if !rel.OtherRank? && (b.Activate? || b == Kind.Refresh) then Some(cfg.tRFC) else None
    else match rel
      case SameBank => BankSpacing(cfg, a, b)
      case OtherRank => if a.IsReadWrite() && b.IsReadWrite() then Some(AccessSpacing(cfg, a, b, rel)) else None
      case _ => NeighbourSpacing(cfg, a, b, rel)
  }

  /** The kinds that occur without self-refresh. */
  predicate Plain(k: Kind) {
    !k.SrefEnter? && !k.SrefExit?
  }

  /** At most one entry of a list is for `b`, and which one it is. */
  ghost predicate Lists(lags: Lags, b: Kind, d: Option<int>) {
    && (d.Some? ==> (b, d.value) in lags)
    && (forall x :: (b, x) in lags ==> d == Some(x))
  }

  lemma ListsAccesses(toRead: int, toWrite: int, more: Lags, b: Kind)
    requires forall i :: 0 <= i < |more| ==> !more[i].0.IsReadWrite()
    ensures b.IsReadWrite() ==> Lists(ReadWriteLags(toRead, toWrite) + more, b, Some(if b.IsRead() then toRead else toWrite))
    ensures !b.IsReadWrite() ==> forall x :: (b, x) in ReadWriteLags(toRead, toWrite) + more <==> (b, x) in more
  {
    var lags := ReadWriteLags(toRead, toWrite) + more;
    assert lags[0] == (Read, toRead) && lags[1] == (Write, toWrite);
    assert lags[2] == (ReadPrecharge, toRead) && lags[3] == (WritePrecharge, toWrite);
    assert forall i :: 4 <= i < |lags| ==> lags[i] == more[i-4];
  }

  lemma OpenBankLists(cfg: Config, a: Kind, b: Kind)
    requires Plain(b) && (a.Read? || a.Write?) && cfg.bankgroups > 0
    ensures Lists(Timing.SameBank(cfg, a), b, BankSpacing(cfg, a, b))
  {
    var extra := [(Precharge, if a.Read? then ReadToPrecharge(cfg) else WriteToPrecharge(cfg))];
    var toRead, toWrite := if a.Read? then ReadToReadL(cfg) else WriteToReadL(cfg), if a.Read? then ReadToWrite(cfg) else WriteToWriteL(cfg);
    var lags := ReadWriteLags(toRead, toWrite) + extra;
    assert Timing.SameBank(cfg, a) == lags;
    ListsAccesses(toRead, toWrite, extra, b);
    assert lags[4] == extra[0] && lags[4] in lags;
    hide ReadWriteLags, Timing.SameBank;
    assert forall x :: (b, x) in extra <==> b.Precharge? && x == extra[0].1;
  }

  lemma ActivateLists(cfg: Config, b: Kind)
    requires Plain(b)
    ensures Lists(Timing.SameBank(cfg, Activate), b, BankSpacing(cfg, Activate, b))
  {
    var lags := Timing.SameBank(cfg, Activate);
    assert lags[0] == (Activate, cfg.TRC()) && lags[5] == (Precharge, cfg.tRAS);
    assert lags[1] == (Read, ActivateToRead(cfg)) && lags[2] == (Write, ActivateToWrite(cfg));
    assert lags[3] == (ReadPrecharge, ActivateToRead(cfg)) && lags[4] == (WritePrecharge, ActivateToWrite(cfg));
  }

  lemma ClosingLists(cfg: Config, a: Kind, b: Kind)
    requires Plain(b) && (a.Precharge? || a.ReadPrecharge? || a.WritePrecharge? || a.RefreshBank?)
    ensures Lists(Timing.SameBank(cfg, a), b, BankSpacing(cfg, a, b))
  {
    var lags := Timing.SameBank(cfg, a);
    if !a.RefreshBank? {
      assert lags[0].0 == Activate && lags[1].0 == Kind.Refresh && lags[2].0 == RefreshBank && lags[3].0 == SrefEnter;
      assert lags[0] in lags && lags[1] in lags && lags[2] in lags;
    }
  }

  lemma BankLists(cfg: Config, a: Kind, b: Kind)
    requires Plain(a) && Plain(b) && a != Kind.Refresh && cfg.bankgroups > 0
    ensures Lists(Timing.SameBank(cfg, a), b, BankSpacing(cfg, a, b))
  {
    hide Lists, Timing.SameBank, BankSpacing;
    if a.Read? || a.Write? {
      OpenBankLists(cfg, a, b);
    } else if a.Activate? {
      ActivateLists(cfg, b);
    } else {
      ClosingLists(cfg, a, b);
    }
  }

  lemma AccessLists(cfg: Config, a: Kind, b: Kind)
    requires a.IsReadWrite() && Plain(b) && cfg.bankgroups > 0
    ensures Lists(OtherBanksSameBankgroup(cfg, a), b, NeighbourSpacing(cfg, a, b, SameGroup))
    ensures Lists(OtherBankgroupsSameRank(cfg, a), b, NeighbourSpacing(cfg, a, b, SameRank))
    ensures Lists(OtherRanks(cfg, a), b, Spacing(cfg, a, b, OtherRank))
  {
    hide Lists, ReadWriteLags;
    NoMore(cfg, a);
    if a.IsRead() {
      ListsAccesses(ReadToReadL(cfg), ReadToWrite(cfg), [], b);
      ListsAccesses(ReadToReadS(cfg), ReadToWrite(cfg), [], b);
      ListsAccesses(ReadToReadO(cfg), ReadToWriteO(cfg), [], b);
    } else {
      ListsAccesses(WriteToReadL(cfg), WriteToWriteL(cfg), [], b);
      ListsAccesses(WriteToReadS(cfg), WriteToWriteS(cfg), [], b);
      ListsAccesses(WriteToReadO(cfg), WriteToWriteO(cfg), [], b);
    }
    if !b.IsReadWrite() {
      EmptyLists(OtherBanksSameBankgroup(cfg, a), b);
      EmptyLists(OtherBankgroupsSameRank(cfg, a), b);
      EmptyLists(OtherRanks(cfg, a), b);
    }
  }

  lemma NoMore(cfg: Config, a: Kind)
    requires a.IsReadWrite()
    ensures OtherBanksSameBankgroup(cfg, a) + [] == OtherBanksSameBankgroup(cfg, a)
    ensures OtherBankgroupsSameRank(cfg, a) + [] == OtherBankgroupsSameRank(cfg, a)
    ensures OtherRanks(cfg, a) + [] == OtherRanks(cfg, a)
  {
  }

  lemma EmptyLists(lags: Lags, b: Kind)
    requires forall x :: (b, x) !in lags
    ensures Lists(lags, b, None)
  {
  }

  lemma RowLists(cfg: Config, a: Kind, b: Kind)
    requires !a.IsReadWrite() && Plain(a) && Plain(b) && a != Kind.Refresh && cfg.bankgroups > 0
    ensures Lists(OtherBanksSameBankgroup(cfg, a), b, NeighbourSpacing(cfg, a, b, SameGroup))
    ensures Lists(OtherBankgroupsSameRank(cfg, a), b, NeighbourSpacing(cfg, a, b, SameRank))
    ensures Lists(OtherRanks(cfg, a), b, None)
  {
    var near, far := OtherBanksSameBankgroup(cfg, a), OtherBankgroupsSameRank(cfg, a);
    if a.Activate? || a.RefreshBank? {
      assert near[0] in near && near[1] in near && far[0] in far && far[1] in far;
    } else if NeedsPPD(cfg) {
      assert near[0] in near && far[0] in far;
    }
  }

  lemma RefreshLists(cfg: Config, b: Kind)
    requires Plain(b)
    ensures Lists(Timing.SameRank(cfg, Kind.Refresh), b, Spacing(cfg, Kind.Refresh, b, SameBank))
  {
    var lags := Timing.SameRank(cfg, Kind.Refresh);
    assert lags[0] in lags && lags[1] in lags;
  }

  /** The table is the named spacings, no more and no less. */
  lemma TableIsNamed(cfg: Config, cmd: Command, id: BankId, b: Kind)
    requires Plain(cmd.kind) && Plain(b) && cfg.bankgroups > 0
    ensures Lists(Applied(MakeTable(cfg), cmd, id), b, Spacing(cfg, cmd.kind, b, RelationTo(cmd, id)))
  {
    hide Lists, Timing.SameBank, OtherBanksSameBankgroup, OtherBankgroupsSameRank, OtherRanks, Timing.SameRank, BankSpacing,
         NeighbourSpacing, AccessSpacing;
    if cmd.kind == Kind.Refresh {
      RefreshLists(cfg, b);
      EmptyLists([], b);
    } else {
      BankLists(cfg, cmd.kind, b);
      if cmd.kind.IsReadWrite() {
        AccessLists(cfg, cmd.kind, b);
      } else {
        RowLists(cfg, cmd.kind, b);
      }
    }
  }

  // ---- when a register has been reached

  /** Every named spacing from the trace to command `k` on bank `id` has elapsed. */
  predicate Elapsed(cfg: Config, tr: seq<Issued>, id: BankId, k: Kind, clk: nat) {
    forall i :: 0 <= i < |tr| ==>
      var d := Spacing(cfg, tr[i].cmd.kind, k, RelationTo(tr[i].cmd, id));
      d.Some? ==> clk >= tr[i].clk + d.value
  }

  lemma RegisterReached(cfg: Config, tr: seq<Issued>, id: BankId, k: Kind, at: nat, clk: nat)
    requires LatestConstraint(MakeTable(cfg), tr, id, k, at) && Plain(k) && cfg.bankgroups > 0
    requires forall i :: 0 <= i < |tr| ==> Plain(tr[i].cmd.kind)
    ensures clk >= at <==> Elapsed(cfg, tr, id, k, clk)
  {
    hide Applied, MakeTable, Spacing, RelationTo;
    forall i | 0 <= i < |tr|
      ensures Lists(Applied(MakeTable(cfg), tr[i].cmd, id), k, Spacing(cfg, tr[i].cmd.kind, k, RelationTo(tr[i].cmd, id)))
    {
      TableIsNamed(cfg, tr[i].cmd, id, k);
    }
    if clk >= at {
      forall i | 0 <= i < |tr|
        ensures var d := Spacing(cfg, tr[i].cmd.kind, k, RelationTo(tr[i].cmd, id)); d.Some? ==> clk >= tr[i].clk + d.value
      {
        assert Lists(Applied(MakeTable(cfg), tr[i].cmd, id), k, Spacing(cfg, tr[i].cmd.kind, k, RelationTo(tr[i].cmd, id)));
      }
    }
    if Elapsed(cfg, tr, id, k, clk) && at > 0 {
      var i, d :| 0 <= i < |tr| && (k, d) in Applied(MakeTable(cfg), tr[i].cmd, id) && at == tr[i].clk + d;
      assert Lists(Applied(MakeTable(cfg), tr[i].cmd, id), k, Spacing(cfg, tr[i].cmd.kind, k, RelationTo(tr[i].cmd, id)));
    }
  }

  /** An activation of `rank` now keeps both activation windows. */
  predicate WindowsAllow(cfg: Config, tr: seq<Issued>, rank: int, clk: nat) {
    && WindowKept(Activations(tr, |tr|, rank), clk, 4, cfg.tFAW)
    && (cfg.IsGDDR() ==> WindowKept(Activations(tr, |tr|, rank), clk, 32, cfg.t32AW))
  }

  lemma WindowReached(window: seq<nat>, acts: seq<nat>, size: nat, width: nat, now: nat)
    requires WindowOk(window, acts, size, width, now) && size > 0
    ensures Channel.WindowReady(window, size, now) <==> WindowKept(acts, now, size, width)
  {
    if |acts| >= size {
      if |window| == size {
        assert window[0] == acts[|acts| - size] + width;
      } else {
        assert acts[|acts| - size] + width <= now;
      }
    }
  }

  // ---- what a queued request may issue

  /** The command the bank of a request needs, by the row the trace leaves open there. */
  function Needed(tr: seq<Issued>, c: Command): Kind {
    match OpenRow(tr, |tr|, c.Target())
    case None => Activate
    case Some(r) => if r == c.addr.row then c.kind else Precharge
  }

  /** The open row may be closed for request `i`: it is the first of its bank, and no request from it on
      wants the open row or four accesses have hit that row. */
  predicate MayClose(tr: seq<Issued>, q: seq<Command>, i: nat)
    requires i < |q|
  {
    var id := q[i].Target();
    && (forall j :: 0 <= j < i ==> q[j].Target() != id)
    && (RowHits(tr, |tr|, id) >= 4
        || forall j :: i <= j < |q| && q[j].Target() == id ==> OpenRow(tr, |tr|, id) != Some(q[j].addr.row))
  }

  /** The addresses agree in all but channel and rank. */
  predicate OneCell(a: Address, b: Address) {
    BankId(0, a.bankgroup, a.bank) == BankId(0, b.bankgroup, b.bank) && (a.row, a.column) == (b.row, b.column)
  }

  /** Whether and what request `i` of a queue may issue at cycle `clk`, by trace, queue and device alone. */
  function Permitted(cfg: Config, tr: seq<Issued>, q: seq<Command>, i: nat, clk: nat): Option<Command>
    requires i < |q|
  {
    var c := q[i];
    var k := Needed(tr, c);
    if Elapsed(cfg, tr, c.Target(), k, clk)
       && (k.Activate? ==> WindowsAllow(cfg, tr, c.addr.rank, clk))
       && (k.Precharge? ==> MayClose(tr, q, i))
       && (k.IsWrite() ==> forall j :: 0 <= j < i && q[j].kind.IsRead() ==> !OneCell(q[j].addr, c.addr))
    then Some(Command(k, c.addr, c.hex)) else None
  }

  lemma TraceIsPlain(cfg: Config, tm: Table, tr: seq<Issued>)
    requires TraceOk(cfg, tm, tr)
    ensures forall i :: 0 <= i < |tr| ==> Plain(tr[i].cmd.kind)
  {
    hide Spaced, FollowsProtocol, KeepsWindows;
    forall i | 0 <= i < |tr| ensures Plain(tr[i].cmd.kind) {
      assert EventOk(cfg, tm, tr, i);
    }
  }

  lemma NeededMeaning(b: Bank.State, tr: seq<Issued>, c: Command)
    requires MachineOk(b, tr, c.Target()) && c.kind.IsReadWrite()
    ensures Bank.RequiredKind(b, c) == Some(Needed(tr, c)) && Plain(Needed(tr, c))
    ensures Needed(tr, c).Precharge? ==> b.row == OpenRow(tr, |tr|, c.Target()).value && b.hits == RowHits(tr, |tr|, c.Target())
  {
  }

  lemma ReadyIffPermitted(cfg: Config, s: State, c: Command)
    requires cfg.Valid() && Inv(cfg, MakeTable(cfg), s) && c.kind.IsReadWrite() && cfg.InRange(c.Target())
    ensures var k := Needed(s.trace, c);
      Channel.ReadyCommand(cfg, s.ch, c, s.clk)
      == if Elapsed(cfg, s.trace, c.Target(), k, s.clk) && (k.Activate? ==> WindowsAllow(cfg, s.trace, c.addr.rank, s.clk))
         then Some(Command(k, c.addr, c.hex)) else None
  {
    hide TraceOk, LatestConstraint, WantedOk, TraceUseOk, Conserved, RefreshOk, MakeTable, Elapsed, Needed, MachineOk, WindowOk,
         Channel.WindowReady, WindowKept, Bank.RequiredKind, Activations;
    var tm, id, k := MakeTable(cfg), c.Target(), Needed(s.trace, c);
    var b := s.ch.banks[id];
    assert RegistersOk(tm, b, s.trace, id) && MachineOk(b, s.trace, id);
    NeededMeaning(b, s.trace, c);
    TraceIsPlain(cfg, tm, s.trace);
    RegisterReached(cfg, s.trace, id, k, b.at[k], s.clk);
    var rank := c.addr.rank;
    assert WindowsOk(cfg, s.ch, s.trace, s.clk, rank);
    WindowReached(s.ch.fourAW[rank], Activations(s.trace, |s.trace|, rank), 4, cfg.tFAW, s.clk);
    if cfg.IsGDDR() {
      WindowReached(s.ch.thirtyTwoAW[rank], Activations(s.trace, |s.trace|, rank), 32, cfg.t32AW, s.clk);
    }
  }

  lemma ClosePermitted(cfg: Config, s: State, q: seq<Command>, i: nat)
    requires i < |q| && q[i].Target() in s.ch.banks && Needed(s.trace, q[i]).Precharge?
    requires MachineOk(s.ch.banks[q[i].Target()], s.trace, q[i].Target()) && q[i].kind.IsReadWrite()
    ensures Queues.MayPrecharge(s.ch, q, i) <==> MayClose(s.trace, q, i)
  {
    var id := q[i].Target();
    NeededMeaning(s.ch.banks[id], s.trace, q[i]);
    var row := s.ch.banks[id].row;
    hide Needed, MachineOk, OpenRow, RowHits;
    assert Queues.RowWanted(q, i, id, row) <==> exists j :: i <= j < |q| && q[j].Target() == id && q[j].addr.row == row;
  }

  lemma InvMachine(cfg: Config, s: State, c: Command)
    requires cfg.Valid() && Inv(cfg, MakeTable(cfg), s) && cfg.InRange(c.Target())
    ensures c.Target() in s.ch.banks && MachineOk(s.ch.banks[c.Target()], s.trace, c.Target())
  {
    hide TraceOk, RegistersOk, WantedOk, TraceUseOk, Conserved, RefreshOk, WindowsOk, MachineOk;
  }

  /** What the controller lets a queued request issue is what trace, queue and device permit. */
  lemma EligibleIsPermitted(cfg: Config, s: State, q: seq<Command>, i: nat)
    requires cfg.Valid() && Inv(cfg, MakeTable(cfg), s) && i < |q| && q[i].kind.IsReadWrite() && cfg.InRange(q[i].Target())
    ensures Queues.Eligible(cfg, s.ch, q, i, s.clk) == Permitted(cfg, s.trace, q, i, s.clk)
  {
    hide Inv, MachineOk, Elapsed, WindowsAllow, Channel.ReadyCommand, Queues.MayPrecharge, MayClose, Needed;
    ReadyIffPermitted(cfg, s, q[i]);
    InvMachine(cfg, s, q[i]);
    if Needed(s.trace, q[i]).Precharge? {
      ClosePermitted(cfg, s, q, i);
    }
  }

  // ---- on every run

  lemma QueuedInRange(cfg: Config, s: State, qi: nat, j: nat)
    requires cfg.Valid() && Inv(cfg, MakeTable(cfg), s) && qi < |s.cq.queues| && j < |s.cq.queues[qi]|
    ensures var c := s.cq.queues[qi][j]; c.kind.IsReadWrite() && cfg.InRange(c.Target())
  {
    hide ChannelOk, WantedOk, TraceUseOk, Conserved, RefreshOk, WaitingOk, OrderOk, DeskOk;
    assert IsQueued(cfg, s.cq.queues[qi][j], qi);
    var c := s.cq.queues[qi][j];
    assert cfg.InRange(Command(Read, cfg.decode(c.hex), c.hex).Target());
  }

  /** On every run a queued request may issue exactly what the trace so far, its queue and the device
      parameters permit: the needed command, once every named spacing has elapsed and the windows allow
      it, with the row-hit rule for precharges and the read-before-write rule. */
  lemma RunPermits(cfg: Config, ops: seq<Op>, qi: nat, j: nat)
    requires Sound(cfg)
    requires var s := RunTheorems.After(cfg, ops); qi < |s.cq.queues| && j < |s.cq.queues[qi]|
    ensures var s := RunTheorems.After(cfg, ops);
      Queues.Eligible(cfg, s.ch, s.cq.queues[qi], j, s.clk) == Permitted(cfg, s.trace, s.cq.queues[qi], j, s.clk)
  {
    hide Run, Inv, Queues.Eligible, Permitted;
    EveryRunOk(cfg, ops);
    var s := RunTheorems.After(cfg, ops);
    QueuedInRange(cfg, s, qi, j);
    EligibleIsPermitted(cfg, s, s.cq.queues[qi], j);
  }

  // ---- no idle cycle

  /** Queue `qi` is held back for the refresh at the head of the list. */
  predicate HeldForRefresh(cfg: Config, s: State, qi: nat) {
    s.ch.refreshQ != [] && qi in Queues.RefQueues(cfg, s.ch.refreshQ[0])
  }

  /** The refresh at the head of the list has something to issue, or a request of a queue that is not held
      back has. */
  predicate SomethingToIssue(cfg: Config, s: State) {
    || (s.ch.refreshQ != [] && Channel.ReadyCommand(cfg, s.ch, s.ch.refreshQ[0], s.clk).Some?)
    || exists qi: nat, j: nat ::
         qi < |s.cq.queues| && !HeldForRefresh(cfg, s, qi)
         && j < |s.cq.queues[qi]| && Queues.Eligible(cfg, s.ch, s.cq.queues[qi], j, s.clk).Some?
  }

  /** The queues are tried with the right ones held back. */
  predicate HoldsRight(cfg: Config, s: State) {
    && s.cq.idx < |s.cq.queues| && s.cq.clk == s.clk
    && forall qi :: 0 <= qi < |s.cq.queues| ==> (Queues.Skipped(s.cq, qi) <==> HeldForRefresh(cfg, s, qi))
  }

  lemma FetchFinds(cfg: Config, s: State)
    requires HoldsRight(cfg, s)
    ensures Fetch(cfg, s).0.Some? <==> exists qi: nat, j: nat ::
      qi < |s.cq.queues| && !HeldForRefresh(cfg, s, qi)
      && j < |s.cq.queues[qi]| && Queues.Eligible(cfg, s.ch, s.cq.queues[qi], j, s.clk).Some?
  {
    hide Queues.Eligible, Queues.RefQueues, Queues.Pick, Queues.Turn;
    if Fetch(cfg, s).0.Some? {
      var qi, j := PickedFrom(cfg, s);
      assert !HeldForRefresh(cfg, s, qi) && Queues.Eligible(cfg, s.ch, s.cq.queues[qi], j, s.clk).Some?;
    } else {
      FetchNone(cfg, s);
      forall qi: nat, j: nat | qi < |s.cq.queues| && j < |s.cq.queues[qi]|
        ensures !HeldForRefresh(cfg, s, qi) ==> Queues.Eligible(cfg, s.ch, s.cq.queues[qi], j, s.clk).None?
      {
        var n := Queues.TurnsCoverAll(s.cq, qi);
        assert Queues.NoOffer(cfg, s.ch, s.cq, Queues.Turn(s.cq, n));
      }
    }
  }

  lemma InvHoldsRight(cfg: Config, s: State)
    requires Inv(cfg, MakeTable(cfg), s)
    ensures s.ch.refreshQ == [] ==> HoldsRight(cfg, s)
    ensures (s.ch.refreshQ != [] && Channel.ReadyCommand(cfg, s.ch, s.ch.refreshQ[0], s.clk).None?)
            ==> HoldsRight(cfg, s.(cq := Queues.FinishRefresh(cfg, s.ch, s.cq).1))
  {
    hide ChannelOk, DeskInv, WantedOk, TraceUseOk, Conserved, Channel.ReadyCommand, Queues.RefQueues;
  }

  /** What is chosen in a cycle: something if and only if something may be issued. */
  lemma ChooseFinds(cfg: Config, s: State)
    requires Inv(cfg, MakeTable(cfg), s)
    ensures Choose(cfg, s).0.Some? <==> SomethingToIssue(cfg, s)
  {
    hide DeskInv, WantedOk, TraceUseOk, Conserved, ChannelOk, Channel.ReadyCommand, Queues.RefQueues, Fetch, Queues.Eligible, HoldsRight;
    InvHoldsRight(cfg, s);
    if s.ch.refreshQ == [] {
      FetchFinds(cfg, s);
    } else if Channel.ReadyCommand(cfg, s.ch, s.ch.refreshQ[0], s.clk).None? {
      FetchFinds(cfg, s.(cq := Queues.FinishRefresh(cfg, s.ch, s.cq).1));
    }
  }

  lemma ServeExtends(cfg: Config, tm: Table, s: State)
    ensures |Serve(cfg, tm, s).trace| > |s.trace| <==> Choose(cfg, s).0.Some?
  {
    var (cmd, s1) := Choose(cfg, s);
    assert s1.trace == s.trace;
    hide Choose, IssueCommand, SecondCommand;
    if cmd.Some? {
      IssuedIsLast(cfg, tm, s1, cmd.value);
      SecondGrowsTrace(cfg, tm, IssueCommand(cfg, tm, s1, cmd.value), cmd.value);
    }
  }

  /** A controller issues a command in every cycle in which something may be issued, and only then. */
  lemma NoIdleCycle(cfg: Config, ops: seq<Op>)
    requires Sound(cfg)
    ensures var s := RunTheorems.After(cfg, ops);
      |Tick(cfg, MakeTable(cfg), s).trace| > |s.trace| <==> SomethingToIssue(cfg, RefreshStep(cfg, s))
  {
    hide Run, Inv, Serve, Schedule, SomethingToIssue, Choose, RefreshStep;
    EveryRunOk(cfg, ops);
    var s := RunTheorems.After(cfg, ops);
    var s1 := RefreshStep(cfg, s);
    RefreshStepKeepsInv(cfg, MakeTable(cfg), s);
    StepKeepsTrace(cfg, s);
    ChooseFinds(cfg, s1);
    ServeExtends(cfg, MakeTable(cfg), s1);
    ScheduleKeepsRest(cfg, Serve(cfg, MakeTable(cfg), s1));
  }

  lemma StepKeepsTrace(cfg: Config, s: State)
    requires cfg.ranks > 0 && cfg.RefreshInterval() > 0
    ensures RefreshStep(cfg, s).trace == s.trace && RefreshStep(cfg, s).cq == s.cq && RefreshStep(cfg, s).clk == s.clk
  {
  }
}
