/** The invariant of a controller and its preservation by every operation. */
module ControllerInvariant {
  import opened Types
  import opened Timing
  import opened Trace
  import opened Control
  import opened Bookkeeping
  import opened DeskInvariant
  import opened ChannelRun
  import Bank
  import Channel
  import Queues
  import RefreshPlan

  // ---- the invariant

  predicate IsRefreshRequest(cfg: Config, r: Command) {
    && IsRequest(cfg, r) && r.hex == NO_HEX
    && r.kind == RefreshKind(cfg)
  }

  /** Queues are held back exactly while the refresh at the head of the list is being prepared. */
  predicate RefreshOk(cfg: Config, refreshQ: seq<Command>, cq: Queues.State, rf: RefreshPlan.State) {
    && RefreshPlan.InBounds(cfg, rf)
    && (forall i :: 0 <= i < |refreshQ| ==> IsRefreshRequest(cfg, refreshQ[i]))
    && (if cq.inRef then refreshQ != [] && cq.refIdx == Queues.RefQueues(cfg, refreshQ[0]) else cq.refIdx == {})
  }

  predicate Wanted(q: seq<Command>, id: BankId, row: int) {
    exists c :: c in q && c.Target() == id && c.addr.row == row
  }

  predicate BankWanted(cfg: Config, queues: seq<seq<Command>>, id: BankId, b: Bank.State) {
    b.mode.Open? && b.hits == 0 ==>
      var qi := Queues.QueueIndex(cfg, id);
      0 <= qi < |queues| && Wanted(queues[qi], id, b.row)
  }

  /** An open row that served nothing yet still has a queued command. */
  predicate WantedOk(cfg: Config, ch: Channel.State, queues: seq<seq<Command>>) {
    forall id :: id in ch.banks ==> BankWanted(cfg, queues, id, ch.banks[id])
  }

  function RefreshKind(cfg: Config): Kind {
    if cfg.refreshPolicy.BankStaggered? then RefreshBank else Kind.Refresh
  }

  /** A write issues with no read of its address owed, a read with at least one, a precharge made on
      behalf of a queued command closes a row that has been used, and accesses and refreshes follow the
      policies. */
  predicate UseOk(cfg: Config, tr: seq<Issued>, k: nat)
    requires k < |tr|
  {
    && (tr[k].cmd.kind.IsWrite() ==> tr[k].owed == 0)
    && (tr[k].cmd.kind.IsRead() ==> tr[k].owed > 0)
    && (tr[k].cmd.kind.Precharge? && tr[k].cmd.addr.row != -1 ==> RowHits(tr, k, tr[k].cmd.Target()) > 0)
    && (tr[k].cmd.kind.IsRefresh() ==> tr[k].cmd.kind == RefreshKind(cfg))
    && OwnKind(cfg, tr[k])
  }

  predicate TraceUseOk(cfg: Config, tr: seq<Issued>) {
    forall k :: 0 <= k < |tr| ==> UseOk(cfg, tr, k)
  }

  /** Accepted transactions are those delivered, those finished and those reads still pending. */
  predicate Conserved(s: State) {
    Cores(s.accepted) == Cores(s.delivered) + Cores(s.ret) + Cores(s.desk.pendRd)
  }

  ghost predicate Inv(cfg: Config, tm: Table, s: State) {
    && ChannelOk(cfg, tm, s.ch, s.trace, s.clk)
    && s.cq.clk == s.clk && !s.halted && s.cq.idx < |s.cq.queues|
    && RefreshOk(cfg, s.ch.refreshQ, s.cq, s.rf)
    && DeskInv(cfg, s.cq.queues, s.desk)
    && WantedOk(cfg, s.ch, s.cq.queues)
    && TraceUseOk(cfg, s.trace)
    && Conserved(s)
  }

  // ---- fetching from the queues

  lemma QueuedIsRequest(cfg: Config, c: Command, qi: int)
    requires cfg.Valid() && IsQueued(cfg, c, qi)
    ensures IsRequest(cfg, c)
  {
    assert cfg.InRange(Command(Read, cfg.decode(c.hex), c.hex).Target());
  }

  lemma MatchIsSame(cfg: Config, c: Command, cmd: Command, qi: int, qj: int)
    requires IsQueued(cfg, c, qi) && IsQueued(cfg, cmd, qj) && Queues.Matches(c, cmd)
    ensures c == cmd
  {
  }

  /** What a fetched command is: the eligible command of a queued request, erased if it is an access. */
  ghost predicate FetchedFrom(cfg: Config, s: State, cmd: Command, s1: State, qi: nat, j: nat, e: nat) {
    && qi < |s.cq.queues| && j < |s.cq.queues[qi]| && e < |s.cq.queues[qi]|
    && !Queues.Skipped(s.cq, qi)
    && Queues.Eligible(cfg, s.ch, s.cq.queues[qi], j, s.cq.clk) == Some(cmd)
    && (cmd.kind.IsReadWrite() ==> s.cq.queues[qi][j] == cmd && s.cq.queues[qi][e] == cmd)
    && s1 == s.(cq := s.cq.(idx := qi,
         queues := if cmd.kind.IsReadWrite() then Removed(s.cq.queues, qi, e) else s.cq.queues))
  }

  /** The part of the invariant that fetching relies on. */
  ghost predicate Fetchable(cfg: Config, s: State) {
    && QueuesOk(cfg, s.cq.queues) && s.cq.idx < |s.cq.queues| && s.cq.clk == s.clk && !s.halted
    && Channel.WellShaped(cfg, s.ch)
    && forall id :: id in s.ch.banks ==> !s.ch.banks[id].mode.Sref?
  }

  lemma InvFetchable(cfg: Config, tm: Table, s: State)
    requires Inv(cfg, tm, s)
    ensures Fetchable(cfg, s)
  {
    NoSref(cfg, tm, s.ch, s.trace, s.clk);
  }

  /** The command picked, and the queue and request it is for: the first turn that brings something. */
  lemma PickedFrom(cfg: Config, s: State) returns (qi: nat, j: nat)
    requires s.cq.idx < |s.cq.queues| && Queues.Pick(cfg, s.ch, s.cq, |s.cq.queues|).0.Some?
    ensures var (cmd, st) := Queues.Pick(cfg, s.ch, s.cq, |s.cq.queues|);
      && qi < |s.cq.queues| && st == s.cq.(idx := qi) && !Queues.Skipped(s.cq, qi)
      && j < |s.cq.queues[qi]| && Queues.Eligible(cfg, s.ch, s.cq.queues[qi], j, s.cq.clk) == cmd
      && IsFirstOffer(cfg, s, qi, j, cmd.value)
  {
    hide Queues.Pick, Queues.Eligible, Queues.Turn, Queues.NoOfferBefore;
    var (cmd, st) := Queues.Pick(cfg, s.ch, s.cq, |s.cq.queues|);
    Queues.PickMeaning(cfg, s.ch, s.cq, |s.cq.queues|);
    var n: nat, k: nat :| n <= |s.cq.queues| && Queues.TurnOffers(cfg, s.ch, s.cq, n, k, cmd.value) && st.idx == Queues.Turn(s.cq, n);
    qi, j := st.idx, k;
  }

  /** Request `j` of queue `qi` comes first: no request before it in its queue and no queue in turn before
      its own could have issued anything. */
  ghost predicate IsFirstOffer(cfg: Config, s: State, qi: nat, j: nat, cmd: Command)
    requires s.cq.idx < |s.cq.queues|
  {
    exists n: nat :: n <= |s.cq.queues| && Queues.TurnOffers(cfg, s.ch, s.cq, n, j, cmd) && qi == Queues.Turn(s.cq, n)
  }

  lemma FetchMeaning(cfg: Config, s: State) returns (qi: nat, j: nat, e: nat)
    requires cfg.Valid() && Fetchable(cfg, s) && Fetch(cfg, s).0.Some?
    ensures FetchedFrom(cfg, s, Fetch(cfg, s).0.value, Fetch(cfg, s).1, qi, j, e)
    ensures IsFirstOffer(cfg, s, qi, j, Fetch(cfg, s).0.value)
  {
    hide Channel.ReadyCommand, Queues.HasMatch, Queues.WithoutMatch, Queues.MayPrecharge, Queues.WaitsForRead, Queues.Pick,
         IsFirstOffer;
    var queues := s.cq.queues;
    var (cmd, st1) := Queues.Pick(cfg, s.ch, s.cq, |queues|);
    qi, j := PickedFrom(cfg, s);
    e := j;
    assert IsQueued(cfg, queues[qi][j], qi);
    if cmd.value.kind.IsReadWrite() {
      ReadyAccess(cfg, s, queues[qi][j], qi, cmd.value);
      e := ErasedAt(cfg, queues[qi], qi, j);
    }
  }

  lemma ErasedAt(cfg: Config, q: seq<Command>, qi: int, j: nat) returns (e: nat)
    requires j < |q| && forall i :: 0 <= i < |q| ==> IsQueued(cfg, q[i], qi)
    ensures Queues.HasMatch(q, q[j]) && e < |q| && q[e] == q[j]
    ensures Queues.WithoutMatch(q, q[j]) == q[..e] + q[e+1..]
  {
    assert Queues.Matches(q[j], q[j]);
    e := Queues.WithoutMatchMeaning(q, q[j]);
    MatchIsSame(cfg, q[e], q[j], qi, qi);
  }

  lemma ReadyAccess(cfg: Config, s: State, req: Command, qi: int, cmd: Command)
    requires cfg.Valid() && Fetchable(cfg, s) && IsQueued(cfg, req, qi)
    requires Channel.ReadyCommand(cfg, s.ch, req, s.clk) == Some(cmd) && cmd.kind.IsReadWrite()
    ensures cmd == req
  {
    QueuedIsRequest(cfg, req, qi);
    ReadyMeaning(cfg, s.ch, req, s.clk, cmd);
  }

  lemma FetchNone(cfg: Config, s: State)
    requires s.cq.idx < |s.cq.queues| && Fetch(cfg, s).0.None?
    ensures Fetch(cfg, s).1 == s.(cq := s.cq.(idx := Fetch(cfg, s).1.cq.idx))
    ensures Fetch(cfg, s).1.cq.idx < |s.cq.queues|
    ensures Queues.NoOfferBefore(cfg, s.ch, s.cq, |s.cq.queues|)
  {
    hide Queues.Pick, Queues.NoOfferBefore, Queues.TurnOffers;
    Queues.PickMeaning(cfg, s.ch, s.cq, |s.cq.queues|);
  }

  // ---- one bank's demand

  lemma RemovedKeeps(q: seq<Command>, j: nat, c: Command)
    requires j < |q| && c in q && c != q[j]
    ensures c in q[..j] + q[j+1..]
  {
    var x :| 0 <= x < |q| && q[x] == c;
    var q' := q[..j] + q[j+1..];
    if x < j {
      assert q'[x] == c;
    } else {
      assert q'[x-1] == c;
    }
  }

  lemma WantedAfterRemoval(cfg: Config, queues: seq<seq<Command>>, qi: nat, j: nat, id: BankId, b: Bank.State)
    requires qi < |queues| && j < |queues[qi]| && BankWanted(cfg, queues, id, b)
    requires queues[qi][j].Target() != id
    ensures BankWanted(cfg, Removed(queues, qi, j), id, b)
  {
    var p := Queues.QueueIndex(cfg, id);
    if b.mode.Open? && b.hits == 0 && p == qi {
      var c :| c in queues[qi] && c.Target() == id && c.addr.row == b.row;
      RemovedKeeps(queues[qi], j, c);
    }
  }

  /** A bank's mode, row and hits after an issued command. */
  lemma BankAfterShape(cfg: Config, tm: Table, b: Bank.State, id: BankId, cmd: Command, clk: nat)
    ensures var b' := Channel.BankAfter(cfg, tm, b, id, cmd, clk);
      var b1 := if Channel.Targets(cfg, cmd, id) then Bank.AfterCommand(b, cmd) else b;
      b'.mode == b1.mode && b'.row == b1.row && b'.hits == b1.hits
  {
  }

  /** Demand after issuing anything but an access: an activation opens a row that `req` wants. */
  lemma WantedAfterRowCommand(cfg: Config, tm: Table, ch: Channel.State, queues: seq<seq<Command>>,
                              cmd: Command, clk: nat, req: Command)
    requires WantedOk(cfg, ch, queues) && !cmd.kind.IsReadWrite()
    requires cmd.kind.Activate? ==> cmd.addr == req.addr
    requires cmd.kind.Activate? ==>
      var qi := Queues.QueueIndex(cfg, req.Target()); 0 <= qi < |queues| && req in queues[qi]
    ensures WantedOk(cfg, Channel.Issue(cfg, tm, ch, cmd, clk), queues)
  {
    hide Channel.BankAfter, Channel.AllAccept, Channel.WindowsAfter, Channel.RefreshQAfter, BankWanted;
    var ch' := Channel.Issue(cfg, tm, ch, cmd, clk);
    forall id | id in ch'.banks ensures BankWanted(cfg, queues, id, ch'.banks[id]) {
      BankWantedAfterRow(cfg, tm, ch.banks[id], queues, cmd, clk, req, id);
    }
  }

  lemma BankWantedAfterRow(cfg: Config, tm: Table, b: Bank.State, queues: seq<seq<Command>>,
                           cmd: Command, clk: nat, req: Command, id: BankId)
    requires BankWanted(cfg, queues, id, b) && !cmd.kind.IsReadWrite()
    requires cmd.kind.Activate? ==> cmd.addr == req.addr
    requires cmd.kind.Activate? ==>
      var qi := Queues.QueueIndex(cfg, req.Target()); 0 <= qi < |queues| && req in queues[qi]
    ensures BankWanted(cfg, queues, id, Channel.BankAfter(cfg, tm, b, id, cmd, clk))
  {
    BankAfterShape(cfg, tm, b, id, cmd, clk);
    hide Queues.QueueIndex, Channel.BankAfter;
    if cmd.kind.Activate? && Channel.Targets(cfg, cmd, id) {
      assert id == req.Target();
    }
  }

  lemma WantedAfterAccess(cfg: Config, tm: Table, ch: Channel.State, queues: seq<seq<Command>>,
                          cmd: Command, clk: nat, qi: nat, e: nat)
    requires WantedOk(cfg, ch, queues) && cmd.kind.IsReadWrite() && cfg.InRange(cmd.Target())
    requires qi < |queues| && e < |queues[qi]| && queues[qi][e] == cmd
    requires cmd.Target() in ch.banks && ch.banks[cmd.Target()].mode.Open?
    ensures WantedOk(cfg, Channel.Issue(cfg, tm, ch, cmd, clk), Removed(queues, qi, e))
  {
    hide Channel.BankAfter, Channel.AllAccept, Channel.WindowsAfter, Channel.RefreshQAfter, BankWanted, Removed;
    var ch' := Channel.Issue(cfg, tm, ch, cmd, clk);
    forall id | id in ch'.banks ensures BankWanted(cfg, Removed(queues, qi, e), id, ch'.banks[id]) {
      BankWantedAfterAccess(cfg, tm, ch.banks[id], queues, cmd, clk, qi, e, id);
    }
  }

  lemma BankWantedAfterAccess(cfg: Config, tm: Table, b: Bank.State, queues: seq<seq<Command>>,
                              cmd: Command, clk: nat, qi: nat, e: nat, id: BankId)
    requires BankWanted(cfg, queues, id, b) && cmd.kind.IsReadWrite() && cfg.InRange(cmd.Target())
    requires qi < |queues| && e < |queues[qi]| && queues[qi][e] == cmd
    requires id == cmd.Target() ==> b.mode.Open?
    ensures BankWanted(cfg, Removed(queues, qi, e), id, Channel.BankAfter(cfg, tm, b, id, cmd, clk))
  {
    BankAfterShape(cfg, tm, b, id, cmd, clk);
    if id != cmd.Target() {
      WantedAfterRemoval(cfg, queues, qi, e, id, b);
    }
  }

  // ---- trace use

  lemma TraceUseExtends(cfg: Config, tr: seq<Issued>, e: Issued)
    requires TraceUseOk(cfg, tr)
    requires e.cmd.kind.IsRefresh() ==> e.cmd.kind == RefreshKind(cfg)
    requires OwnKind(cfg, e)
    requires e.cmd.kind.IsWrite() ==> e.owed == 0
    requires e.cmd.kind.IsRead() ==> e.owed > 0
    requires e.cmd.kind.Precharge? && e.cmd.addr.row != -1 ==> RowHits(tr, |tr|, e.cmd.Target()) > 0
    ensures TraceUseOk(cfg, tr + [e])
  {
    forall k | 0 <= k < |tr| + 1 ensures UseOk(cfg, tr + [e], k) {
      ReadingsOfPrefix(tr, [e], k, (tr + [e])[k].cmd.Target());
      assert k < |tr| ==> UseOk(cfg, tr, k) && (tr + [e])[k] == tr[k];
    }
  }

  /** No wasted activation: a row closed for a queued command has been used. */
  lemma PrechargeIsDeserved(cfg: Config, tm: Table, s: State, qi: nat, j: nat, cmd: Command)
    requires cfg.Valid() && Inv(cfg, tm, s) && qi < |s.cq.queues| && j < |s.cq.queues[qi]|
    requires Queues.Eligible(cfg, s.ch, s.cq.queues[qi], j, s.clk) == Some(cmd) && cmd.kind.Precharge?
    ensures RowHits(s.trace, |s.trace|, cmd.Target()) > 0
  {
    var q := s.cq.queues[qi];
    var req := q[j];
    var id := req.Target();
    assert IsQueued(cfg, req, qi);
    QueuedIsRequest(cfg, req, qi);
    NoSref(cfg, tm, s.ch, s.trace, s.clk);
    ReadyMeaning(cfg, s.ch, req, s.clk, cmd);
    assert Channel.Targets(cfg, cmd, id) && cmd.Target() == id;
    var b := s.ch.banks[id];
    assert MachineOk(b, s.trace, id) && BankWanted(cfg, s.cq.queues, id, b) && b.mode.Open?;
    assert Queues.MayPrecharge(s.ch, q, j);
    if Wanted(q, id, b.row) {
      WantedFrom(q, j, id, b.row);
    }
  }

  lemma WantedFrom(q: seq<Command>, j: nat, id: BankId, row: int)
    requires Wanted(q, id, row) && j <= |q| && forall x :: 0 <= x < j ==> q[x].Target() != id
    ensures Queues.RowWanted(q, j, id, row)
  {
    var c :| c in q && c.Target() == id && c.addr.row == row;
    var x :| 0 <= x < |q| && q[x] == c;
  }
}
