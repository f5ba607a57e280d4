/** A run on which dual issue loses a read: HBM2 timings, two ranks.  A write and a read of the other rank
    become ready in the same cycle; the write is issued and the read is erased without being issued. */
module LostRead {
  import opened Types
  import opened Timing
  import opened Trace
  import opened Control
  import opened Bookkeeping
  import opened DeskInvariant
  import opened ChannelRun
  import opened ControllerInvariant
  import opened ControllerSteps
  import opened ControllerRuns
  import opened Devices
  import Bank
  import Channel
  import Queues
  import RefreshBound
  import RunTheorems

  /** Any address mapping, with two reads of rank 1 (in different bank groups) and a write of rank 0. */
  datatype Scene = Scene(decode: nat -> Address, r1: nat, r2: nat, w: nat) {
    /** Two ranks of HBM2_4Gb_x128 with one command queue per rank and a unified transaction queue. */
    function Cfg(): Config { Hbm2(decode, 2).(perRankQueues := true, unifiedQueue := true) }

    ghost predicate Valid() {
      && Cfg().DecodesInto()
      && decode(r1) == Address(decode(r1).channel, 1, 0, 0, 0, decode(r1).column)
      && decode(r2) == Address(decode(r2).channel, 1, 1, 0, 0, decode(r2).column)
      && decode(w) == Address(decode(w).channel, 0, 0, 0, 0, decode(w).column)
    }

    function First(): Command { Command(Read, decode(r1), r1) }
    function Second(): Command { Command(Read, decode(r2), r2) }
    function Store(): Command { Command(Write, decode(w), w) }
    function Open(c: Command): Command { Command(Activate, c.addr, c.hex) }
  }

  /** What matters of a state: clocks, queues, waiting transactions and the commands issued so far. */
  datatype Look = Look(
    clk: nat, planClk: nat, idx: nat, q0: seq<Command>, q1: seq<Command>, waiting: seq<Transaction>,
    log: seq<(Command, nat)>)

  predicate Logged(tr: seq<Issued>, log: seq<(Command, nat)>) {
    |tr| == |log| && forall i :: 0 <= i < |log| ==> tr[i].cmd == log[i].0 && tr[i].clk == log[i].1
  }

  ghost predicate Shows(x: Scene, s: State, v: Look) {
    && Inv(x.Cfg(), MakeTable(x.Cfg()), s)
    && s.clk == v.clk && s.rf.clk == v.planClk && s.ch.refreshQ == []
    && s.cq.idx == v.idx && s.cq.queues == [v.q0, v.q1] && s.desk.unifiedQ == v.waiting
    && Logged(s.trace, v.log)
  }

  lemma SceneIsValid(x: Scene)
    requires x.Valid()
    ensures x.Cfg().Valid() && x.Cfg().DualCmd() && x.Cfg().RefreshInterval() == 1950
  {
  }

  // ---- reading the banks off the log

  /** The row that the log leaves open in a bank. */
  function RowOpen(log: seq<(Command, nat)>, id: BankId): Option<int> {
    if log == [] then None
    else
      var c := log[|log|-1].0;
      if c.kind.Activate? && c.Target() == id then Some(c.addr.row)
      else if (c.kind.ReadPrecharge? || c.kind.WritePrecharge? || c.kind.Precharge?) && c.Target() == id then None
      else RowOpen(log[..|log|-1], id)
  }

  lemma {:induction false} RowOfLog(tr: seq<Issued>, log: seq<(Command, nat)>, k: nat, id: BankId)
    requires Logged(tr, log) && k <= |log|
    ensures OpenRow(tr, k, id) == RowOpen(log[..k], id)
  {
    if k > 0 {
      RowOfLog(tr, log, k - 1, id);
      assert log[..k][..k-1] == log[..k-1];
    }
  }

  /** The command a request needs, given the open row of its bank. */
  function Needs(log: seq<(Command, nat)>, c: Command): Kind {
    match RowOpen(log, c.Target())
    case None => Activate
    case Some(r) => if r == c.addr.row then c.kind else Precharge
  }

  /** The latest cycle to which the log holds back command `k` on bank `id`. */
  ghost predicate HeldTo(cfg: Config, log: seq<(Command, nat)>, id: BankId, k: Kind, clk: int) {
    exists i, d :: 0 <= i < |log| && (k, d) in Applied(MakeTable(cfg), log[i].0, id) && log[i].1 + d >= clk
  }

  ghost predicate FreeAt(cfg: Config, log: seq<(Command, nat)>, id: BankId, k: Kind, clk: int) {
    forall i, d :: 0 <= i < |log| && (k, d) in Applied(MakeTable(cfg), log[i].0, id) ==> log[i].1 + d <= clk
  }

  lemma BankReading(x: Scene, s: State, v: Look, c: Command)
    requires x.Valid() && Shows(x, s, v) && x.Cfg().InRange(c.Target()) && c.kind.IsReadWrite()
    ensures c.Target() in s.ch.banks
    ensures var b := s.ch.banks[c.Target()];
      && Bank.RequiredKind(b, c) == Some(Needs(v.log, c))
      && LatestConstraint(MakeTable(x.Cfg()), s.trace, c.Target(), Needs(v.log, c), b.at[Needs(v.log, c)])
  {
    hide TraceOk, LatestConstraint, WantedOk, TraceUseOk, Conserved, RefreshOk, MakeTable;
    var id := c.Target();
    SceneIsValid(x);
    assert RegistersOk(MakeTable(x.Cfg()), s.ch.banks[id], s.trace, id) && MachineOk(s.ch.banks[id], s.trace, id);
    RowOfLog(s.trace, v.log, |v.log|, id);
    assert v.log[..|v.log|] == v.log;
  }

  lemma HeldRegister(cfg: Config, tr: seq<Issued>, log: seq<(Command, nat)>, id: BankId, k: Kind, at: nat, clk: nat)
    requires LatestConstraint(MakeTable(cfg), tr, id, k, at) && Logged(tr, log)
    ensures HeldTo(cfg, log, id, k, clk + 1) ==> at > clk
    ensures FreeAt(cfg, log, id, k, clk) ==> at <= clk
  {
    hide Applied, MakeTable;
    if HeldTo(cfg, log, id, k, clk + 1) {
      var i, d :| 0 <= i < |log| && (k, d) in Applied(MakeTable(cfg), log[i].0, id) && log[i].1 + d >= clk + 1;
      assert (k, d) in Applied(MakeTable(cfg), tr[i].cmd, id);
    }
    if FreeAt(cfg, log, id, k, clk) && at > 0 {
      var i, d :| 0 <= i < |tr| && (k, d) in Applied(MakeTable(cfg), tr[i].cmd, id) && at == tr[i].clk + d;
      assert (k, d) in Applied(MakeTable(cfg), log[i].0, id);
    }
  }

  lemma ReadyOf(cfg: Config, ch: Channel.State, c: Command, clk: nat, k: Kind)
    requires c.kind.IsReadWrite() && c.Target() in ch.banks && Bank.RequiredKind(ch.banks[c.Target()], c) == Some(k)
    ensures Channel.ReadyCommand(cfg, ch, c, clk)
         == if clk < ch.banks[c.Target()].at[k] || (k.Activate? && !Channel.ActivationWindowOk(cfg, ch, c.addr.rank, clk))
            then None else Some(Command(k, c.addr, c.hex))
  {
    hide Channel.ActivationWindowOk, Bank.RequiredKind;
  }

  lemma NotReady(x: Scene, s: State, v: Look, c: Command)
    requires x.Valid() && Shows(x, s, v) && x.Cfg().InRange(c.Target()) && c.kind.IsReadWrite()
    requires HeldTo(x.Cfg(), v.log, c.Target(), Needs(v.log, c), v.clk + 1)
    ensures Channel.ReadyCommand(x.Cfg(), s.ch, c, s.clk).None?
  {
    hide *;
    ShownClock(x, s, v);
    BankReading(x, s, v, c);
    var k := Needs(v.log, c);
    HeldRegister(x.Cfg(), s.trace, v.log, c.Target(), k, s.ch.banks[c.Target()].at[k], v.clk);
    ReadyOf(x.Cfg(), s.ch, c, s.clk, k);
  }

  lemma IsReady(x: Scene, s: State, v: Look, c: Command)
    requires x.Valid() && Shows(x, s, v) && x.Cfg().InRange(c.Target()) && c.kind.IsReadWrite()
    requires FreeAt(x.Cfg(), v.log, c.Target(), Needs(v.log, c), v.clk)
    requires Needs(v.log, c).Activate? ==> |v.log| < 4
    ensures Channel.ReadyCommand(x.Cfg(), s.ch, c, s.clk) == Some(Command(Needs(v.log, c), c.addr, c.hex))
  {
    hide *;
    ShownClock(x, s, v);
    BankReading(x, s, v, c);
    var k := Needs(v.log, c);
    if k.Activate? {
      WindowFree(x, s, v, c.addr.rank);
    }
    HeldRegister(x.Cfg(), s.trace, v.log, c.Target(), k, s.ch.banks[c.Target()].at[k], v.clk);
    ReadyOf(x.Cfg(), s.ch, c, s.clk, k);
  }

  lemma ShownClock(x: Scene, s: State, v: Look)
    requires Shows(x, s, v)
    ensures s.clk == v.clk && Logged(s.trace, v.log)
  {
  }

  lemma {:induction false} FewActivations(tr: seq<Issued>, k: nat, rank: int)
    requires k <= |tr|
    ensures |Activations(tr, k, rank)| <= k
  {
    if k > 0 {
      FewActivations(tr, k - 1, rank);
    }
  }

  lemma WindowFree(x: Scene, s: State, v: Look, rank: int)
    requires x.Valid() && Shows(x, s, v) && |v.log| < 4
    ensures Channel.ActivationWindowOk(x.Cfg(), s.ch, rank, s.clk)
  {
    hide TraceOk, RegistersOk, MachineOk, WantedOk, TraceUseOk, Conserved, RefreshOk, MakeTable;
    FewActivations(s.trace, |s.trace|, rank);
    SceneIsValid(x);
    assert 0 <= rank < 2 ==> WindowsOk(x.Cfg(), s.ch, s.trace, s.clk, rank);
  }

  // ---- fetching from two queues

  function Queue(v: Look, i: nat): seq<Command> {
    if i == 0 then v.q0 else v.q1
  }

  function WithQueue(v: Look, i: nat, q: seq<Command>): Look {
    if i == 0 then v.(q0 := q) else v.(q1 := q)
  }

  /** What queue `i` offers. */
  ghost function Offered(x: Scene, s: State, v: Look, i: nat): Option<Command> {
    Queues.FirstReady(x.Cfg(), s.ch, Queue(v, i), s.clk, 0)
  }

  lemma PickOfTwo(x: Scene, s: State, v: Look)
    requires Shows(x, s, v) && v.idx < 2
    ensures var (cmd, st) := Queues.Pick(x.Cfg(), s.ch, s.cq, 2);
      if Offered(x, s, v, 1 - v.idx).Some? then cmd == Offered(x, s, v, 1 - v.idx) && st == s.cq.(idx := 1 - v.idx)
      else cmd == Offered(x, s, v, v.idx) && st == s.cq
  {
    hide ChannelOk, WantedOk, TraceUseOk, Conserved, Queues.FirstReady, DeskInv;
    var st1 := s.cq.(idx := 1 - v.idx);
    assert !s.cq.inRef && s.cq.clk == s.clk;
    assert Queues.NextIndex(s.cq) == 1 - v.idx && Queues.NextIndex(st1) == v.idx && st1.(idx := v.idx) == s.cq;
    assert s.cq.queues[v.idx] == Queue(v, v.idx) && s.cq.queues[1 - v.idx] == Queue(v, 1 - v.idx);
    assert Queues.Pick(x.Cfg(), s.ch, s.cq, 0) == (None, s.cq);
    assert Queues.Pick(x.Cfg(), s.ch, st1, 1) == (Offered(x, s, v, v.idx), s.cq);
  }

  /** The queue a command was fetched from, if any. */
  ghost function Chosen(x: Scene, s: State, v: Look): nat
    requires v.idx < 2
  {
    if Offered(x, s, v, 1 - v.idx).Some? then 1 - v.idx else v.idx
  }

  lemma NothingFetched(x: Scene, s: State, v: Look)
    requires Shows(x, s, v) && v.idx < 2 && Offered(x, s, v, 0).None? && Offered(x, s, v, 1).None?
    ensures Fetch(x.Cfg(), s) == (None, s)
  {
    hide Queues.Pick, Offered;
    PickOfTwo(x, s, v);
    NotHalted(x, s, v);
  }

  lemma NotHalted(x: Scene, s: State, v: Look)
    requires Shows(x, s, v)
    ensures !s.halted && |s.cq.queues| == 2
  {
  }

  /** A row command stays in its queue as a request. */
  lemma RowFetched(x: Scene, s: State, v: Look, c: Command)
    requires Shows(x, s, v) && v.idx < 2 && Offered(x, s, v, Chosen(x, s, v)) == Some(c) && !c.kind.IsReadWrite()
    ensures Fetch(x.Cfg(), s) == (Some(c), s.(cq := s.cq.(idx := Chosen(x, s, v))))
  {
    hide Queues.Pick, Offered, Inv;
    PickOfTwo(x, s, v);
    NotHalted(x, s, v);
  }

  /** An access at the head of its queue is erased. */
  lemma AccessFetched(x: Scene, s: State, v: Look, c: Command)
    requires Shows(x, s, v) && v.idx < 2 && Offered(x, s, v, Chosen(x, s, v)) == Some(c) && c.kind.IsReadWrite()
    requires c.addr.rank == Chosen(x, s, v) && Queue(v, Chosen(x, s, v)) != [] && Queue(v, Chosen(x, s, v))[0] == c
    ensures var i := Chosen(x, s, v);
      Fetch(x.Cfg(), s) == (Some(c), s.(cq := s.cq.(idx := i, queues := s.cq.queues[i := Queue(v, i)[1..]])))
  {
    hide Queues.Pick, Offered, Inv;
    PickOfTwo(x, s, v);
    NotHalted(x, s, v);
    var i := Chosen(x, s, v);
    assert s.cq.queues[i] == Queue(v, i) && Queues.QueueIndex(x.Cfg(), c.Target()) == i;
    assert c in Queue(v, i) && Queues.Matches(c, c);
    assert Queues.WithoutMatch(Queue(v, i), c) == Queue(v, i)[1..];
  }

  // ---- what a queue offers

  lemma EmptyOffers(x: Scene, s: State, v: Look, i: nat)
    requires Queue(v, i) == []
    ensures Offered(x, s, v, i).None?
  {
  }

  lemma OneOffers(x: Scene, s: State, v: Look, i: nat, c: Command)
    requires Queue(v, i) == [c]
    ensures Channel.ReadyCommand(x.Cfg(), s.ch, c, s.clk).None? ==> Offered(x, s, v, i).None?
    ensures var r := Channel.ReadyCommand(x.Cfg(), s.ch, c, s.clk);
      r.Some? && !r.value.kind.Precharge? ==> Offered(x, s, v, i) == r
  {
    hide Channel.ReadyCommand;
    assert Queues.FirstReady(x.Cfg(), s.ch, [c], s.clk, 1).None?;
  }

  lemma HeadOffers(x: Scene, s: State, v: Look, i: nat, c: Command)
    requires Queue(v, i) != [] && Queue(v, i)[0] == c && c.kind.Read?
    requires Channel.ReadyCommand(x.Cfg(), s.ch, c, s.clk) == Some(c)
    ensures Offered(x, s, v, i) == Some(c)
  {
    hide Channel.ReadyCommand;
  }

  // ---- the parts of a cycle

  /** The refresh scheduler only counts during the first cycles. */
  lemma StartCycle(x: Scene, s: State, v: Look)
    requires x.Valid() && Shows(x, s, v) && v.planClk == v.clk < 100
    ensures x.Cfg().ranks > 0 && x.Cfg().RefreshInterval() > 0
    ensures Shows(x, RefreshStep(x.Cfg(), s), v.(planClk := v.clk + 1))
  {
    hide Inv, RefreshStep, Config.RefreshInterval, Scene.Cfg, Scene.Valid;
    SceneIsValid(x);
    RefreshStepKeepsInv(x.Cfg(), MakeTable(x.Cfg()), s);
    NothingDue(x.Cfg(), s);
  }

  lemma NothingDue(cfg: Config, s: State)
    requires cfg.ranks > 0 && cfg.RefreshInterval() == 1950 && s.rf.clk < 100
    ensures RefreshStep(cfg, s) == s.(rf := s.rf.(clk := s.rf.clk + 1))
  {
    hide Config.RefreshInterval;
    assert s.rf.clk > 0 ==> s.rf.clk % 1950 == s.rf.clk;
    assert s.ch.refreshQ + [] == s.ch.refreshQ;
  }

  lemma IssueShape(cfg: Config, tm: Table, s: State, c: Command)
    requires !c.kind.IsRefresh()
    ensures var t := IssueCommand(cfg, tm, s, c);
      && t.cq == s.cq && t.rf == s.rf && t.clk == s.clk && t.desk.unifiedQ == s.desk.unifiedQ
      && t.ch.refreshQ == s.ch.refreshQ && t.trace == s.trace + [Event(s, c)]
  {
  }

  /** The state after a fetched command has been issued. */
  lemma IssuedShows(x: Scene, s: State, v: Look, c: Command, s1: State, v1: Look)
    requires x.Valid() && Shows(x, s, v) && Fetch(x.Cfg(), s) == (Some(c), s1) && !c.kind.IsRefresh()
    requires s1 == s.(cq := s1.cq) && s1.cq.idx == v1.idx && s1.cq.queues == [v1.q0, v1.q1]
    requires v1 == v.(idx := v1.idx, q0 := v1.q0, q1 := v1.q1, log := v.log + [(c, v.clk)])
    ensures Shows(x, IssueCommand(x.Cfg(), MakeTable(x.Cfg()), s1, c), v1)
  {
    hide Inv, Fetch, IssueCommand, Scene.Cfg, Scene.Valid;
    SceneIsValid(x);
    IssueFromQueue(x.Cfg(), MakeTable(x.Cfg()), s);
    IssueShape(x.Cfg(), MakeTable(x.Cfg()), s1, c);
  }

  lemma ServeShape(x: Scene, s: State, v: Look)
    requires x.Valid() && Shows(x, s, v)
    ensures var (c, s1) := Fetch(x.Cfg(), s);
      Serve(x.Cfg(), MakeTable(x.Cfg()), s)
      == if c.None? then s1
         else SecondCommand(x.Cfg(), MakeTable(x.Cfg()), IssueCommand(x.Cfg(), MakeTable(x.Cfg()), s1, c.value), c.value)
  {
    hide Inv, Fetch, IssueCommand, SecondCommand;
    SceneIsValid(x);
  }

  lemma QuietServe(x: Scene, s: State, v: Look)
    requires x.Valid() && Shows(x, s, v) && v.idx < 2 && Offered(x, s, v, 0).None? && Offered(x, s, v, 1).None?
    ensures Serve(x.Cfg(), MakeTable(x.Cfg()), s) == s
  {
    hide *;
    NothingFetched(x, s, v);
    ServeShape(x, s, v);
  }

  lemma QuietSecond(x: Scene, s: State, v: Look, first: Command)
    requires Shows(x, s, v) && v.idx < 2 && Offered(x, s, v, 0).None? && Offered(x, s, v, 1).None?
    ensures SecondCommand(x.Cfg(), MakeTable(x.Cfg()), s, first) == s
  {
    NothingFetched(x, s, v);
    hide Inv, Fetch, Offered, IssueCommand;
  }

  /** The look after the first waiting transaction has become a queued command. */
  function Scheduled(x: Scene, v: Look): Look {
    if v.waiting == [] then v
    else
      var c := ToCommand(x.Cfg(), v.waiting[0]);
      WithQueue(v, if c.addr.rank == 0 then 0 else 1, Queue(v, if c.addr.rank == 0 then 0 else 1) + [c]).(waiting := v.waiting[1..])
  }

  lemma EndCycle(x: Scene, s: State, v: Look)
    requires x.Valid() && Shows(x, s, v) && |v.q0| < 8 && |v.q1| < 8
    ensures Shows(x, AdvanceClocks(Schedule(x.Cfg(), s)), Scheduled(x, v).(clk := v.clk + 1))
  {
    var cfg := x.Cfg();
    SceneIsValid(x);
    ScheduleKeepsInv(cfg, MakeTable(cfg), s);
    ClockKeepsInv(cfg, MakeTable(cfg), Schedule(cfg, s));
    RefreshBound.ScheduleKeepsRest(cfg, s);
    ScheduleShape(x, s, v);
    hide Inv, Schedule;
  }

  lemma ScheduleShape(x: Scene, s: State, v: Look)
    requires x.Valid() && s.cq.queues == [v.q0, v.q1] && s.desk.unifiedQ == v.waiting && |v.q0| < 8 && |v.q1| < 8
    ensures var t := Schedule(x.Cfg(), s); var u := Scheduled(x, v);
      && t.cq.queues == [u.q0, u.q1] && t.desk.unifiedQ == u.waiting && t.rf == s.rf && t.cq.idx == s.cq.idx
      && u.log == v.log && u.idx == v.idx && u.planClk == v.planClk
  {
    if v.waiting != [] {
      var c := ToCommand(x.Cfg(), v.waiting[0]);
      SceneIsValid(x);
      assert x.Cfg().InRange(Command(Read, x.Cfg().decode(v.waiting[0].addr), v.waiting[0].addr).Target());
      assert Queues.QueueIndex(x.Cfg(), c.Target()) == c.addr.rank;
      assert FirstAccepted(x.Cfg(), s.cq, v.waiting, 0) == 0;
      assert v.waiting[..0] + v.waiting[1..] == v.waiting[1..];
    }
  }

  /** A cycle, given what its service does. */
  lemma CycleShows(x: Scene, s: State, v: Look, v1: Look)
    requires x.Valid() && Shows(x, s, v) && v.planClk == v.clk < 100 && |v1.q0| < 8 && |v1.q1| < 8 && v1.clk == v.clk
    requires x.Cfg().ranks > 0 && x.Cfg().RefreshInterval() > 0
    requires Shows(x, Serve(x.Cfg(), MakeTable(x.Cfg()), RefreshStep(x.Cfg(), s)), v1)
    ensures Shows(x, Tick(x.Cfg(), MakeTable(x.Cfg()), s), Scheduled(x, v1).(clk := v.clk + 1))
  {
    hide Shows, Serve, Schedule, AdvanceClocks, RefreshStep, Config.RefreshInterval, Scheduled;
    EndCycle(x, Serve(x.Cfg(), MakeTable(x.Cfg()), RefreshStep(x.Cfg(), s)), v1);
  }

  // ---- the log, step by step

  function OpenedOne(x: Scene): seq<(Command, nat)> { [(x.Open(x.First()), 1)] }
  function OpenedTwo(x: Scene): seq<(Command, nat)> { OpenedOne(x) + [(x.Open(x.Store()), 2)] }
  function FirstRead(x: Scene): seq<(Command, nat)> { OpenedTwo(x) + [(x.First(), 15)] }
  function OpenedThree(x: Scene): seq<(Command, nat)> { FirstRead(x) + [(x.Open(x.Second()), 15)] }
  function Stored(x: Scene): seq<(Command, nat)> { OpenedThree(x) + [(x.Store(), 29)] }

  lemma RowNext(log: seq<(Command, nat)>, c: Command, clk: nat, id: BankId)
    ensures RowOpen(log + [(c, clk)], id)
         == if c.kind.Activate? && c.Target() == id then Some(c.addr.row)
            else if (c.kind.ReadPrecharge? || c.kind.WritePrecharge? || c.kind.Precharge?) && c.Target() == id then None
            else RowOpen(log, id)
  {
    assert (log + [(c, clk)])[..|log|] == log;
  }

  /** Which rows are open after each step. */
  lemma Rows(x: Scene, id: BankId)
    requires x.Valid()
    ensures var (b0, b1, a0) := (x.First().Target(), x.Second().Target(), x.Store().Target());
      && RowOpen(OpenedOne(x), id) == (if id == b0 then Some(0) else None)
      && RowOpen(OpenedTwo(x), id) == (if id == b0 || id == a0 then Some(0) else None)
      && RowOpen(FirstRead(x), id) == RowOpen(OpenedTwo(x), id)
      && RowOpen(OpenedThree(x), id) == (if id == b1 then Some(0) else RowOpen(OpenedTwo(x), id))
      && RowOpen(Stored(x), id) == RowOpen(OpenedThree(x), id)
  {
    hide RowOpen;
    RowNext([], x.Open(x.First()), 1, id);
    assert [] + [(x.Open(x.First()), 1)] == OpenedOne(x);
    NoRow(id);
    RowNext(OpenedOne(x), x.Open(x.Store()), 2, id);
    RowNext(OpenedTwo(x), x.First(), 15, id);
    RowNext(FirstRead(x), x.Open(x.Second()), 15, id);
    RowNext(OpenedThree(x), x.Store(), 29, id);
  }

  lemma NoRow(id: BankId)
    ensures RowOpen([], id).None?
  {
  }

  lemma Needed(x: Scene)
    requires x.Valid()
    ensures Needs([], x.First()) == Activate
    ensures Needs(OpenedOne(x), x.First()) == Read && Needs(OpenedOne(x), x.Store()) == Activate
    ensures Needs(OpenedTwo(x), x.First()) == Read && Needs(OpenedTwo(x), x.Store()) == Write
    ensures Needs(FirstRead(x), x.Store()) == Write && Needs(FirstRead(x), x.Second()) == Activate
    ensures Needs(OpenedThree(x), x.Store()) == Write && Needs(OpenedThree(x), x.Second()) == Read
    ensures Needs(Stored(x), x.Second()) == Read
  {
    hide RowOpen, OpenedOne, OpenedTwo, FirstRead, OpenedThree, Stored;
    NoRow(x.First().Target());
    Rows(x, x.First().Target());
    Rows(x, x.Second().Target());
    Rows(x, x.Store().Target());
  }

  /** Spacing `i` of the list that logged command `j` applies holds back. */
  lemma Held(cfg: Config, log: seq<(Command, nat)>, id: BankId, k: Kind, clk: int, j: nat, i: nat)
    requires j < |log| && i < |Applied(MakeTable(cfg), log[j].0, id)|
    requires Applied(MakeTable(cfg), log[j].0, id)[i].0 == k && log[j].1 + Applied(MakeTable(cfg), log[j].0, id)[i].1 >= clk
    ensures HeldTo(cfg, log, id, k, clk)
  {
    var lag := Applied(MakeTable(cfg), log[j].0, id)[i];
    assert (k, lag.1) in Applied(MakeTable(cfg), log[j].0, id);
  }

  /** The spacings that decide each cycle. */
  lemma EarlyHolds(x: Scene)
    requires x.Valid()
    ensures HeldTo(x.Cfg(), OpenedOne(x), x.First().Target(), Read, 15)
    ensures FreeAt(x.Cfg(), OpenedOne(x), x.Store().Target(), Activate, 2)
    ensures HeldTo(x.Cfg(), OpenedTwo(x), x.First().Target(), Read, 15)
    ensures HeldTo(x.Cfg(), OpenedTwo(x), x.Store().Target(), Write, 16)
    ensures FreeAt(x.Cfg(), OpenedTwo(x), x.First().Target(), Read, 15)
  {
    Held(x.Cfg(), OpenedOne(x), x.First().Target(), Read, 15, 0, 1);
    Held(x.Cfg(), OpenedTwo(x), x.First().Target(), Read, 15, 0, 1);
    Held(x.Cfg(), OpenedTwo(x), x.Store().Target(), Write, 16, 1, 2);
  }

  lemma MiddleHolds(x: Scene)
    requires x.Valid()
    ensures HeldTo(x.Cfg(), FirstRead(x), x.Store().Target(), Write, 29)
    ensures FreeAt(x.Cfg(), FirstRead(x), x.Second().Target(), Activate, 15)
  {
    Held(x.Cfg(), FirstRead(x), x.Store().Target(), Write, 29, 2, 1);
  }

  lemma FreeNext(cfg: Config, log: seq<(Command, nat)>, c: Command, t: nat, id: BankId, k: Kind, clk: int)
    requires FreeAt(cfg, log, id, k, clk) && forall d :: (k, d) in Applied(MakeTable(cfg), c, id) ==> t + d <= clk
    ensures FreeAt(cfg, log + [(c, t)], id, k, clk)
  {
    hide Applied, MakeTable;
    var more := log + [(c, t)];
    forall i, d | 0 <= i < |more| && (k, d) in Applied(MakeTable(cfg), more[i].0, id) ensures more[i].1 + d <= clk {
      assert i < |log| ==> more[i] == log[i];
    }
  }

  lemma LateHolds(x: Scene)
    requires x.Valid()
    ensures HeldTo(x.Cfg(), OpenedThree(x), x.Store().Target(), Write, 29)
    ensures HeldTo(x.Cfg(), OpenedThree(x), x.Second().Target(), Read, 29)
  {
    Held(x.Cfg(), OpenedThree(x), x.Store().Target(), Write, 29, 2, 1);
    Held(x.Cfg(), OpenedThree(x), x.Second().Target(), Read, 29, 3, 1);
    hide HeldTo;
  }

  lemma StoreIsFree(x: Scene)
    requires x.Valid()
    ensures FreeAt(x.Cfg(), OpenedThree(x), x.Store().Target(), Write, 29)
  {
    hide FreeAt;
    var cfg, id := x.Cfg(), x.Store().Target();
    NothingHeld(cfg, id, Write, 29);
    FreeNext(cfg, [], x.Open(x.First()), 1, id, Write, 29);
    assert [] + [(x.Open(x.First()), 1)] == OpenedOne(x);
    FreeNext(cfg, OpenedOne(x), x.Open(x.Store()), 2, id, Write, 29);
    FreeNext(cfg, OpenedTwo(x), x.First(), 15, id, Write, 29);
    FreeNext(cfg, FirstRead(x), x.Open(x.Second()), 15, id, Write, 29);
  }

  lemma NothingHeld(cfg: Config, id: BankId, k: Kind, clk: int)
    ensures FreeAt(cfg, [], id, k, clk)
  {
  }

  /** The write does not hold back the read of the other rank: its spacing is negative. */
  lemma MeetingPoint(x: Scene)
    requires x.Valid()
    ensures FreeAt(x.Cfg(), Stored(x), x.Second().Target(), Read, 29)
  {
    hide FreeAt;
    var cfg, id := x.Cfg(), x.Second().Target();
    NothingHeld(cfg, id, Read, 29);
    FreeNext(cfg, [], x.Open(x.First()), 1, id, Read, 29);
    assert [] + [(x.Open(x.First()), 1)] == OpenedOne(x);
    FreeNext(cfg, OpenedOne(x), x.Open(x.Store()), 2, id, Read, 29);
    FreeNext(cfg, OpenedTwo(x), x.First(), 15, id, Read, 29);
    FreeNext(cfg, FirstRead(x), x.Open(x.Second()), 15, id, Read, 29);
    FreeNext(cfg, OpenedThree(x), x.Store(), 29, id, Read, 29);
  }

  // ---- the cycles of the run

  ghost function Cyc(x: Scene, s: State): State
    requires x.Valid()
  {
    SceneIsValid(x);
    Tick(x.Cfg(), MakeTable(x.Cfg()), s)
  }

  function Read1(x: Scene): Transaction { Transaction(x.r1, 0, 0, false) }
  function Read2(x: Scene): Transaction { Transaction(x.r2, 14, 0, false) }
  function Write1(x: Scene): Transaction { Transaction(x.w, 0, 0, true) }

  function Submitted(x: Scene): Look { Look(0, 0, 0, [], [], [Read1(x), Write1(x)], []) }
  function Queued(x: Scene): Look { Look(1, 1, 0, [], [x.First()], [Write1(x)], []) }
  function Opening(x: Scene): Look { Look(2, 2, 1, [x.Store()], [x.First()], [], OpenedOne(x)) }
  function Early(x: Scene, n: nat): Look { Look(n, n, 0, [x.Store()], [x.First()], [], OpenedTwo(x)) }
  function Joined(x: Scene): Look { Look(15, 15, 0, [x.Store()], [x.First(), x.Second()], [], OpenedTwo(x)) }
  function Late(x: Scene, n: nat): Look { Look(n, n, 1, [x.Store()], [x.Second()], [], OpenedThree(x)) }

  lemma TheCommands(x: Scene)
    requires x.Valid()
    ensures ToCommand(x.Cfg(), Read1(x)) == x.First() && ToCommand(x.Cfg(), Read2(x)) == x.Second()
    ensures ToCommand(x.Cfg(), Write1(x)) == x.Store()
    ensures x.First().addr.rank == x.Second().addr.rank == 1 && x.Store().addr.rank == 0
    ensures forall c :: c in {x.First(), x.Second(), x.Store()} ==> x.Cfg().InRange(c.Target()) && c.kind.IsReadWrite()
  {
  }

  lemma SilentQueue(x: Scene, s: State, v: Look, i: nat, c: Command)
    requires x.Valid() && Shows(x, s, v) && Queue(v, i) == [c] && x.Cfg().InRange(c.Target()) && c.kind.IsReadWrite()
    requires HeldTo(x.Cfg(), v.log, c.Target(), Needs(v.log, c), v.clk + 1)
    ensures Offered(x, s, v, i).None?
  {
    hide *;
    NotReady(x, s, v, c);
    OneOffers(x, s, v, i, c);
  }

  lemma ReadyQueue(x: Scene, s: State, v: Look, i: nat, c: Command)
    requires x.Valid() && Shows(x, s, v) && Queue(v, i) == [c] && x.Cfg().InRange(c.Target()) && c.kind.IsReadWrite()
    requires FreeAt(x.Cfg(), v.log, c.Target(), Needs(v.log, c), v.clk) && !Needs(v.log, c).Precharge?
    requires Needs(v.log, c).Activate? ==> |v.log| < 4
    ensures Offered(x, s, v, i) == Some(Command(Needs(v.log, c), c.addr, c.hex))
  {
    hide *;
    IsReady(x, s, v, c);
    OneOffers(x, s, v, i, c);
  }

  lemma HeldLess(cfg: Config, log: seq<(Command, nat)>, id: BankId, k: Kind, clk: int, less: int)
    requires HeldTo(cfg, log, id, k, clk) && less <= clk
    ensures HeldTo(cfg, log, id, k, less)
  {
    hide Applied, MakeTable;
    var i, d :| 0 <= i < |log| && (k, d) in Applied(MakeTable(cfg), log[i].0, id) && log[i].1 + d >= clk;
    assert (k, d) in Applied(MakeTable(cfg), log[i].0, id) && log[i].1 + d >= less;
  }

  /** A cycle in which no queue offers anything. */
  lemma QuietCycle(x: Scene, s: State, v: Look)
    requires x.Valid() && Shows(x, s, v) && v.planClk == v.clk < 100 && v.idx < 2 && |v.q0| < 8 && |v.q1| < 8
    requires x.Cfg().ranks > 0 && x.Cfg().RefreshInterval() > 0
    requires var (s1, v1) := (RefreshStep(x.Cfg(), s), v.(planClk := v.clk + 1));
      Offered(x, s1, v1, 0).None? && Offered(x, s1, v1, 1).None?
    ensures Shows(x, Tick(x.Cfg(), MakeTable(x.Cfg()), s), Scheduled(x, v.(planClk := v.clk + 1)).(clk := v.clk + 1))
  {
    hide *;
    StartCycle(x, s, v);
    var s1, v1 := RefreshStep(x.Cfg(), s), v.(planClk := v.clk + 1);
    QuietServe(x, s1, v1);
    CycleShows(x, s, v, v1);
  }

  /** Cycle 0: nothing to serve; the first read is queued. */
  lemma CycleZero(x: Scene, s: State)
    requires x.Valid() && Shows(x, s, Submitted(x))
    ensures Shows(x, Cyc(x, s), Queued(x))
  {
    hide Shows, Scene.Cfg, Scene.Valid, RefreshStep, Tick, Config.RefreshInterval, Offered;
    SceneIsValid(x);
    TheCommands(x);
    var v := Submitted(x);
    StartCycle(x, s, v);
    EmptyOffers(x, RefreshStep(x.Cfg(), s), v.(planClk := 1), 0);
    EmptyOffers(x, RefreshStep(x.Cfg(), s), v.(planClk := 1), 1);
    QuietCycle(x, s, v);
    assert Scheduled(x, v.(planClk := 1)).(clk := 1) == Queued(x);
  }

  /** A cycle that opens the row of the request `c` in queue `i` and nothing else. */
  lemma OpeningCycle(x: Scene, s: State, v: Look, i: nat, c: Command)
    requires x.Valid() && Shows(x, s, v) && v.planClk == v.clk < 100 && v.idx < 2 && |v.q0| < 8 && |v.q1| < 8
    requires x.Cfg().ranks > 0 && x.Cfg().RefreshInterval() > 0
    requires i == 1 - v.idx && Queue(v, i) == [c] && x.Cfg().InRange(c.Target()) && c.kind.IsReadWrite()
    requires Needs(v.log, c) == Activate && FreeAt(x.Cfg(), v.log, c.Target(), Activate, v.clk) && |v.log| < 4
    requires forall s2 :: Shows(x, s2, Opened(x, v, i, c)) ==>
      Offered(x, s2, Opened(x, v, i, c), 0).None? && Offered(x, s2, Opened(x, v, i, c), 1).None?
    ensures Shows(x, Tick(x.Cfg(), MakeTable(x.Cfg()), s), Scheduled(x, Opened(x, v, i, c)).(clk := v.clk + 1))
  {
    hide Shows, Offered, Needs, FreeAt, Scene.Cfg, Scene.Valid, RefreshStep, Serve, Tick, Fetch, IssueCommand, Config.RefreshInterval,
         Scheduled, SecondCommand;
    StartCycle(x, s, v);
    var s1, v1 := RefreshStep(x.Cfg(), s), v.(planClk := v.clk + 1);
    ReadyQueue(x, s1, v1, i, c);
    assert Chosen(x, s1, v1) == i;
    RowFetched(x, s1, v1, x.Open(c));
    var s2 := s1.(cq := s1.cq.(idx := i));
    ShownQueues(x, s1, v1);
    IssuedShows(x, s1, v1, x.Open(c), s2, Opened(x, v, i, c));
    var s3 := IssueCommand(x.Cfg(), MakeTable(x.Cfg()), s2, x.Open(c));
    QuietSecond(x, s3, Opened(x, v, i, c), x.Open(c));
    ServeShape(x, s1, v1);
    CycleShows(x, s, v, Opened(x, v, i, c));
  }

  function Opened(x: Scene, v: Look, i: nat, c: Command): Look {
    v.(planClk := v.clk + 1, idx := i, log := v.log + [(x.Open(c), v.clk)])
  }

  lemma ShownQueues(x: Scene, s: State, v: Look)
    requires Shows(x, s, v)
    ensures s.cq.queues == [v.q0, v.q1]
  {
  }

  /** Cycle 1: the bank of the first read is opened, the write is queued. */
  lemma CycleOne(x: Scene, s: State)
    requires x.Valid() && Shows(x, s, Queued(x))
    ensures Shows(x, Cyc(x, s), Opening(x))
  {
    hide Shows, Scene.Cfg, Scene.Valid, Tick, Config.RefreshInterval, Offered, Needs, HeldTo, FreeAt;
    SceneIsValid(x);
    TheCommands(x);
    Needed(x);
    EarlyHolds(x);
    NothingHeld(x.Cfg(), x.First().Target(), Activate, 1);
    var v, c := Queued(x), x.First();
    var u := Opened(x, v, 1, c);
    assert u.log == OpenedOne(x);
    HeldLess(x.Cfg(), u.log, c.Target(), Read, 15, 2);
    forall s2 | Shows(x, s2, u) ensures Offered(x, s2, u, 0).None? && Offered(x, s2, u, 1).None? {
      EmptyOffers(x, s2, u, 0);
      SilentQueue(x, s2, u, 1, c);
    }
    OpeningCycle(x, s, v, 1, c);
    assert Scheduled(x, u).(clk := 2) == Opening(x);
  }

  /** Cycle 2: the bank of the write is opened. */
  lemma CycleTwo(x: Scene, s: State)
    requires x.Valid() && Shows(x, s, Opening(x))
    ensures Shows(x, Cyc(x, s), Early(x, 3))
  {
    hide Shows, Scene.Cfg, Scene.Valid, Tick, Config.RefreshInterval, Offered, Needs, HeldTo, FreeAt;
    SceneIsValid(x);
    TheCommands(x);
    Needed(x);
    EarlyHolds(x);
    var v, c := Opening(x), x.Store();
    var u := Opened(x, v, 0, c);
    assert u.log == OpenedTwo(x);
    HeldLess(x.Cfg(), u.log, x.First().Target(), Read, 15, 3);
    HeldLess(x.Cfg(), u.log, c.Target(), Write, 16, 3);
    forall s2 | Shows(x, s2, u) ensures Offered(x, s2, u, 0).None? && Offered(x, s2, u, 1).None? {
      SilentQueue(x, s2, u, 0, c);
      SilentQueue(x, s2, u, 1, x.First());
    }
    OpeningCycle(x, s, v, 0, c);
    assert Scheduled(x, u).(clk := 3) == Early(x, 3);
  }

  /** Cycles 3 to 14: both requests wait for their rows; a waiting transaction is queued meanwhile. */
  lemma EarlyCycle(x: Scene, s: State, n: nat, waiting: seq<Transaction>)
    requires x.Valid() && 3 <= n <= 14 && Shows(x, s, Early(x, n).(waiting := waiting))
    ensures Shows(x, Cyc(x, s), Scheduled(x, Early(x, n + 1).(waiting := waiting)))
  {
    hide Shows, Scene.Cfg, Scene.Valid, Tick, Config.RefreshInterval, Offered, Needs, HeldTo, FreeAt, RefreshStep;
    SceneIsValid(x);
    TheCommands(x);
    Needed(x);
    EarlyHolds(x);
    var v := Early(x, n).(waiting := waiting);
    var v1 := v.(planClk := n + 1);
    HeldLess(x.Cfg(), v.log, x.First().Target(), Read, 15, n + 1);
    HeldLess(x.Cfg(), v.log, x.Store().Target(), Write, 16, n + 1);
    StartCycle(x, s, v);
    SilentQueue(x, RefreshStep(x.Cfg(), s), v1, 0, x.Store());
    SilentQueue(x, RefreshStep(x.Cfg(), s), v1, 1, x.First());
    QuietCycle(x, s, v);
  }

  /** Cycles 16 to 28: the write waits for the turnaround, the second read for its row. */
  lemma LateCycle(x: Scene, s: State, n: nat)
    requires x.Valid() && 16 <= n <= 28 && Shows(x, s, Late(x, n))
    ensures Shows(x, Cyc(x, s), Late(x, n + 1))
  {
    hide Shows, Scene.Cfg, Scene.Valid, Tick, Config.RefreshInterval, Offered, Needs, HeldTo, FreeAt, RefreshStep;
    SceneIsValid(x);
    TheCommands(x);
    Needed(x);
    LateHolds(x);
    var v := Late(x, n);
    var v1 := v.(planClk := n + 1);
    HeldLess(x.Cfg(), v.log, x.Second().Target(), Read, 29, n + 1);
    HeldLess(x.Cfg(), v.log, x.Store().Target(), Write, 29, n + 1);
    StartCycle(x, s, v);
    SilentQueue(x, RefreshStep(x.Cfg(), s), v1, 0, x.Store());
    SilentQueue(x, RefreshStep(x.Cfg(), s), v1, 1, x.Second());
    QuietCycle(x, s, v);
  }

  /** Cycle 15: the first read issues, and the bank of the second read is opened in the same cycle. */
  lemma CycleFifteen(x: Scene, s: State)
    requires x.Valid() && Shows(x, s, Joined(x))
    ensures Shows(x, Cyc(x, s), Late(x, 16))
  {
    hide Shows, Scene.Cfg, Scene.Valid, Tick, Config.RefreshInterval, Offered, Needs, HeldTo, FreeAt, RefreshStep, Serve, Fetch,
         IssueCommand, SecondCommand;
    SceneIsValid(x);
    TheCommands(x);
    var v := Joined(x);
    var v1 := v.(planClk := 16);
    StartCycle(x, s, v);
    var s1 := RefreshStep(x.Cfg(), s);
    FirstReadIssues(x, s1, v1);
    var s2 := IssueCommand(x.Cfg(), MakeTable(x.Cfg()), Fetch(x.Cfg(), s1).1, x.First());
    SecondRowOpens(x, s2);
    ServeShape(x, s1, v1);
    CycleShows(x, s, v, Late(x, 15).(planClk := 16));
  }

  function ReadDone(x: Scene): Look { Look(15, 16, 1, [x.Store()], [x.Second()], [], FirstRead(x)) }

  lemma FirstReadIssues(x: Scene, s: State, v: Look)
    requires x.Valid() && Shows(x, s, v) && v == Joined(x).(planClk := 16)
    ensures Fetch(x.Cfg(), s).0 == Some(x.First())
    ensures Shows(x, IssueCommand(x.Cfg(), MakeTable(x.Cfg()), Fetch(x.Cfg(), s).1, x.First()), ReadDone(x))
  {
    hide Shows, Scene.Cfg, Scene.Valid, Offered, Needs, HeldTo, FreeAt, Fetch, IssueCommand;
    TheCommands(x);
    Needed(x);
    EarlyHolds(x);
    IsReady(x, s, v, x.First());
    HeadOffers(x, s, v, 1, x.First());
    assert Chosen(x, s, v) == 1;
    AccessFetched(x, s, v, x.First());
    ShownQueues(x, s, v);
    IssuedShows(x, s, v, x.First(), Fetch(x.Cfg(), s).1, ReadDone(x));
  }

  lemma SecondRowOpens(x: Scene, s: State)
    requires x.Valid() && Shows(x, s, ReadDone(x))
    ensures Shows(x, SecondCommand(x.Cfg(), MakeTable(x.Cfg()), s, x.First()), Late(x, 15).(planClk := 16))
  {
    hide Shows, Scene.Cfg, Scene.Valid, Offered, Needs, HeldTo, FreeAt, Fetch, IssueCommand;
    var v, c := ReadDone(x), x.Second();
    TheCommands(x);
    Needed(x);
    MiddleHolds(x);
    HeldLess(x.Cfg(), v.log, x.Store().Target(), Write, 29, 16);
    SilentQueue(x, s, v, 0, x.Store());
    ReadyQueue(x, s, v, 1, c);
    assert Chosen(x, s, v) == 1;
    RowFetched(x, s, v, x.Open(c));
    ShownQueues(x, s, v);
    IssuedShows(x, s, v, x.Open(c), Fetch(x.Cfg(), s).1, Late(x, 15).(planClk := 16));
  }

  // ---- the loss

  /** The second read is owed, but nothing on its way to the DRAM stands for it and it was never issued. */
  ghost predicate Lost(x: Scene, s: State) {
    && Pending(s.desk, x.r2, false) && Waiting(x.Cfg(), s.cq.queues, s.desk, x.r2, false) == 0
    && (forall k :: 0 <= k < |s.trace| ==> s.trace[k].cmd != x.Second())
  }

  function Met(x: Scene): Look { Look(29, 30, 0, [], [x.Second()], [], Stored(x)) }

  lemma StoreIssues(x: Scene, s: State, v: Look)
    requires x.Valid() && Shows(x, s, v) && v == Late(x, 29).(planClk := 30)
    ensures Fetch(x.Cfg(), s).0 == Some(x.Store())
    ensures Shows(x, IssueCommand(x.Cfg(), MakeTable(x.Cfg()), Fetch(x.Cfg(), s).1, x.Store()), Met(x))
  {
    hide Shows, Scene.Cfg, Scene.Valid, Offered, Needs, HeldTo, FreeAt, Fetch, IssueCommand;
    TheCommands(x);
    Needed(x);
    StoreIsFree(x);
    ReadyQueue(x, s, v, 0, x.Store());
    assert Chosen(x, s, v) == 0;
    AccessFetched(x, s, v, x.Store());
    ShownQueues(x, s, v);
    assert [x.Store()][1..] == [];
    assert [v.q0, v.q1][0 := []] == [[], v.q1];
    IssuedShows(x, s, v, x.Store(), Fetch(x.Cfg(), s).1, Met(x));
  }

  lemma ReadIsFetched(x: Scene, s: State)
    requires x.Valid() && Shows(x, s, Met(x))
    ensures Fetch(x.Cfg(), s).0 == Some(x.Second())
  {
    hide Shows, Scene.Cfg, Scene.Valid, Offered, Needs, HeldTo, FreeAt, Fetch;
    var v := Met(x);
    TheCommands(x);
    Needed(x);
    MeetingPoint(x);
    ReadyQueue(x, s, v, 1, x.Second());
    assert Chosen(x, s, v) == 1;
    AccessFetched(x, s, v, x.Second());
  }

  lemma ReadIsDropped(x: Scene, s: State)
    requires x.Valid() && Shows(x, s, Met(x))
    ensures var s1 := SecondCommand(x.Cfg(), MakeTable(x.Cfg()), s, x.Store());
      Lost(x, s1) && s1.desk.unifiedQ == [] && !Inv(x.Cfg(), MakeTable(x.Cfg()), s1)
  {
    hide Inv, Fetch, Waiting, Pending, IssueCommand;
    ReadIsFetched(x, s);
    SceneIsValid(x);
    LostAccess(x.Cfg(), MakeTable(x.Cfg()), s);
    RefreshBound.FetchKeepsRest(x.Cfg(), s);
    FetchKeepsDesk(x.Cfg(), s);
    NotLogged(x, s.trace);
  }

  lemma FetchKeepsDesk(cfg: Config, s: State)
    ensures Fetch(cfg, s).1.desk == s.desk
  {
  }

  lemma NotLogged(x: Scene, tr: seq<Issued>)
    requires x.Valid() && Logged(tr, Stored(x))
    ensures forall k :: 0 <= k < |tr| ==> tr[k].cmd != x.Second()
  {
    var log := Stored(x);
    assert log[0].0 == x.Open(x.First()) && log[1].0 == x.Open(x.Store()) && log[2].0 == x.First();
    assert log[3].0 == x.Open(x.Second()) && log[4].0 == x.Store();
  }

  lemma NothingScheduled(x: Scene, s: State)
    requires s.desk.unifiedQ == []
    ensures Schedule(x.Cfg(), s) == s
  {
    hide Scene.Valid;
  }

  /** Cycle 29: the write issues, the read is erased. */
  lemma LosingCycle(x: Scene, s: State)
    requires x.Valid() && Shows(x, s, Late(x, 29))
    ensures Lost(x, Cyc(x, s)) && Cyc(x, s).clk == 30
  {
    hide Shows, Scene.Cfg, Scene.Valid, Config.RefreshInterval, RefreshStep, Serve, Fetch, IssueCommand, SecondCommand, Lost,
         Schedule, Inv;
    SceneIsValid(x);
    var v := Late(x, 29);
    var s1, v1 := RefreshStep(x.Cfg(), s), v.(planClk := 30);
    StartCycle(x, s, v);
    StoreIssues(x, s1, v1);
    var s2 := IssueCommand(x.Cfg(), MakeTable(x.Cfg()), Fetch(x.Cfg(), s1).1, x.Store());
    ReadIsDropped(x, s2);
    ServeShape(x, s1, v1);
    var s3 := SecondCommand(x.Cfg(), MakeTable(x.Cfg()), s2, x.Store());
    NothingScheduled(x, s3);
    ShownClock(x, s2, Met(x));
    RefreshBound.SecondKeepsClock(x.Cfg(), MakeTable(x.Cfg()), s2, x.Store());
    ClockKeepsLoss(x, s3);
  }

  lemma ClockKeepsLoss(x: Scene, s: State)
    requires Lost(x, s)
    ensures Lost(x, AdvanceClocks(s))
  {
    hide Waiting, Pending;
  }

  // ---- the whole run

  lemma NotPending(x: Scene, s: State, v: Look, a: nat, w: bool)
    requires x.Valid() && Shows(x, s, v) && (forall t :: t in v.waiting ==> t.addr != a)
    requires (forall c :: c in v.q0 ==> c.hex != a) && (forall c :: c in v.q1 ==> c.hex != a)
    ensures !Pending(s.desk, a, w)
  {
    hide ChannelOk, WantedOk, TraceUseOk, Conserved, RefreshOk, OrderOk, CountTx, CountCmd, Pending, QueuesOk;
    CountTxPositive(s.desk.unifiedQ, a, w);
    CountTxPositive(s.desk.readQ, a, w);
    CountTxPositive(s.desk.writeBuf, a, w);
    CountCmdPositive(v.q0, a, w);
    CountCmdPositive(v.q1, a, w);
    assert Waiting(x.Cfg(), s.cq.queues, s.desk, a, w) == if Pending(s.desk, a, w) then 1 else 0;
  }

  lemma AddShape(cfg: Config, s: State, a: nat, w: bool)
    requires cfg.unifiedQueue && !Pending(s.desk, a, false) && !Pending(s.desk, a, true)
    ensures var t := AddTransaction(cfg, s, a, w);
      && t.desk.unifiedQ == s.desk.unifiedQ + [Transaction(a, s.clk, 0, w)]
      && t.ch == s.ch && t.cq == s.cq && t.rf == s.rf && t.clk == s.clk && t.trace == s.trace
  {
  }

  lemma SubmitShows(x: Scene, s: State, v: Look, a: nat, w: bool)
    requires x.Valid() && Shows(x, s, v) && (forall t :: t in v.waiting ==> t.addr != a) && |v.waiting| < 32
    requires (forall c :: c in v.q0 ==> c.hex != a) && (forall c :: c in v.q1 ==> c.hex != a)
    requires x.Cfg().ranks > 0 && x.Cfg().RefreshInterval() > 0
    ensures Shows(x, Step(x.Cfg(), MakeTable(x.Cfg()), s, Submit(a, w)), v.(waiting := v.waiting + [Transaction(a, v.clk, 0, w)]))
  {
    hide Inv, AddTransaction, Pending, Tick, Config.RefreshInterval;
    NotPending(x, s, v, a, false);
    NotPending(x, s, v, a, true);
    AddShape(x.Cfg(), s, a, w);
    AddKeepsInv(x.Cfg(), MakeTable(x.Cfg()), s, a, w);
  }

  /** The operations up to cycle `n`: a read and a write at the start, the second read before cycle 14. */
  function Script(x: Scene, n: nat): seq<Op> {
    if n == 0 then [Submit(x.r1, false), Submit(x.w, true)]
    else Script(x, n - 1) + (if n - 1 == 14 then [Submit(x.r2, false)] else []) + [Cycle]
  }

  function LookAt(x: Scene, n: nat): Look {
    if n == 0 then Submitted(x) else if n == 1 then Queued(x) else if n == 2 then Opening(x)
    else if n <= 14 then Early(x, n) else if n == 15 then Joined(x) else Late(x, n)
  }

  lemma AfterNext(cfg: Config, ops: seq<Op>, op: Op)
    requires cfg.ranks > 0 && cfg.RefreshInterval() > 0
    ensures RunTheorems.After(cfg, ops + [op]) == Step(cfg, MakeTable(cfg), RunTheorems.After(cfg, ops), op)
  {
    hide Step;
    assert (ops + [op])[..|ops|] == ops;
  }

  lemma Apart(x: Scene)
    requires x.Valid()
    ensures x.r1 != x.r2 && x.r1 != x.w && x.r2 != x.w
  {
  }

  const NOTHING: Look := Look(0, 0, 0, [], [], [], [])

  lemma EmptyShows(x: Scene)
    requires x.Valid()
    ensures x.Cfg().ranks > 0 && x.Cfg().RefreshInterval() > 0
    ensures Shows(x, RunTheorems.After(x.Cfg(), []), NOTHING)
  {
    hide Inv, Config.RefreshInterval;
    SceneIsValid(x);
    InitialInv(x.Cfg(), MakeTable(x.Cfg()));
    assert Queues.Initial(x.Cfg()).queues == [[], []];
  }

  lemma StartShows(x: Scene)
    requires x.Valid()
    ensures x.Cfg().ranks > 0 && x.Cfg().RefreshInterval() > 0
    ensures Shows(x, RunTheorems.After(x.Cfg(), Script(x, 0)), Submitted(x))
  {
    hide Shows, Scene.Cfg, Scene.Valid, RunTheorems.After, Step, Config.RefreshInterval;
    EmptyShows(x);
    Apart(x);
    var cfg, one, two := x.Cfg(), Submit(x.r1, false), Submit(x.w, true);
    assert [] + [one] == [one] && [one] + [two] == Script(x, 0);
    AfterNext(cfg, [], one);
    AfterNext(cfg, [one], two);
    assert NOTHING.waiting + [Read1(x)] == [Read1(x)];
    SubmitShows(x, RunTheorems.After(cfg, []), NOTHING, x.r1, false);
    SubmitShows(x, RunTheorems.After(cfg, [one]), NOTHING.(waiting := [Read1(x)]), x.w, true);
    assert [Read1(x)] + [Write1(x)] == Submitted(x).waiting;
  }

  lemma {:induction false} ScriptShows(x: Scene, n: nat)
    requires x.Valid() && n <= 29
    ensures x.Cfg().ranks > 0 && x.Cfg().RefreshInterval() > 0
    ensures Shows(x, RunTheorems.After(x.Cfg(), Script(x, n)), LookAt(x, n))
  {
    hide Shows, Scene.Cfg, Scene.Valid, RunTheorems.After, Tick, Config.RefreshInterval;
    SceneIsValid(x);
    if n == 0 {
      StartShows(x);
    } else {
      ScriptShows(x, n - 1);
      var s := RunTheorems.After(x.Cfg(), Script(x, n - 1));
      if n == 15 {
        JoinCycle(x, s);
        AfterNext(x.Cfg(), Script(x, 14), Submit(x.r2, false));
        AfterNext(x.Cfg(), Script(x, 14) + [Submit(x.r2, false)], Cycle);
      } else {
        assert Script(x, n) == Script(x, n - 1) + [Cycle];
        AfterNext(x.Cfg(), Script(x, n - 1), Cycle);
        PlainCycle(x, s, n - 1);
      }
    }
  }

  lemma PlainCycle(x: Scene, s: State, n: nat)
    requires x.Valid() && n < 29 && n != 14 && Shows(x, s, LookAt(x, n))
    ensures Shows(x, Cyc(x, s), LookAt(x, n + 1))
  {
    hide Shows, Scene.Cfg, Scene.Valid, Cyc;
    if n == 0 {
      CycleZero(x, s);
    } else if n == 1 {
      CycleOne(x, s);
    } else if n == 2 {
      CycleTwo(x, s);
    } else if n < 14 {
      EarlyCycle(x, s, n, []);
    } else if n == 15 {
      CycleFifteen(x, s);
    } else {
      LateCycle(x, s, n);
    }
  }

  /** Before cycle 14 the second read arrives; the cycle queues it. */
  lemma JoinCycle(x: Scene, s: State)
    requires x.Valid() && Shows(x, s, Early(x, 14)) && x.Cfg().ranks > 0 && x.Cfg().RefreshInterval() > 0
    ensures Shows(x, Cyc(x, Step(x.Cfg(), MakeTable(x.Cfg()), s, Submit(x.r2, false))), Joined(x))
  {
    hide Shows, Scene.Cfg, Scene.Valid, Cyc, Step, Config.RefreshInterval;
    Apart(x);
    TheCommands(x);
    SubmitShows(x, s, Early(x, 14), x.r2, false);
    assert [] + [Read2(x)] == [Read2(x)];
    EarlyCycle(x, Step(x.Cfg(), MakeTable(x.Cfg()), s, Submit(x.r2, false)), 14, [Read2(x)]);
    assert Scheduled(x, Early(x, 15).(waiting := [Read2(x)])) == Joined(x);
  }

  /** The read is lost on a run of thirty cycles and three transactions, on every mapping and for all
      addresses that fit the scene: positive access spacings are not a formality. */
  lemma RunLosesRead(x: Scene)
    requires x.Valid()
    ensures x.Cfg().Valid() && x.Cfg().DualCmd() && Lost(x, RunTheorems.After(x.Cfg(), Script(x, 30)))
  {
    hide Shows, Scene.Cfg, Scene.Valid, RunTheorems.After, Tick, Config.RefreshInterval, Lost;
    SceneIsValid(x);
    ScriptShows(x, 29);
    var s := RunTheorems.After(x.Cfg(), Script(x, 29));
    assert Script(x, 30) == Script(x, 29) + [Cycle];
    AfterNext(x.Cfg(), Script(x, 29), Cycle);
    LosingCycle(x, s);
  }

  /** Such scenes exist. */
  lemma SceneExists()
    ensures var x := Scene((a: nat) => Address(0, if a == 2 then 0 else 1, if a == 1 then 1 else 0, 0, 0, 0), 0, 1, 2);
      x.Valid()
  {
  }
}
