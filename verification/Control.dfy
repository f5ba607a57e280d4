/** The memory controller of one channel as a value, with what each of its operations computes. */
module Control {
  import opened Types
  import opened Timing
  import opened Trace
  import Channel
  import Queues
  import RefreshPlan

  /** Transactions not yet turned into commands, and accepted reads and writes not yet issued. */
  datatype Desk = Desk(
    unifiedQ: seq<Transaction>, readQ: seq<Transaction>, writeBuf: seq<Transaction>,
    pendRd: seq<Transaction>, pendWr: seq<Transaction>)

  /** `trace` is the command trace; `accepted` and `delivered` record the traffic with the outside. */
  datatype State = State(
    ch: Channel.State, cq: Queues.State, rf: RefreshPlan.State, desk: Desk,
    ret: seq<Transaction>, draining: int, clk: nat, halted: bool,
    trace: seq<Issued>, accepted: seq<Transaction>, delivered: seq<Transaction>)

  function Initial(cfg: Config): State {
    State(Channel.Initial(cfg), Queues.Initial(cfg), RefreshPlan.INITIAL, Desk([], [], [], [], []),
          [], 0, 0, false, [], [], [])
  }

  // ---- transaction lists

  predicate HasAddr(q: seq<Transaction>, a: nat) {
    exists t :: t in q && t.addr == a
  }

  function CountAddr(q: seq<Transaction>, a: nat): nat {
    |With(q, a)|
  }

  /** The transactions for address `a`, in order. */
  function With(q: seq<Transaction>, a: nat): seq<Transaction>
    decreases |q|
  {
    if q == [] then [] else (if q[0].addr == a then [q[0]] else []) + With(q[1..], a)
  }

  function Without(q: seq<Transaction>, a: nat): seq<Transaction>
    decreases |q|
  {
    if q == [] then [] else (if q[0].addr == a then [] else [q[0]]) + Without(q[1..], a)
  }

  function RemoveFirst(q: seq<Transaction>, a: nat): seq<Transaction>
    decreases |q|
  {
    if q == [] then [] else if q[0].addr == a then q[1..] else [q[0]] + RemoveFirst(q[1..], a)
  }

  function StampAll(q: seq<Transaction>, done: nat): seq<Transaction> {
    seq(|q|, i requires 0 <= i < |q| => q[i].(complete := done))
  }

  // ---- accepting transactions

  predicate WillAcceptTransaction(cfg: Config, s: State, isWrite: bool) {
    if cfg.unifiedQueue then |s.desk.unifiedQ| < cfg.transQueueSize
    else if !isWrite then |s.desk.readQ| < cfg.transQueueSize
    else |s.desk.writeBuf| < cfg.transQueueSize
  }

  function Enqueue(cfg: Config, d: Desk, t: Transaction): Desk {
    if cfg.unifiedQueue then d.(unifiedQ := d.unifiedQ + [t])
    else if t.isWrite then d.(writeBuf := d.writeBuf + [t])
    else d.(readQ := d.readQ + [t])
  }

  /** A write already pending absorbs a new one; a read of a pending write is answered from it; a read of
      an address with reads pending joins them. */
  function AddTransaction(cfg: Config, s: State, addr: nat, isWrite: bool): State {
    var t := Transaction(addr, s.clk, 0, isWrite);
    var done := t.(complete := s.clk + 1);
    var s1 := s.(accepted := s.accepted + [t]);
    if isWrite then
      var d1 := if HasAddr(s.desk.pendWr, addr) then s.desk
                else Enqueue(cfg, s.desk.(pendWr := s.desk.pendWr + [t]), t);
      s1.(desk := d1, ret := s.ret + [done])
    else if HasAddr(s.desk.pendWr, addr) then s1.(ret := s.ret + [done])
    else
      var d1 := s.desk.(pendRd := s.desk.pendRd + [t]);
      s1.(desk := if HasAddr(s.desk.pendRd, addr) then d1 else Enqueue(cfg, d1, t))
  }

  // ---- returning transactions

  /** First finished transaction at or after position `i`. */
  function FirstDone(ret: seq<Transaction>, clk: nat, i: nat): (r: nat)
    requires i <= |ret|
    ensures i <= r <= |ret|
    decreases |ret| - i
  {
    if i == |ret| || clk >= ret[i].complete then i else FirstDone(ret, clk, i + 1)
  }

  function ReturnDone(s: State, clk: nat): (Option<Transaction>, State) {
    var i := FirstDone(s.ret, clk, 0);
    if i == |s.ret| then (None, s)
    else (Some(s.ret[i]), s.(ret := s.ret[..i] + s.ret[i+1..], delivered := s.delivered + [s.ret[i]]))
  }

  // ---- issuing commands

  /** A read answers every pending read of its address; a write retires its pending write.  Finding none
      is the fatal exit of the source. */
  function Settle(cfg: Config, s: State, cmd: Command): State {
    if cmd.kind.IsRead() then
      var owed := With(s.desk.pendRd, cmd.hex);
      if owed == [] then s.(halted := true)
      else s.(desk := s.desk.(pendRd := Without(s.desk.pendRd, cmd.hex)),
              ret := s.ret + StampAll(owed, s.clk + cfg.ReadDelay()))
    else if cmd.kind.IsWrite() then
      if !HasAddr(s.desk.pendWr, cmd.hex) then s.(halted := true)
      else s.(desk := s.desk.(pendWr := RemoveFirst(s.desk.pendWr, cmd.hex)))
    else s
  }

  function Event(s: State, cmd: Command): Issued {
    Issued(cmd, s.clk, CountAddr(s.desk.pendRd, cmd.hex))
  }

  function IssueCommand(cfg: Config, tm: Table, s: State, cmd: Command): State {
    Settle(cfg, s, cmd).(ch := Channel.Issue(cfg, tm, s.ch, cmd, s.clk), trace := s.trace + [Event(s, cmd)])
  }

  function Fetch(cfg: Config, s: State): (Option<Command>, State) {
    var f := Queues.GetCommand(cfg, s.ch, s.cq);
    (f.cmd, s.(cq := f.st, halted := s.halted || f.lost))
  }

  /** The refresh at the head of the list is served first; otherwise the queues are tried. */
  function Choose(cfg: Config, s: State): (Option<Command>, State) {
    if s.ch.refreshQ == [] then Fetch(cfg, s)
    else
      var (cmd, cq) := Queues.FinishRefresh(cfg, s.ch, s.cq);
      var s1 := s.(cq := cq);
      if cmd.Some? then (cmd, s1) else Fetch(cfg, s1)
  }

  /** The second command of a cycle on devices with separate row and column command buses. */
  function SecondCommand(cfg: Config, tm: Table, s: State, first: Command): State {
    var (cmd, s1) := Fetch(cfg, s);
    if cmd.Some? && cmd.value.kind.IsReadWrite() != first.kind.IsReadWrite()
    then IssueCommand(cfg, tm, s1, cmd.value)
    else s1
  }

  function Serve(cfg: Config, tm: Table, s: State): State {
    var (cmd, s1) := Choose(cfg, s);
    if cmd.None? then s1
    else
      var s2 := IssueCommand(cfg, tm, s1, cmd.value);
      if cfg.DualCmd() then SecondCommand(cfg, tm, s2, cmd.value) else s2
  }

  // ---- turning transactions into commands

  function ToCommand(cfg: Config, t: Transaction): Command {
    Command(cfg.AccessKind(t.isWrite), cfg.decode(t.addr), t.addr)
  }

  function DrainTarget(cfg: Config, s: State): int {
    if s.draining == 0 && !cfg.unifiedQueue
       && (|s.desk.writeBuf| >= cfg.transQueueSize || (|s.desk.writeBuf| > 8 && Queues.Empty(s.cq)))
    then |s.desk.writeBuf| else s.draining
  }

  /** First transaction whose command queue has room. */
  function FirstAccepted(cfg: Config, cq: Queues.State, q: seq<Transaction>, i: nat): (r: nat)
    requires i <= |q|
    ensures i <= r <= |q|
    ensures r < |q| ==> Queues.WillAccept(cfg, cq, ToCommand(cfg, q[r]).Target())
    ensures forall j :: i <= j < r ==> !Queues.WillAccept(cfg, cq, ToCommand(cfg, q[j]).Target())
    decreases |q| - i
  {
    if i == |q| || Queues.WillAccept(cfg, cq, ToCommand(cfg, q[i]).Target()) then i
    else FirstAccepted(cfg, cq, q, i + 1)
  }

  function Selected(cfg: Config, d: Desk, draining: int): seq<Transaction> {
    if cfg.unifiedQueue then d.unifiedQ else if draining > 0 then d.writeBuf else d.readQ
  }

  function WithSelected(cfg: Config, d: Desk, draining: int, q: seq<Transaction>): Desk {
    if cfg.unifiedQueue then d.(unifiedQ := q)
    else if draining > 0 then d.(writeBuf := q) else d.(readQ := q)
  }

  /** Transaction `i` of the selected list becomes a queued command. */
  function MoveOne(cfg: Config, s: State, draining: int, i: nat): State
    requires i < |Selected(cfg, s.desk, draining)|
  {
    var q := Selected(cfg, s.desk, draining);
    s.(draining := if !cfg.unifiedQueue && q[i].isWrite then draining - 1 else draining,
       cq := Queues.Add(cfg, s.cq, ToCommand(cfg, q[i])),
       desk := WithSelected(cfg, s.desk, draining, q[..i] + q[i+1..]))
  }

  function Schedule(cfg: Config, s: State): State {
    var draining := DrainTarget(cfg, s);
    var q := Selected(cfg, s.desk, draining);
    var i := FirstAccepted(cfg, s.cq, q, 0);
    if i == |q| then s.(draining := draining)
    else if !cfg.unifiedQueue && q[i].isWrite && HasAddr(s.desk.pendRd, q[i].addr) then s.(draining := 0)
    else MoveOne(cfg, s, draining, i)
  }

  // ---- one cycle

  function RefreshStep(cfg: Config, s: State): State
    requires cfg.ranks > 0 && cfg.RefreshInterval() > 0
  {
    var (reqs, rf) := RefreshPlan.Tick(cfg, s.rf);
    s.(rf := rf, ch := s.ch.(refreshQ := s.ch.refreshQ + reqs))
  }

  function AdvanceClocks(s: State): State {
    s.(clk := s.clk + 1, cq := s.cq.(clk := s.cq.clk + 1))
  }

  function Tick(cfg: Config, tm: Table, s: State): State
    requires cfg.ranks > 0 && cfg.RefreshInterval() > 0
  {
    AdvanceClocks(Schedule(cfg, Serve(cfg, tm, RefreshStep(cfg, s))))
  }

  // ---- runs

  /** What the outside does to a controller: offer a transaction (refused when its queue is full), let a
      cycle pass, or collect one finished transaction. */
  datatype Op = Submit(addr: nat, isWrite: bool) | Cycle | Collect(clk: nat)

  function Step(cfg: Config, tm: Table, s: State, op: Op): State
    requires cfg.ranks > 0 && cfg.RefreshInterval() > 0
  {
    match op
    case Submit(addr, isWrite) =>
      if WillAcceptTransaction(cfg, s, isWrite) then AddTransaction(cfg, s, addr, isWrite) else s
    case Cycle => Tick(cfg, tm, s)
    case Collect(clk) => ReturnDone(s, clk).1
  }

  function Run(cfg: Config, tm: Table, s: State, ops: seq<Op>): State
    requires cfg.ranks > 0 && cfg.RefreshInterval() > 0
    decreases |ops|
  {
    if ops == [] then s
    else Step(cfg, tm, Run(cfg, tm, s, ops[..|ops| - 1]), ops[|ops| - 1])
  }
}
