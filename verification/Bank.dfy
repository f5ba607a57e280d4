/** One DRAM bank: the open/closed machine and its earliest-time registers. */
module Bank {
  import opened Types
  import opened Timing

  datatype Mode = Open | Closed | Sref

  /** Earliest cycle at which each command may be issued to the bank. */
  type Registers = m: map<Kind, nat> | forall k: Kind :: k in m
    witness map k: Kind :: 0

  datatype State = State(mode: Mode, row: int, hits: nat, at: Registers)

  const INITIAL: State := State(Closed, -1, 0, map k: Kind :: 0)

  /** The command a request needs next; `None` is the abrupt exit of the source. */
  function RequiredKind(b: State, req: Command): Option<Kind> {
    match b.mode
    case Closed =>
      if req.kind.IsReadWrite() then Some(Activate)
      else if req.kind.IsRefresh() || req.kind.SrefEnter? then Some(req.kind)
      else None
    case Open =>
      if req.kind.IsReadWrite() then Some(if req.addr.row == b.row then req.kind else Precharge)
      else if req.kind.IsRefresh() || req.kind.SrefEnter? then Some(Precharge)
      else None
    case Sref =>
      if req.kind.IsReadWrite() then Some(SrefExit) else None
  }

  function ReadyCommand(b: State, req: Command, clk: nat): Option<Command> {
    match RequiredKind(b, req)
    case None => None
    case Some(k) => if clk >= b.at[k] then Some(Command(k, req.addr, req.hex)) else None
  }

  /** The commands `UpdateState` can absorb; any other is an abrupt exit. */
  predicate Accepts(b: State, k: Kind) {
    match b.mode
    case Open => k.IsReadWrite() || k.Precharge?
    case Closed => k.IsRefresh() || k.Activate? || k.SrefEnter?
    case Sref => k.SrefExit?
  }

  /** State after `cmd`; a command that is not accepted leaves the bank as it is. */
  function AfterCommand(b: State, cmd: Command): (r: State)
    ensures r.at == b.at
  {
    if !Accepts(b, cmd.kind) then b else
    match b.mode
    case Open =>
      if cmd.kind.Read? || cmd.kind.Write? then b.(hits := b.hits + 1)
      else State(Closed, -1, 0, b.at)
    case Closed =>
      if cmd.kind.Activate? then b.(mode := Open, row := cmd.addr.row)
      else if cmd.kind.SrefEnter? then b.(mode := Sref)
      else b
    case Sref => b.(mode := Closed)
  }

  function RaiseRegister(at: Registers, k: Kind, time: int): (r: Registers)
    ensures forall x: Kind :: r[x] == if x == k then Max(at[x], time) else at[x]
  {
    at[k := Max(at[k], time)]
  }

  /** Registers after applying a whole spacing list at cycle `clk`. */
  function RaiseAll(at: Registers, lags: Lags, clk: nat): Registers
    decreases |lags|
  {
    if lags == [] then at
    else
      var last := |lags| - 1;
      RaiseRegister(RaiseAll(at, lags[..last], clk), lags[last].0, clk + lags[last].1)
  }

  function Raise(b: State, lags: Lags, clk: nat): (r: State)
    ensures r.mode == b.mode && r.row == b.row && r.hits == b.hits
  {
    b.(at := RaiseAll(b.at, lags, clk))
  }

  /** `RaiseAll` is a maximum: it bounds the old value and every listed spacing, and is one of them. */
  lemma {:induction false} RaiseAllIsMaximum(at: Registers, lags: Lags, clk: nat, k: Kind)
    ensures RaiseAll(at, lags, clk)[k] >= at[k]
    ensures forall d :: (k, d) in lags ==> RaiseAll(at, lags, clk)[k] >= clk + d
    ensures RaiseAll(at, lags, clk)[k] == at[k]
            || exists d :: (k, d) in lags && RaiseAll(at, lags, clk)[k] == clk + d
    decreases |lags|
  {
    if lags != [] {
      var last := |lags| - 1;
      var init, lag := lags[..last], lags[last];
      RaiseAllIsMaximum(at, init, clk, k);
      MaximumStep(lags, clk, k, at[k], RaiseAll(at, init, clk)[k], RaiseAll(at, lags, clk)[k]);
    }
  }

  lemma MaximumStep(lags: Lags, clk: nat, k: Kind, start: nat, before: nat, after: nat)
    requires lags != []
    requires var init := lags[..|lags|-1];
      before >= start && (forall d :: (k, d) in init ==> before >= clk + d)
      && (before == start || exists d :: (k, d) in init && before == clk + d)
    requires var lag := lags[|lags|-1]; after == if k == lag.0 then Max(before, clk + lag.1) else before
    ensures after >= start && forall d :: (k, d) in lags ==> after >= clk + d
    ensures after == start || exists d :: (k, d) in lags && after == clk + d
  {
    var init, lag := lags[..|lags|-1], lags[|lags|-1];
    assert lags == init + [lag];
    if after != before {
      assert (k, lag.1) in lags;
    } else if before != start {
      var d :| (k, d) in init && before == clk + d;
      assert (k, d) in lags;
    }
  }
}
