/** The state of one channel as a value: banks, refresh requests and activation windows, with what
    the channel operations compute. */
module Channel {
  import opened Types
  import opened Timing
  import Bank

  datatype State = State(
    banks: map<BankId, Bank.State>,
    refreshQ: seq<Command>,
    fourAW: seq<seq<nat>>,
    thirtyTwoAW: seq<seq<nat>>,
    aborted: bool)

  ghost predicate WellShaped(cfg: Config, ch: State) {
    && (forall id: BankId :: id in ch.banks <==> cfg.InRange(id))
    && |ch.fourAW| == |ch.thirtyTwoAW| == cfg.ranks
  }

  predicate InRank(cfg: Config, rank: int, id: BankId) {
    cfg.InRange(id) && id.rank == rank
  }

  /** The banks a command acts on. */
  predicate Targets(cfg: Config, cmd: Command, id: BankId) {
    if cmd.kind.IsRankCmd() then InRank(cfg, cmd.addr.rank, id)
    else cfg.InRange(id) && id == cmd.Target()
  }

  // ---- activation windows

  predicate WindowReady(window: seq<nat>, size: nat, clk: nat) {
    !(|window| > 0 && clk < window[0] && |window| >= size)
  }

  predicate ActivationWindowOk(cfg: Config, ch: State, rank: int, clk: nat) {
    && (0 <= rank < |ch.fourAW| ==> WindowReady(ch.fourAW[rank], 4, clk))
    && (cfg.IsGDDR() && 0 <= rank < |ch.thirtyTwoAW| ==> WindowReady(ch.thirtyTwoAW[rank], 32, clk))
  }

  function PushWindow(window: seq<nat>, clk: nat, width: nat): seq<nat> {
    (if |window| > 0 && clk >= window[0] then window[1..] else window) + [clk + width]
  }

  function AfterActivation(cfg: Config, ch: State, rank: int, clk: nat): State {
    if !(0 <= rank < |ch.fourAW| && rank < |ch.thirtyTwoAW|) then ch
    else
      var ch1 := ch.(fourAW := ch.fourAW[rank := PushWindow(ch.fourAW[rank], clk, cfg.tFAW)]);
      if cfg.IsGDDR() then
        ch1.(thirtyTwoAW := ch1.thirtyTwoAW[rank := PushWindow(ch1.thirtyTwoAW[rank], clk, cfg.t32AW)])
      else ch1
  }

  // ---- what may be issued for a request

  predicate OpenAndReady(ch: State, id: BankId, clk: nat) {
    id in ch.banks && ch.banks[id].mode.Open? && clk >= ch.banks[id].at[Precharge]
  }

  predicate AllBanksReady(cfg: Config, ch: State, req: Command, clk: nat) {
    forall id: BankId :: InRank(cfg, req.addr.rank, id) && id in ch.banks ==>
      Bank.ReadyCommand(ch.banks[id], req, clk) == Some(req)
  }

  /** First bank of a rank, in bank-group then bank order from (g, b), that is not ready as it stands
      but could be precharged now. */
  function FirstToPrecharge(cfg: Config, ch: State, rank: int, clk: nat, g: nat, b: nat): Option<BankId>
    decreases cfg.bankgroups - g, cfg.banksPerGroup - b
  {
    if g >= cfg.bankgroups then None
    else if b >= cfg.banksPerGroup then FirstToPrecharge(cfg, ch, rank, clk, g + 1, 0)
    else if OpenAndReady(ch, BankId(rank, g, b), clk) then Some(BankId(rank, g, b))
    else FirstToPrecharge(cfg, ch, rank, clk, g, b + 1)
  }

  function ReadyCommand(cfg: Config, ch: State, req: Command, clk: nat): Option<Command> {
    if req.kind.IsRankCmd() then
      match FirstToPrecharge(cfg, ch, req.addr.rank, clk, 0, 0)
      case Some(id) =>
        Some(Command(Precharge, Address(-1, id.rank, id.bankgroup, id.bank, -1, -1), req.hex))
      case None => if AllBanksReady(cfg, ch, req, clk) then Some(req) else None
    else if req.Target() !in ch.banks then None
    else
      match Bank.ReadyCommand(ch.banks[req.Target()], req, clk)
      case None => None
      case Some(cmd) =>
        if cmd.kind.Activate? && !ActivationWindowOk(cfg, ch, cmd.addr.rank, clk) then None else Some(cmd)
  }

  // ---- effect of an issued command

  predicate IsFor(c: Command, rank: int, bank: Option<BankId>) {
    c.addr.rank == rank && (bank.Some? ==> c.Target() == bank.value)
  }

  function WithoutFirst(q: seq<Command>, rank: int, bank: Option<BankId>): seq<Command>
    decreases |q|
  {
    if q == [] then []
    else if IsFor(q[0], rank, bank) then q[1..]
    else [q[0]] + WithoutFirst(q[1..], rank, bank)
  }

  predicate AllAccept(cfg: Config, ch: State, cmd: Command) {
    forall id: BankId :: id in ch.banks && Targets(cfg, cmd, id) ==> Bank.Accepts(ch.banks[id], cmd.kind)
  }

  function RefreshQAfter(q: seq<Command>, cmd: Command): seq<Command> {
    if cmd.kind.Refresh? then WithoutFirst(q, cmd.addr.rank, None)
    else if cmd.kind.RefreshBank? then WithoutFirst(q, cmd.addr.rank, Some(cmd.Target()))
    else q
  }

  /** One bank after its part of an issued command: first the machine, then the registers. */
  function BankAfter(cfg: Config, tm: Table, b: Bank.State, id: BankId, cmd: Command, clk: nat): Bank.State {
    Bank.Raise(if Targets(cfg, cmd, id) then Bank.AfterCommand(b, cmd) else b, Applied(tm, cmd, id), clk)
  }

  function WindowsAfter(cfg: Config, ch: State, cmd: Command, clk: nat): State {
    if cmd.kind.Activate? then AfterActivation(cfg, ch, cmd.addr.rank, clk) else ch
  }

  /** The channel after a command is issued at cycle `clk`. */
  function Issue(cfg: Config, tm: Table, ch: State, cmd: Command, clk: nat): State {
    State(
      map id: BankId | id in ch.banks :: BankAfter(cfg, tm, ch.banks[id], id, cmd, clk),
      RefreshQAfter(ch.refreshQ, cmd),
      WindowsAfter(cfg, ch, cmd, clk).fourAW,
      WindowsAfter(cfg, ch, cmd, clk).thirtyTwoAW,
      ch.aborted || !AllAccept(cfg, ch, cmd))
  }

  function Initial(cfg: Config): State {
    State(map id: BankId | id in AllBanks(cfg) :: Bank.INITIAL, [],
          seq(cfg.ranks, _ => []), seq(cfg.ranks, _ => []), false)
  }

  function AllBanks(cfg: Config): (s: set<BankId>)
    ensures forall id: BankId :: id in s <==> cfg.InRange(id)
  {
    set r: int, g: int, b: int
      | 0 <= r < cfg.ranks && 0 <= g < cfg.bankgroups && 0 <= b < cfg.banksPerGroup
      :: BankId(r, g, b)
  }

  // ---- characterisations used by the proofs

  lemma WithoutFirstHead(q: seq<Command>, rank: int, bank: Option<BankId>)
    requires q != []
    ensures WithoutFirst(q, rank, bank)
         == if IsFor(q[0], rank, bank) then q[1..] else [q[0]] + WithoutFirst(q[1..], rank, bank)
  {
  }

  lemma WithoutFirstOfNone(rank: int, bank: Option<BankId>)
    ensures WithoutFirst([], rank, bank) == []
  {
  }

  /** `WithoutFirst` drops the first request that matches, if any. */
  lemma {:induction false} WithoutFirstAt(q: seq<Command>, rank: int, bank: Option<BankId>, i: nat)
    requires i <= |q| && forall x :: 0 <= x < i ==> !IsFor(q[x], rank, bank)
    requires i < |q| ==> IsFor(q[i], rank, bank)
    ensures WithoutFirst(q, rank, bank) == if i < |q| then q[..i] + q[i+1..] else q
    decreases i
  {
    hide *;
    if q == [] {
      WithoutFirstOfNone(rank, bank);
    } else {
      WithoutFirstHead(q, rank, bank);
      if i > 0 {
        WithoutFirstAt(q[1..], rank, bank, i - 1);
        assert i < |q| ==> [q[0]] + (q[1..][..i-1] + q[1..][i..]) == q[..i] + q[i+1..];
        assert [q[0]] + q[1..] == q;
      } else {
        assert q[..0] + q[1..] == q[1..];
      }
    }
  }

  /** `FirstToPrecharge` finds a bank exactly when some bank at or after (g, b) qualifies. */
  lemma {:induction false} FirstToPrechargeMeaning(cfg: Config, ch: State, rank: int, clk: nat, g: nat, b: nat)
    ensures var r := FirstToPrecharge(cfg, ch, rank, clk, g, b);
      && (r.Some? ==> r.value.rank == rank && 0 <= r.value.bankgroup < cfg.bankgroups
                      && 0 <= r.value.bank < cfg.banksPerGroup && OpenAndReady(ch, r.value, clk))
      && (r.None? ==> forall id: BankId ::
            id.rank == rank && id.bankgroup < cfg.bankgroups && 0 <= id.bank < cfg.banksPerGroup
            && (id.bankgroup > g || (id.bankgroup == g && id.bank >= b))
            ==> !OpenAndReady(ch, id, clk))
    decreases cfg.bankgroups - g, cfg.banksPerGroup - b
  {
    if g >= cfg.bankgroups {
    } else if b >= cfg.banksPerGroup {
      FirstToPrechargeMeaning(cfg, ch, rank, clk, g + 1, 0);
    } else if !OpenAndReady(ch, BankId(rank, g, b), clk) {
      FirstToPrechargeMeaning(cfg, ch, rank, clk, g, b + 1);
      forall id: BankId |
        FirstToPrecharge(cfg, ch, rank, clk, g, b).None?
        && id.rank == rank && id.bankgroup < cfg.bankgroups && 0 <= id.bank < cfg.banksPerGroup
        && (id.bankgroup > g || (id.bankgroup == g && id.bank >= b))
        ensures !OpenAndReady(ch, id, clk)
      {
        if id.bankgroup == g && id.bank == b {
          assert id == BankId(rank, g, b);
        }
      }
    }
  }
}
