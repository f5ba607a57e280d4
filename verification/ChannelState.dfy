/** The mutable channel state: banks, refresh requests and activation windows updated in place. */
module ChannelStateModel {
  import opened Types
  import opened Timing
  import opened Digits
  import Bank
  import Channel

  class ChannelState {
    const cfg: Config
    const tm: Table
    var banks: map<BankId, Bank.State>
    var refreshQ: seq<Command>
    var fourAW: seq<seq<nat>>
    var thirtyTwoAW: seq<seq<nat>>
    var aborted: bool

    /** The channel as a value. */
    ghost function View(): Channel.State
      reads this
    {
      Channel.State(banks, refreshQ, fourAW, thirtyTwoAW, aborted)
    }

    ghost predicate Valid()
      reads this
    {
      Channel.WellShaped(cfg, View())
    }

    constructor (cfg: Config, tm: Table)
      ensures Valid() && View() == Channel.Initial(cfg) && this.cfg == cfg && this.tm == tm
    {
      this.cfg, this.tm := cfg, tm;
      banks := map id: BankId | id in Channel.AllBanks(cfg) :: Bank.INITIAL;
      refreshQ := [];
      fourAW := seq(cfg.ranks, _ => []);
      thirtyTwoAW := seq(cfg.ranks, _ => []);
      aborted := false;
    }

    // ---- refresh requests

    /** Insert a request for a bank, or erase the first one for it. */
    method BankNeedRefresh(rank: int, bankgroup: int, bank: int, need: bool)
      modifies this`refreshQ
      ensures need ==>
        refreshQ == old(refreshQ) + [Command(RefreshBank, Address(-1, rank, bankgroup, bank, -1, -1), NO_HEX)]
      ensures !need ==> refreshQ == Channel.WithoutFirst(old(refreshQ), rank, Some(BankId(rank, bankgroup, bank)))
    {
      if need {
        refreshQ := refreshQ + [Command(RefreshBank, Address(-1, rank, bankgroup, bank, -1, -1), NO_HEX)];
      } else {
        EraseFirst(rank, Some(BankId(rank, bankgroup, bank)));
      }
    }

    method RankNeedRefresh(rank: int, need: bool)
      modifies this`refreshQ
      ensures need ==>
        refreshQ == old(refreshQ) + [Command(Kind.Refresh, Address(-1, rank, -1, -1, -1, -1), NO_HEX)]
      ensures !need ==> refreshQ == Channel.WithoutFirst(old(refreshQ), rank, None)
    {
      if need {
        refreshQ := refreshQ + [Command(Kind.Refresh, Address(-1, rank, -1, -1, -1, -1), NO_HEX)];
      } else {
        EraseFirst(rank, None);
      }
    }

    method EraseFirst(rank: int, bank: Option<BankId>)
      modifies this`refreshQ
      ensures refreshQ == Channel.WithoutFirst(old(refreshQ), rank, bank)
    {
      hide Channel.IsFor, Channel.WithoutFirst;
      var i := 0;
      while i < |refreshQ| && !Channel.IsFor(refreshQ[i], rank, bank)
        invariant 0 <= i <= |refreshQ|
        invariant forall x :: 0 <= x < i ==> !Channel.IsFor(refreshQ[x], rank, bank)
      {
        i := i + 1;
      }
      Channel.WithoutFirstAt(refreshQ, rank, bank, i);
      if i < |refreshQ| {
        refreshQ := refreshQ[..i] + refreshQ[i+1..];
      }
    }

    // ---- queries

    /** A rank request is answered by the first precharge it needs, or by itself once every bank is ready. */
    method GetReadyCommand(cmd: Command, clk: nat) returns (r: Option<Command>)
      requires Valid()
      requires if cmd.kind.IsRankCmd() then cmd.kind == Kind.Refresh && 0 <= cmd.addr.rank < cfg.ranks
               else cfg.InRange(cmd.Target())
      requires forall id :: id in banks ==> !banks[id].mode.Sref?
      ensures r == Channel.ReadyCommand(cfg, View(), cmd, clk)
    {
      if cmd.kind.IsRankCmd() {
        r := RankReadyCommand(cmd, clk);
      } else {
        r := Bank.ReadyCommand(banks[cmd.Target()], cmd, clk);
        if r.Some? && r.value.kind.Activate? {
          var ok := ActivationWindowOk(r.value.addr.rank, clk);
          if !ok {
            r := None;
          }
        }
      }
    }

    method RankReadyCommand(cmd: Command, clk: nat) returns (r: Option<Command>)
      requires Valid() && cmd.kind == Kind.Refresh && 0 <= cmd.addr.rank < cfg.ranks
      requires forall id :: id in banks ==> !banks[id].mode.Sref?
      ensures r == Channel.ReadyCommand(cfg, View(), cmd, clk)
    {
      hide Scanned, Bank.ReadyCommand, Channel.OpenAndReady, Channel.ReadyCommand, Channel.WellShaped;
      var numReady := 0;
      var j := 0;
      ghost var seen := 0;
      ScanStart(cfg, View(), cmd, clk);
      while j < cfg.bankgroups
        invariant 0 <= j <= cfg.bankgroups && seen == j * cfg.banksPerGroup
        invariant Scanned(cfg, View(), cmd, clk, j, 0, numReady, seen)
      {
        var k := 0;
        ghost var base := seen;
        while k < cfg.banksPerGroup
          invariant 0 <= k <= cfg.banksPerGroup && seen == base + k
          invariant Scanned(cfg, View(), cmd, clk, j, k, numReady, seen)
        {
          var id := BankId(cmd.addr.rank, j, k);
          ScanStep(cfg, View(), cmd, clk, j, k, numReady, seen);
          var ready := Bank.ReadyCommand(banks[id], cmd, clk);
          if ready.Some? {
            if ready.value.kind != cmd.kind {
              return Some(Command(ready.value.kind, Address(-1, id.rank, j, k, -1, -1), ready.value.hex));
            }
            numReady := numReady + 1;
          }
          seen := seen + 1;
          k := k + 1;
        }
        ScanNextGroup(cfg, View(), cmd, clk, j, numReady, seen);
        MulSucc(cfg.banksPerGroup, j);
        j := j + 1;
      }
      ScanEnd(cfg, View(), cmd, clk, numReady, seen);
      if numReady == cfg.Banks() {
        r := Some(cmd);
      } else {
        r := None;
      }
    }

    method ActivationWindowOk(rank: int, clk: nat) returns (ok: bool)
      requires Valid() && 0 <= rank < cfg.ranks
      ensures ok == Channel.ActivationWindowOk(cfg, View(), rank, clk)
    {
      var fawOk := Channel.WindowReady(fourAW[rank], 4, clk);
      if cfg.IsGDDR() {
        if !fawOk {
          return false;
        }
        return Channel.WindowReady(thirtyTwoAW[rank], 32, clk);
      }
      return fawOk;
    }

    // ---- effect of a command on the bank machines

    method UpdateState(cmd: Command)
      requires Valid() && !cmd.kind.SrefEnter? && !cmd.kind.SrefExit?
      requires if cmd.kind.IsRankCmd() then 0 <= cmd.addr.rank < cfg.ranks else cfg.InRange(cmd.Target())
      modifies this`banks, this`refreshQ, this`aborted
      ensures StatesUpdated(cfg, old(banks), banks, cmd)
      ensures refreshQ == Channel.RefreshQAfter(old(refreshQ), cmd)
      ensures aborted == (old(aborted) || !Channel.AllAccept(cfg, old(View()), cmd))
    {
      if cmd.kind.IsRankCmd() {
        UpdateRankState(cmd);
        RankNeedRefresh(cmd.addr.rank, false);
      } else {
        var id := cmd.Target();
        UpdateBankState(id, cmd);
        if cmd.kind.IsRefresh() {
          BankNeedRefresh(cmd.addr.rank, cmd.addr.bankgroup, cmd.addr.bank, false);
        }
      }
    }

    method UpdateBankState(id: BankId, cmd: Command)
      requires id in banks
      modifies this`banks, this`aborted
      ensures banks == old(banks)[id := Bank.AfterCommand(old(banks)[id], cmd)]
      ensures aborted == (old(aborted) || !Bank.Accepts(old(banks)[id], cmd.kind))
    {
      if !Bank.Accepts(banks[id], cmd.kind) {
        aborted := true;
      }
      banks := banks[id := Bank.AfterCommand(banks[id], cmd)];
    }

    method UpdateRankState(cmd: Command)
      requires Valid() && cmd.kind.IsRankCmd() && 0 <= cmd.addr.rank < cfg.ranks
      modifies this`banks, this`aborted
      ensures StatesUpdated(cfg, old(banks), banks, cmd)
      ensures aborted == (old(aborted) || !Channel.AllAccept(cfg, old(View()), cmd))
    {
      hide Bank.AfterCommand, Bank.Accepts, Absorbed, AcceptedBefore, Channel.AllAccept, Channel.Targets;
      ghost var before := banks;
      AbsorbStart(before, cmd);
      var j := 0;
      while j < cfg.bankgroups
        invariant 0 <= j <= cfg.bankgroups
        invariant Absorbed(before, banks, cmd, j, 0)
        invariant aborted == (old(aborted) || !AcceptedBefore(before, cmd, j, 0))
      {
        var k := 0;
        while k < cfg.banksPerGroup
          invariant 0 <= k <= cfg.banksPerGroup
          invariant Absorbed(before, banks, cmd, j, k)
          invariant aborted == (old(aborted) || !AcceptedBefore(before, cmd, j, k))
        {
          var id := BankId(cmd.addr.rank, j, k);
          assert id in before;
          AbsorbStep(cfg, before, banks, cmd, j, k);
          UpdateBankState(id, cmd);
          k := k + 1;
        }
        AbsorbNextGroup(cfg, before, banks, cmd, j);
        j := j + 1;
      }
      AbsorbEnd(cfg, old(View()), banks, cmd);
    }

    // ---- effect of a command on the registers

    /** Apply a spacing list to one bank. */
    method UpdateSameBankTiming(id: BankId, lags: Lags, clk: nat)
      requires id in banks
      modifies this`banks
      ensures banks.Keys == old(banks).Keys && Raised(old(banks), banks, OneBank(id), lags, clk)
    {
      hide Bank.RaiseAll;
      ghost var before := banks;
      var n := 0;
      RaiseNothing(before[id].at, clk);
      assert lags[..n] == [];
      while n < |lags|
        invariant 0 <= n <= |lags|
        invariant banks == before[id := before[id].(at := Bank.RaiseAll(before[id].at, lags[..n], clk))]
      {
        var b := banks[id];
        RaiseAllNext(before[id].at, lags, clk, n);
        banks := banks[id := b.(at := Bank.RaiseRegister(b.at, lags[n].0, clk + lags[n].1))];
        n := n + 1;
      }
      assert lags[..n] == lags;
    }

    method UpdateOtherBanksSameBankgroupTiming(id: BankId, lags: Lags, clk: nat)
      requires Valid() && cfg.InRange(id)
      modifies this`banks
      ensures Valid() && Raised(old(banks), banks, OtherBanks(id), lags, clk)
    {
      hide Raised, RaisedBefore;
      ghost var before := banks;
      var k := 0;
      RaisedStart(cfg, before, OtherBanks(id), id.rank, id.bankgroup, lags, clk);
      while k < cfg.banksPerGroup
        invariant 0 <= k <= cfg.banksPerGroup && banks.Keys == before.Keys
        invariant RaisedBefore(before, banks, OtherBanks(id), id.rank, id.bankgroup, k, lags, clk)
      {
        ghost var now := banks;
        var x := BankId(id.rank, id.bankgroup, k);
        if k != id.bank {
          assert x in before;
          UpdateSameBankTiming(x, lags, clk);
          RaisedStep(cfg, before, now, banks, OtherBanks(id), OneBank(x), id.rank, id.bankgroup, k, id.bankgroup, k + 1, lags, clk);
        } else {
          RaisedSkip(cfg, before, now, OtherBanks(id), id.rank, id.bankgroup, k, id.bankgroup, k + 1, lags, clk);
        }
        k := k + 1;
      }
      RaisedEnd(cfg, before, banks, OtherBanks(id), id.rank, id.bankgroup, k, lags, clk);
    }

    /** All banks of one bank group. */
    method RaiseGroup(rank: int, bankgroup: int, lags: Lags, clk: nat)
      requires Valid() && 0 <= rank < cfg.ranks && 0 <= bankgroup < cfg.bankgroups
      modifies this`banks
      ensures Valid() && Raised(old(banks), banks, Group(rank, bankgroup), lags, clk)
    {
      hide Raised, RaisedBefore;
      ghost var before := banks;
      var k := 0;
      RaisedStart(cfg, before, Group(rank, bankgroup), rank, bankgroup, lags, clk);
      while k < cfg.banksPerGroup
        invariant 0 <= k <= cfg.banksPerGroup && banks.Keys == before.Keys
        invariant RaisedBefore(before, banks, Group(rank, bankgroup), rank, bankgroup, k, lags, clk)
      {
        ghost var now := banks;
        var x := BankId(rank, bankgroup, k);
        assert x in before;
        UpdateSameBankTiming(x, lags, clk);
        RaisedStep(cfg, before, now, banks, Group(rank, bankgroup), OneBank(x), rank, bankgroup, k, bankgroup, k + 1, lags, clk);
        k := k + 1;
      }
      RaisedEnd(cfg, before, banks, Group(rank, bankgroup), rank, bankgroup, k, lags, clk);
    }

    method UpdateOtherBankgroupsSameRankTiming(id: BankId, lags: Lags, clk: nat)
      requires Valid() && cfg.InRange(id)
      modifies this`banks
      ensures Valid() && Raised(old(banks), banks, OtherGroups(id), lags, clk)
    {
      hide Raised, RaisedBefore;
      ghost var before := banks;
      var j := 0;
      RaisedStart(cfg, before, OtherGroups(id), id.rank, 0, lags, clk);
      while j < cfg.bankgroups
        invariant 0 <= j <= cfg.bankgroups && banks.Keys == before.Keys
        invariant RaisedBefore(before, banks, OtherGroups(id), id.rank, j, 0, lags, clk)
      {
        ghost var now := banks;
        if j != id.bankgroup {
          RaiseGroup(id.rank, j, lags, clk);
          RaisedStep(cfg, before, now, banks, OtherGroups(id), Group(id.rank, j), id.rank, j, 0, j + 1, 0, lags, clk);
        } else {
          RaisedSkip(cfg, before, now, OtherGroups(id), id.rank, j, 0, j + 1, 0, lags, clk);
        }
        j := j + 1;
      }
      RaisedEnd(cfg, before, banks, OtherGroups(id), id.rank, j, 0, lags, clk);
    }

    method UpdateSameRankTiming(rank: int, lags: Lags, clk: nat)
      requires Valid() && 0 <= rank < cfg.ranks
      modifies this`banks
      ensures Valid() && Raised(old(banks), banks, WholeRank(rank), lags, clk)
    {
      hide Raised, RaisedBefore;
      ghost var before := banks;
      var j := 0;
      RaisedStart(cfg, before, WholeRank(rank), rank, 0, lags, clk);
      while j < cfg.bankgroups
        invariant 0 <= j <= cfg.bankgroups && banks.Keys == before.Keys
        invariant RaisedBefore(before, banks, WholeRank(rank), rank, j, 0, lags, clk)
      {
        ghost var now := banks;
        RaiseGroup(rank, j, lags, clk);
        RaisedStep(cfg, before, now, banks, WholeRank(rank), Group(rank, j), rank, j, 0, j + 1, 0, lags, clk);
        j := j + 1;
      }
      RaisedEnd(cfg, before, banks, WholeRank(rank), rank, j, 0, lags, clk);
    }

    method UpdateOtherRanksTiming(id: BankId, lags: Lags, clk: nat)
      requires Valid() && cfg.InRange(id)
      modifies this`banks
      ensures Valid() && Raised(old(banks), banks, OtherRanksOf(id), lags, clk)
    {
      hide Raised, RanksRaised;
      ghost var before := banks;
      var i := 0;
      RanksStart(cfg, before, id, lags, clk);
      while i < cfg.ranks
        invariant 0 <= i <= cfg.ranks && banks.Keys == before.Keys
        invariant RanksRaised(before, banks, id, i, lags, clk)
      {
        ghost var now := banks;
        if i != id.rank {
          UpdateSameRankTiming(i, lags, clk);
        }
        RanksStep(before, now, banks, id, i, lags, clk);
        i := i + 1;
      }
      RanksEnd(cfg, before, banks, id, lags, clk);
    }

    method UpdateActivationTimes(rank: int, clk: nat)
      requires Valid() && 0 <= rank < cfg.ranks
      modifies this`fourAW, this`thirtyTwoAW
      ensures View() == Channel.AfterActivation(cfg, old(View()), rank, clk)
    {
      fourAW := fourAW[rank := Channel.PushWindow(fourAW[rank], clk, cfg.tFAW)];
      if cfg.IsGDDR() {
        thirtyTwoAW := thirtyTwoAW[rank := Channel.PushWindow(thirtyTwoAW[rank], clk, cfg.t32AW)];
      }
    }

    /** Every bank gets the spacings of its position relative to the command. */
    method UpdateTiming(cmd: Command, clk: nat)
      requires Valid() && !cmd.kind.SrefEnter? && !cmd.kind.SrefExit?
      requires if cmd.kind.IsRankCmd() then 0 <= cmd.addr.rank < cfg.ranks else cfg.InRange(cmd.Target())
      modifies this`banks, this`fourAW, this`thirtyTwoAW
      ensures Valid() && RaisedByPosition(tm, old(banks), banks, cmd, clk)
      ensures fourAW == Channel.WindowsAfter(cfg, old(View()), cmd, clk).fourAW
      ensures thirtyTwoAW == Channel.WindowsAfter(cfg, old(View()), cmd, clk).thirtyTwoAW
    {
      hide Raised, RaisedByPosition;
      if cmd.kind.Activate? {
        UpdateActivationTimes(cmd.addr.rank, clk);
      }
      ghost var b0 := banks;
      if cmd.kind.IsRankCmd() {
        UpdateSameRankTiming(cmd.addr.rank, tm.sameRank(cmd.kind), clk);
        RankRegionCovers(tm, b0, banks, cmd, clk);
      } else {
        var id := cmd.Target();
        UpdateSameBankTiming(id, tm.sameBank(cmd.kind), clk);
        ghost var b1 := banks;
        UpdateOtherBanksSameBankgroupTiming(id, tm.otherBanksSameBankgroup(cmd.kind), clk);
        ghost var b2 := banks;
        UpdateOtherBankgroupsSameRankTiming(id, tm.otherBankgroupsSameRank(cmd.kind), clk);
        ghost var b3 := banks;
        UpdateOtherRanksTiming(id, tm.otherRanks(cmd.kind), clk);
        RegionsCover(tm, b0, b1, b2, b3, banks, cmd, clk);
      }
    }

    /** The in-place update of states and registers is the one-shot `Issue` of the specification. */
    method UpdateTimingAndStates(cmd: Command, clk: nat)
      requires Valid() && !cmd.kind.SrefEnter? && !cmd.kind.SrefExit?
      requires if cmd.kind.IsRankCmd() then 0 <= cmd.addr.rank < cfg.ranks else cfg.InRange(cmd.Target())
      modifies this
      ensures Valid() && View() == Channel.Issue(cfg, tm, old(View()), cmd, clk)
    {
      hide Bank.Raise, Bank.AfterCommand, Applied, Channel.AllAccept, Channel.RefreshQAfter, RaisedByPosition, Channel.Targets;
      ghost var ch := View();
      UpdateState(cmd);
      ghost var ch1 := View();
      UpdateTiming(cmd, clk);
      TwoPhases(cfg, tm, ch, ch1, View(), cmd, clk);
    }
  }

  /** The banks a command acts on have absorbed it; the others are untouched. */
  predicate StatesUpdated(cfg: Config, before: map<BankId, Bank.State>, now: map<BankId, Bank.State>, cmd: Command) {
    && now.Keys == before.Keys
    && forall id :: id in before ==>
         now[id] == if Channel.Targets(cfg, cmd, id) then Bank.AfterCommand(before[id], cmd) else before[id]
  }

  /** Updating the machines and then the registers is one `Issue`. */
  lemma TwoPhases(cfg: Config, tm: Table, ch: Channel.State, ch1: Channel.State, ch2: Channel.State, cmd: Command, clk: nat)
    requires StatesUpdated(cfg, ch.banks, ch1.banks, cmd)
    requires RaisedByPosition(tm, ch1.banks, ch2.banks, cmd, clk)
    requires ch2.refreshQ == ch1.refreshQ == Channel.RefreshQAfter(ch.refreshQ, cmd)
    requires ch1.fourAW == ch.fourAW && ch1.thirtyTwoAW == ch.thirtyTwoAW
    requires ch2.fourAW == Channel.WindowsAfter(cfg, ch1, cmd, clk).fourAW
    requires ch2.thirtyTwoAW == Channel.WindowsAfter(cfg, ch1, cmd, clk).thirtyTwoAW
    requires ch2.aborted == ch1.aborted == (ch.aborted || !Channel.AllAccept(cfg, ch, cmd))
    ensures ch2 == Channel.Issue(cfg, tm, ch, cmd, clk)
  {
    hide StatesUpdated, RaisedByPosition, Channel.BankAfter, Channel.AllAccept, Channel.RefreshQAfter, Channel.WindowsAfter;
    WindowsOnly(cfg, ch, ch1, cmd, clk);
    TwoPhasesOfBanks(cfg, tm, ch.banks, ch1.banks, ch2.banks, cmd, clk);
  }

  lemma TwoPhasesOfBanks(cfg: Config, tm: Table, b0: map<BankId, Bank.State>, b1: map<BankId, Bank.State>,
                         b2: map<BankId, Bank.State>, cmd: Command, clk: nat)
    requires StatesUpdated(cfg, b0, b1, cmd)
    requires RaisedByPosition(tm, b1, b2, cmd, clk)
    ensures b2 == map id: BankId | id in b0 :: Channel.BankAfter(cfg, tm, b0[id], id, cmd, clk)
  {
    hide Channel.BankAfter, Bank.Raise, Bank.AfterCommand, Channel.Targets, Applied;
    forall id | id in b0 ensures b2[id] == Channel.BankAfter(cfg, tm, b0[id], id, cmd, clk) {
      assert b2[id] == Bank.Raise(b1[id], Applied(tm, cmd, id), clk);
      PhasesOfBank(cfg, tm, b0[id], b1[id], id, cmd, clk);
    }
    hide StatesUpdated, RaisedByPosition;
    BanksTogether(cfg, tm, b0, b2, cmd, clk);
  }

  lemma BanksTogether(cfg: Config, tm: Table, b0: map<BankId, Bank.State>, b2: map<BankId, Bank.State>, cmd: Command, clk: nat)
    requires b2.Keys == b0.Keys
    requires forall id :: id in b0 ==> b2[id] == Channel.BankAfter(cfg, tm, b0[id], id, cmd, clk)
    ensures b2 == map id: BankId | id in b0 :: Channel.BankAfter(cfg, tm, b0[id], id, cmd, clk)
  {
    hide *;
  }

  lemma PhasesOfBank(cfg: Config, tm: Table, b: Bank.State, b1: Bank.State, id: BankId, cmd: Command, clk: nat)
    requires b1 == if Channel.Targets(cfg, cmd, id) then Bank.AfterCommand(b, cmd) else b
    ensures Bank.Raise(b1, Applied(tm, cmd, id), clk) == Channel.BankAfter(cfg, tm, b, id, cmd, clk)
  {
  }

  /** The windows after a command depend on the windows before it only. */
  lemma WindowsOnly(cfg: Config, ch: Channel.State, ch1: Channel.State, cmd: Command, clk: nat)
    requires ch1.fourAW == ch.fourAW && ch1.thirtyTwoAW == ch.thirtyTwoAW
    ensures Channel.WindowsAfter(cfg, ch1, cmd, clk).fourAW == Channel.WindowsAfter(cfg, ch, cmd, clk).fourAW
    ensures Channel.WindowsAfter(cfg, ch1, cmd, clk).thirtyTwoAW == Channel.WindowsAfter(cfg, ch, cmd, clk).thirtyTwoAW
  {
  }

  // ---- regions of banks relative to a command

  datatype Region =
    | OneBank(id: BankId)
    | OtherBanks(id: BankId)
    | OtherGroups(id: BankId)
    | OtherRanksOf(id: BankId)
    | WholeRank(rank: int)
    | Group(rank: int, bankgroup: int)
  {
    predicate Has(x: BankId) {
      match this
      case OneBank(id) => x == id
      case OtherBanks(id) => x.rank == id.rank && x.bankgroup == id.bankgroup && x.bank != id.bank
      case OtherGroups(id) => x.rank == id.rank && x.bankgroup != id.bankgroup
      case OtherRanksOf(id) => x.rank != id.rank
      case WholeRank(r) => x.rank == r
      case Group(r, g) => x.rank == r && x.bankgroup == g
    }
  }

  /** Exactly the banks of the region have the spacings applied. */
  predicate Raised(before: map<BankId, Bank.State>, now: map<BankId, Bank.State>, region: Region, lags: Lags, clk: nat) {
    && now.Keys == before.Keys
    && forall id :: id in before ==> now[id] == RaisedIf(region.Has(id), before[id], lags, clk)
  }

  function RaisedIf(yes: bool, b: Bank.State, lags: Lags, clk: nat): Bank.State {
    if yes then Bank.Raise(b, lags, clk) else b
  }

  /** The same, for the banks of the rank that come before (bankgroup, bank) only. */
  predicate RaisedBefore(before: map<BankId, Bank.State>, now: map<BankId, Bank.State>, region: Region,
                         rank: int, bankgroup: nat, bank: nat, lags: Lags, clk: nat) {
    && now.Keys == before.Keys
    && forall id :: id in before ==>
         now[id] == RaisedIf(region.Has(id) && Before(id, rank, bankgroup, bank), before[id], lags, clk)
  }

  ghost predicate AllInRange(cfg: Config, before: map<BankId, Bank.State>) {
    forall id :: id in before ==> cfg.InRange(id)
  }

  /** A region inside one bank group or inside one rank, scanned from (bankgroup, 0). */
  predicate StartsAt(region: Region, rank: int, bankgroup: nat) {
    match region
    case OtherBanks(id) => id.rank == rank && id.bankgroup == bankgroup
    case OtherGroups(id) => id.rank == rank && bankgroup == 0
    case WholeRank(r) => r == rank && bankgroup == 0
    case Group(r, g) => r == rank && g == bankgroup
    case _ => false
  }

  lemma RaisedStart(cfg: Config, before: map<BankId, Bank.State>, region: Region, rank: int, bankgroup: nat, lags: Lags, clk: nat)
    requires AllInRange(cfg, before) && StartsAt(region, rank, bankgroup)
    ensures RaisedBefore(before, before, region, rank, bankgroup, 0, lags, clk)
  {
    hide Bank.Raise;
    assert forall id :: id in before ==> !(region.Has(id) && Before(id, rank, bankgroup, 0));
  }

  /** Raising the sub-region `sub` moves the scan from (g, b) to (g', b'). */
  lemma RaisedStep(cfg: Config, before: map<BankId, Bank.State>, now: map<BankId, Bank.State>, next: map<BankId, Bank.State>,
                   region: Region, sub: Region, rank: int, g: nat, b: nat, g': nat, b': nat, lags: Lags, clk: nat)
    requires AllInRange(cfg, before)
    requires RaisedBefore(before, now, region, rank, g, b, lags, clk) && Raised(now, next, sub, lags, clk)
    requires (g' == g && b' == b + 1 && sub == OneBank(BankId(rank, g, b))) || (g' == g + 1 && b == b' == 0 && sub == Group(rank, g))
    requires forall x: BankId :: sub.Has(x) ==> region.Has(x)
    ensures RaisedBefore(before, next, region, rank, g', b', lags, clk)
  {
    hide RaisedIf, Region.Has;
    forall id | id in before
      ensures next[id] == RaisedIf(region.Has(id) && Before(id, rank, g', b'), before[id], lags, clk)
    {
      StepOfBank(cfg, before[id], now[id], next[id], id, region, sub, rank, g, b, g', b', lags, clk);
    }
  }

  lemma StepOfBank(cfg: Config, b0: Bank.State, b1: Bank.State, b2: Bank.State, id: BankId, region: Region, sub: Region,
                   rank: int, g: nat, b: nat, g': nat, b': nat, lags: Lags, clk: nat)
    requires cfg.InRange(id) && (sub.Has(id) ==> region.Has(id))
    requires (g' == g && b' == b + 1 && sub == OneBank(BankId(rank, g, b))) || (g' == g + 1 && b == b' == 0 && sub == Group(rank, g))
    requires b1 == RaisedIf(region.Has(id) && Before(id, rank, g, b), b0, lags, clk)
    requires b2 == RaisedIf(sub.Has(id), b1, lags, clk)
    ensures b2 == RaisedIf(region.Has(id) && Before(id, rank, g', b'), b0, lags, clk)
  {
    hide Bank.Raise;
    assert Before(id, rank, g', b') <==> Before(id, rank, g, b) || sub.Has(id);
    assert sub.Has(id) ==> !Before(id, rank, g, b);
  }

  lemma RaisedSkip(cfg: Config, before: map<BankId, Bank.State>, now: map<BankId, Bank.State>, region: Region,
                   rank: int, g: nat, b: nat, g': nat, b': nat, lags: Lags, clk: nat)
    requires AllInRange(cfg, before) && RaisedBefore(before, now, region, rank, g, b, lags, clk)
    requires (g' == g && b' == b + 1 && !region.Has(BankId(rank, g, b)))
             || (g' == g + 1 && b == b' == 0 && forall x: BankId :: Group(rank, g).Has(x) ==> !region.Has(x))
    ensures RaisedBefore(before, now, region, rank, g', b', lags, clk)
  {
    hide RaisedIf;
    forall id | id in before
      ensures region.Has(id) && Before(id, rank, g', b') <==> region.Has(id) && Before(id, rank, g, b)
    {
      assert id.rank == rank && id.bankgroup == g && id.bank == b ==> id == BankId(rank, g, b);
    }
  }

  lemma RaisedEnd(cfg: Config, before: map<BankId, Bank.State>, now: map<BankId, Bank.State>, region: Region,
                  rank: int, g: nat, b: nat, lags: Lags, clk: nat)
    requires AllInRange(cfg, before) && RaisedBefore(before, now, region, rank, g, b, lags, clk)
    requires (StartsAt(region, rank, g) && b == cfg.banksPerGroup && (region.OtherBanks? || region.Group?))
             || (StartsAt(region, rank, 0) && g == cfg.bankgroups && b == 0 && (region.OtherGroups? || region.WholeRank?))
    ensures Raised(before, now, region, lags, clk)
  {
    hide Bank.Raise;
    forall id | id in before ensures region.Has(id) ==> Before(id, rank, g, b) {
    }
  }

  /** All banks of the ranks below `i`, except the rank of `id`, have the spacings applied. */
  predicate RanksRaised(before: map<BankId, Bank.State>, now: map<BankId, Bank.State>, id: BankId, i: int, lags: Lags, clk: nat) {
    && now.Keys == before.Keys
    && forall x :: x in before ==> now[x] == RaisedIf(x.rank != id.rank && x.rank < i, before[x], lags, clk)
  }

  lemma RanksStart(cfg: Config, before: map<BankId, Bank.State>, id: BankId, lags: Lags, clk: nat)
    requires AllInRange(cfg, before)
    ensures RanksRaised(before, before, id, 0, lags, clk)
  {
    hide Bank.Raise;
  }

  lemma RanksStep(before: map<BankId, Bank.State>, now: map<BankId, Bank.State>, next: map<BankId, Bank.State>,
                  id: BankId, i: int, lags: Lags, clk: nat)
    requires RanksRaised(before, now, id, i, lags, clk)
    requires if i != id.rank then Raised(now, next, WholeRank(i), lags, clk) else next == now
    ensures RanksRaised(before, next, id, i + 1, lags, clk)
  {
    hide RaisedIf;
    forall x | x in before
      ensures next[x] == RaisedIf(x.rank != id.rank && x.rank < i + 1, before[x], lags, clk)
    {
      RankStepOfBank(x, id, i, before[x], now[x], next[x], lags, clk);
    }
  }

  lemma RankStepOfBank(x: BankId, id: BankId, i: int, b0: Bank.State, b1: Bank.State, b2: Bank.State, lags: Lags, clk: nat)
    requires b1 == RaisedIf(x.rank != id.rank && x.rank < i, b0, lags, clk)
    requires b2 == if i != id.rank then RaisedIf(WholeRank(i).Has(x), b1, lags, clk) else b1
    ensures b2 == RaisedIf(x.rank != id.rank && x.rank < i + 1, b0, lags, clk)
  {
    hide Bank.Raise;
  }

  lemma RanksEnd(cfg: Config, before: map<BankId, Bank.State>, now: map<BankId, Bank.State>, id: BankId, lags: Lags, clk: nat)
    requires AllInRange(cfg, before) && RanksRaised(before, now, id, cfg.ranks, lags, clk)
    ensures Raised(before, now, OtherRanksOf(id), lags, clk)
  {
    hide Bank.Raise;
  }

  lemma RaiseNothing(at: Bank.Registers, clk: nat)
    ensures Bank.RaiseAll(at, [], clk) == at
  {
  }

  lemma RaiseAllNext(at: Bank.Registers, lags: Lags, clk: nat, n: nat)
    requires n < |lags|
    ensures Bank.RaiseAll(at, lags[..n+1], clk)
         == Bank.RaiseRegister(Bank.RaiseAll(at, lags[..n], clk), lags[n].0, clk + lags[n].1)
  {
    hide Bank.RaiseRegister;
    var more := lags[..n+1];
    assert more[..n] == lags[..n] && more[n] == lags[n] && |more| - 1 == n;
  }

  lemma RegionsCover(tm: Table, b0: map<BankId, Bank.State>, b1: map<BankId, Bank.State>, b2: map<BankId, Bank.State>,
                     b3: map<BankId, Bank.State>, b4: map<BankId, Bank.State>, cmd: Command, clk: nat)
    requires !cmd.kind.IsRankCmd()
    requires Raised(b0, b1, OneBank(cmd.Target()), tm.sameBank(cmd.kind), clk)
    requires Raised(b1, b2, OtherBanks(cmd.Target()), tm.otherBanksSameBankgroup(cmd.kind), clk)
    requires Raised(b2, b3, OtherGroups(cmd.Target()), tm.otherBankgroupsSameRank(cmd.kind), clk)
    requires Raised(b3, b4, OtherRanksOf(cmd.Target()), tm.otherRanks(cmd.kind), clk)
    ensures RaisedByPosition(tm, b0, b4, cmd, clk)
  {
    hide Bank.Raise;
    forall id | id in b0 ensures b4[id] == Bank.Raise(b0[id], Applied(tm, cmd, id), clk) {
      RegionOf(tm, b0[id], b1[id], b2[id], b3[id], b4[id], cmd, clk, id);
    }
  }

  /** A bank lies in exactly one of the four regions around a bank command. */
  lemma RegionOf(tm: Table, s0: Bank.State, s1: Bank.State, s2: Bank.State, s3: Bank.State, s4: Bank.State,
                 cmd: Command, clk: nat, id: BankId)
    requires !cmd.kind.IsRankCmd()
    requires s1 == RaisedIf(OneBank(cmd.Target()).Has(id), s0, tm.sameBank(cmd.kind), clk)
    requires s2 == RaisedIf(OtherBanks(cmd.Target()).Has(id), s1, tm.otherBanksSameBankgroup(cmd.kind), clk)
    requires s3 == RaisedIf(OtherGroups(cmd.Target()).Has(id), s2, tm.otherBankgroupsSameRank(cmd.kind), clk)
    requires s4 == RaisedIf(OtherRanksOf(cmd.Target()).Has(id), s3, tm.otherRanks(cmd.kind), clk)
    ensures s4 == Bank.Raise(s0, Applied(tm, cmd, id), clk)
  {
    hide Bank.Raise;
  }

  /** Every bank has the spacings that the command applies at its position. */
  predicate RaisedByPosition(tm: Table, b0: map<BankId, Bank.State>, b1: map<BankId, Bank.State>, cmd: Command, clk: nat) {
    b1.Keys == b0.Keys && forall id :: id in b0 ==> b1[id] == Bank.Raise(b0[id], Applied(tm, cmd, id), clk)
  }

  lemma RankRegionCovers(tm: Table, b0: map<BankId, Bank.State>, b1: map<BankId, Bank.State>, cmd: Command, clk: nat)
    requires cmd.kind.IsRankCmd() && Raised(b0, b1, WholeRank(cmd.addr.rank), tm.sameRank(cmd.kind), clk)
    ensures RaisedByPosition(tm, b0, b1, cmd, clk)
  {
    hide Bank.Raise, Applied, RaisedIf;
    forall id | id in b0 ensures b1[id] == Bank.Raise(b0[id], Applied(tm, cmd, id), clk) {
      RankRegionOf(tm, b0[id], b1[id], cmd, clk, id);
    }
  }

  lemma RankRegionOf(tm: Table, s0: Bank.State, s1: Bank.State, cmd: Command, clk: nat, id: BankId)
    requires cmd.kind.IsRankCmd() && s1 == RaisedIf(WholeRank(cmd.addr.rank).Has(id), s0, tm.sameRank(cmd.kind), clk)
    ensures s1 == Bank.Raise(s0, Applied(tm, cmd, id), clk)
  {
    hide Bank.RaiseAll;
    RaiseNothing(s0.at, clk);
  }

  // ---- scanning the banks of a rank

  /** Bank `id` of the rank comes before (j, k) in scan order. */
  predicate Before(id: BankId, rank: int, j: nat, k: nat) {
    id.rank == rank && (id.bankgroup < j || (id.bankgroup == j && id.bank < k))
  }

  predicate ReadyBefore(ch: Channel.State, cmd: Command, clk: nat, j: nat, k: nat) {
    forall id :: id in ch.banks && Before(id, cmd.addr.rank, j, k) ==>
      Bank.ReadyCommand(ch.banks[id], cmd, clk) == Some(cmd)
  }

  /** Before (j, k) no bank needs a precharge that could be made now, and `numReady` of the `seen` banks
      are ready, all of them exactly when the two numbers agree. */
  predicate Scanned(cfg: Config, ch: Channel.State, cmd: Command, clk: nat, j: nat, k: nat, numReady: int, seen: nat) {
    && Channel.FirstToPrecharge(cfg, ch, cmd.addr.rank, clk, 0, 0)
       == Channel.FirstToPrecharge(cfg, ch, cmd.addr.rank, clk, j, k)
    && 0 <= numReady <= seen
    && (numReady == seen <==> ReadyBefore(ch, cmd, clk, j, k))
  }

  ghost predicate Scannable(cfg: Config, ch: Channel.State, cmd: Command) {
    && Channel.WellShaped(cfg, ch) && cmd.kind == Kind.Refresh && 0 <= cmd.addr.rank < cfg.ranks
    && forall id :: id in ch.banks ==> !ch.banks[id].mode.Sref?
  }

  lemma ScanStart(cfg: Config, ch: Channel.State, cmd: Command, clk: nat)
    requires Scannable(cfg, ch, cmd)
    ensures Scanned(cfg, ch, cmd, clk, 0, 0, 0, 0)
  {
  }

  lemma ScanStep(cfg: Config, ch: Channel.State, cmd: Command, clk: nat, j: nat, k: nat, numReady: int, seen: nat)
    requires Scannable(cfg, ch, cmd) && j < cfg.bankgroups && k < cfg.banksPerGroup
    requires Scanned(cfg, ch, cmd, clk, j, k, numReady, seen)
    ensures BankId(cmd.addr.rank, j, k) in ch.banks
    ensures var ready := Bank.ReadyCommand(ch.banks[BankId(cmd.addr.rank, j, k)], cmd, clk);
      && (ready.None? ==> Scanned(cfg, ch, cmd, clk, j, k + 1, numReady, seen + 1))
      && (ready.Some? && ready.value.kind == cmd.kind ==> Scanned(cfg, ch, cmd, clk, j, k + 1, numReady + 1, seen + 1))
      && (ready.Some? && ready.value.kind != cmd.kind ==>
            Channel.ReadyCommand(cfg, ch, cmd, clk)
            == Some(Command(ready.value.kind, Address(-1, cmd.addr.rank, j, k, -1, -1), ready.value.hex)))
  {
    var id := BankId(cmd.addr.rank, j, k);
    assert id in ch.banks;
    assert forall x: BankId :: Before(x, cmd.addr.rank, j, k + 1) <==> Before(x, cmd.addr.rank, j, k) || x == id;
  }

  lemma ScanNextGroup(cfg: Config, ch: Channel.State, cmd: Command, clk: nat, j: nat, numReady: int, seen: nat)
    requires Scannable(cfg, ch, cmd) && j < cfg.bankgroups
    requires Scanned(cfg, ch, cmd, clk, j, cfg.banksPerGroup, numReady, seen)
    ensures Scanned(cfg, ch, cmd, clk, j + 1, 0, numReady, seen)
  {
    assert forall x :: x in ch.banks ==>
      (Before(x, cmd.addr.rank, j + 1, 0) <==> Before(x, cmd.addr.rank, j, cfg.banksPerGroup));
  }

  lemma ScanEnd(cfg: Config, ch: Channel.State, cmd: Command, clk: nat, numReady: int, seen: nat)
    requires Scannable(cfg, ch, cmd) && seen == cfg.Banks()
    requires Scanned(cfg, ch, cmd, clk, cfg.bankgroups, 0, numReady, seen)
    ensures Channel.ReadyCommand(cfg, ch, cmd, clk) == if numReady == cfg.Banks() then Some(cmd) else None
  {
    assert ReadyBefore(ch, cmd, clk, cfg.bankgroups, 0) <==> Channel.AllBanksReady(cfg, ch, cmd, clk);
  }

  // ---- updating the banks of a rank

  predicate AcceptedBefore(before: map<BankId, Bank.State>, cmd: Command, j: nat, k: nat) {
    forall id :: id in before && Before(id, cmd.addr.rank, j, k) ==> Bank.Accepts(before[id], cmd.kind)
  }

  /** Banks of the rank before (j, k) have absorbed `cmd`; the others are untouched. */
  predicate Absorbed(before: map<BankId, Bank.State>, now: map<BankId, Bank.State>, cmd: Command, j: nat, k: nat) {
    && now.Keys == before.Keys
    && forall id :: id in before ==>
         now[id] == if Before(id, cmd.addr.rank, j, k) then Bank.AfterCommand(before[id], cmd) else before[id]
  }

  lemma AbsorbStart(before: map<BankId, Bank.State>, cmd: Command)
    requires forall id :: id in before ==> id.bankgroup >= 0 && id.bank >= 0
    ensures Absorbed(before, before, cmd, 0, 0) && AcceptedBefore(before, cmd, 0, 0)
  {
  }

  lemma AbsorbEnd(cfg: Config, ch: Channel.State, now: map<BankId, Bank.State>, cmd: Command)
    requires Channel.WellShaped(cfg, ch) && cmd.kind.IsRankCmd() && Absorbed(ch.banks, now, cmd, cfg.bankgroups, 0)
    ensures StatesUpdated(cfg, ch.banks, now, cmd)
    ensures AcceptedBefore(ch.banks, cmd, cfg.bankgroups, 0) <==> Channel.AllAccept(cfg, ch, cmd)
  {
    hide Bank.AfterCommand, Bank.Accepts;
    assert forall id :: id in ch.banks ==>
      (Before(id, cmd.addr.rank, cfg.bankgroups, 0) <==> Channel.Targets(cfg, cmd, id));
  }

  lemma AbsorbStep(cfg: Config, before: map<BankId, Bank.State>, now: map<BankId, Bank.State>, cmd: Command, j: nat, k: nat)
    requires Absorbed(before, now, cmd, j, k) && BankId(cmd.addr.rank, j, k) in before
    ensures var id := BankId(cmd.addr.rank, j, k);
      && id in now && now[id] == before[id]
      && Absorbed(before, now[id := Bank.AfterCommand(now[id], cmd)], cmd, j, k + 1)
      && (AcceptedBefore(before, cmd, j, k + 1) <==>
            AcceptedBefore(before, cmd, j, k) && Bank.Accepts(before[id], cmd.kind))
  {
    hide Bank.AfterCommand, Bank.Accepts;
    var id := BankId(cmd.addr.rank, j, k);
    assert forall x: BankId :: Before(x, cmd.addr.rank, j, k + 1) <==> Before(x, cmd.addr.rank, j, k) || x == id;
  }

  lemma AbsorbNextGroup(cfg: Config, before: map<BankId, Bank.State>, now: map<BankId, Bank.State>, cmd: Command, j: nat)
    requires Absorbed(before, now, cmd, j, cfg.banksPerGroup)
    requires forall id :: id in before ==> cfg.InRange(id)
    ensures Absorbed(before, now, cmd, j + 1, 0)
    ensures AcceptedBefore(before, cmd, j, cfg.banksPerGroup) <==> AcceptedBefore(before, cmd, j + 1, 0)
  {
    assert forall x :: x in before ==>
      (Before(x, cmd.addr.rank, j + 1, 0) <==> Before(x, cmd.addr.rank, j, cfg.banksPerGroup));
  }
}
