/** The refresh scheduler as a value: when a request is inserted, for which rank or bank, and how evenly
    the requests are spread. */
module RefreshPlan {
  import opened Types
  import opened Digits

  datatype State = State(clk: nat, nextRank: nat, nextBg: nat, nextBank: nat)

  const INITIAL: State := State(0, 0, 0, 0)

  predicate InBounds(cfg: Config, st: State) {
    st.nextRank < cfg.ranks && st.nextBg < cfg.bankgroups && st.nextBank < cfg.banksPerGroup
  }

  function RankRequest(rank: int): Command {
    Command(Kind.Refresh, Address(-1, rank, -1, -1, -1, -1), NO_HEX)
  }

  function BankRequest(rank: int, bankgroup: int, bank: int): Command {
    Command(RefreshBank, Address(-1, rank, bankgroup, bank, -1, -1), NO_HEX)
  }

  /** The simultaneous policy leaves its loop after the first rank. */
  function Request(cfg: Config, st: State): Command {
    match cfg.refreshPolicy
    case RankSimultaneous => RankRequest(0)
    case RankStaggered => RankRequest(st.nextRank)
    case BankStaggered => BankRequest(st.nextRank, st.nextBg, st.nextBank)
  }

  function Increment(x: nat, n: nat): nat {
    if n > 0 then (x + 1) % n else x
  }

  function Advance(cfg: Config, st: State): State {
    match cfg.refreshPolicy
    case RankSimultaneous => st
    case RankStaggered => st.(nextRank := Increment(st.nextRank, cfg.ranks))
    case BankStaggered =>
      var st1 := st.(nextBg := Increment(st.nextBg, cfg.bankgroups));
      if st1.nextBg != 0 then st1
      else
        var st2 := st1.(nextBank := Increment(st1.nextBank, cfg.banksPerGroup));
        if st2.nextBank != 0 then st2
        else st2.(nextRank := Increment(st2.nextRank, cfg.ranks))
  }

  predicate Due(cfg: Config, st: State)
    requires cfg.ranks > 0 && cfg.RefreshInterval() > 0
  {
    st.clk % cfg.RefreshInterval() == 0 && st.clk > 0
  }

  /** One cycle: the requests inserted and the scheduler afterwards. */
  function Tick(cfg: Config, st: State): (seq<Command>, State)
    requires cfg.ranks > 0 && cfg.RefreshInterval() > 0
  {
    if Due(cfg, st) then
      var next := Advance(cfg, st);
      ([Request(cfg, st)], next.(clk := st.clk + 1))
    else ([], st.(clk := st.clk + 1))
  }

  // ---- the position after k insertions

  function Nth(cfg: Config, k: nat): State {
    if k == 0 then INITIAL else Advance(cfg, Nth(cfg, k - 1))
  }

  /** Bank-level policy: the position is the mixed-radix expansion of the number of insertions, bank
      groups changing fastest, then banks, then ranks. */
  lemma {:induction false} BankPosition(cfg: Config, k: nat)
    requires cfg.refreshPolicy.BankStaggered?
    requires cfg.ranks > 0 && cfg.bankgroups > 0 && cfg.banksPerGroup > 0
    ensures Nth(cfg, k) == State(0, k / cfg.bankgroups / cfg.banksPerGroup % cfg.ranks,
                                 k % cfg.bankgroups, k / cfg.bankgroups % cfg.banksPerGroup)
  {
    if k > 0 {
      BankPosition(cfg, k - 1);
      SuccDivMod(k - 1, cfg.bankgroups);
      SuccDivMod((k - 1) / cfg.bankgroups, cfg.banksPerGroup);
      SuccDivMod((k - 1) / cfg.bankgroups / cfg.banksPerGroup, cfg.ranks);
    }
  }

  /** Rank-level staggered policy: the ranks take turns. */
  lemma {:induction false} RankPosition(cfg: Config, k: nat)
    requires cfg.refreshPolicy.RankStaggered? && cfg.ranks > 0
    ensures Nth(cfg, k) == State(0, k % cfg.ranks, 0, 0)
  {
    if k > 0 {
      RankPosition(cfg, k - 1);
      SuccDivMod(k - 1, cfg.ranks);
    }
  }

  /** Requests in one full round of the bank-level policy. */
  function Round(cfg: Config): nat {
    cfg.bankgroups * (cfg.banksPerGroup * cfg.ranks)
  }

  ghost predicate ServesBank(cfg: Config, k: int, rank: nat, bg: nat, bank: nat) {
    k >= 0 && Request(cfg, Nth(cfg, k)) == BankRequest(rank, bg, bank)
  }

  /** The first insertion not before `start` that serves a given bank. */
  function ServingIndex(cfg: Config, start: nat, rank: nat, bg: nat, bank: nat): int
    requires cfg.ranks > 0 && cfg.bankgroups > 0 && cfg.banksPerGroup > 0
  {
    var t := FirstQuotient(start, cfg.bankgroups, bg);
    var u := FirstQuotient(t, cfg.banksPerGroup, bank);
    var v := FirstQuotient(u, cfg.ranks, rank);
    cfg.bankgroups * (cfg.banksPerGroup * (cfg.ranks * v + rank) + bank) + bg
  }

  lemma IndexServes(cfg: Config, start: nat, rank: nat, bg: nat, bank: nat)
    requires cfg.refreshPolicy.BankStaggered?
    requires rank < cfg.ranks && bg < cfg.bankgroups && bank < cfg.banksPerGroup
    ensures start <= ServingIndex(cfg, start, rank, bg, bank) < start + Round(cfg)
    ensures ServesBank(cfg, ServingIndex(cfg, start, rank, bg, bank), rank, bg, bank)
  {
    var t := FirstQuotient(start, cfg.bankgroups, bg);
    var u := FirstQuotient(t, cfg.banksPerGroup, bank);
    var v := FirstQuotient(u, cfg.ranks, rank);
    var x := cfg.ranks * v + rank;
    var y := cfg.banksPerGroup * x + bank;
    QuotientWindow(u, cfg.ranks, 1, rank, v);
    QuotientWindow(t, cfg.banksPerGroup, cfg.ranks, bank, x);
    QuotientWindow(start, cfg.bankgroups, cfg.banksPerGroup * cfg.ranks, bg, y);
    BankPosition(cfg, cfg.bankgroups * y + bg);
    DivModOfDigits(y, bg, cfg.bankgroups);
    DivModOfDigits(x, bank, cfg.banksPerGroup);
    DivModOfDigits(v, rank, cfg.ranks);
  }

  lemma OnlyIndexServes(cfg: Config, start: nat, rank: nat, bg: nat, bank: nat, j: nat)
    requires cfg.refreshPolicy.BankStaggered?
    requires rank < cfg.ranks && bg < cfg.bankgroups && bank < cfg.banksPerGroup
    requires start <= j < start + Round(cfg) && ServesBank(cfg, j, rank, bg, bank)
    ensures j == ServingIndex(cfg, start, rank, bg, bank)
  {
    BankPosition(cfg, j);
    var y := j / cfg.bankgroups;
    var x := y / cfg.banksPerGroup;
    assert j % cfg.bankgroups == bg && y % cfg.banksPerGroup == bank && x % cfg.ranks == rank;
    Recompose(j, cfg.bankgroups);
    Recompose(y, cfg.banksPerGroup);
    Recompose(x, cfg.ranks);
    OnlyDigits(cfg, start, rank, bg, bank, j, y, x, x / cfg.ranks);
  }

  lemma OnlyDigits(cfg: Config, start: nat, rank: nat, bg: nat, bank: nat, j: nat, y: int, x: int, w: int)
    requires rank < cfg.ranks && bg < cfg.bankgroups && bank < cfg.banksPerGroup
    requires start <= j < start + Round(cfg)
    requires j == cfg.bankgroups * y + bg && y == cfg.banksPerGroup * x + bank && x == cfg.ranks * w + rank
    ensures j == ServingIndex(cfg, start, rank, bg, bank)
  {
    var t := FirstQuotient(start, cfg.bankgroups, bg);
    QuotientWindow(start, cfg.bankgroups, cfg.banksPerGroup * cfg.ranks, bg, y);
    QuotientWindow(t, cfg.banksPerGroup, cfg.ranks, bank, x);
    QuotientWindow(FirstQuotient(t, cfg.banksPerGroup, bank), cfg.ranks, 1, rank, w);
  }

  /** Bank-level fairness: any round of consecutive insertions serves every bank exactly once. */
  lemma EveryBankOncePerRound(cfg: Config, start: nat, rank: nat, bg: nat, bank: nat) returns (k: int)
    requires cfg.refreshPolicy.BankStaggered?
    requires rank < cfg.ranks && bg < cfg.bankgroups && bank < cfg.banksPerGroup
    ensures start <= k < start + Round(cfg) && ServesBank(cfg, k, rank, bg, bank)
    ensures forall j: int :: start <= j < start + Round(cfg) && ServesBank(cfg, j, rank, bg, bank) ==> j == k
  {
    k := ServingIndex(cfg, start, rank, bg, bank);
    IndexServes(cfg, start, rank, bg, bank);
    forall j: int | start <= j < start + Round(cfg) && ServesBank(cfg, j, rank, bg, bank) ensures j == k {
      OnlyIndexServes(cfg, start, rank, bg, bank, j);
    }
  }

  // ---- insertions in time

  /** The scheduler after `n` cycles. */
  function After(cfg: Config, n: nat): State
    requires cfg.ranks > 0 && cfg.RefreshInterval() > 0
  {
    if n == 0 then INITIAL else Tick(cfg, After(cfg, n - 1)).1
  }

  lemma AdvanceKeepsClock(cfg: Config, st: State, c: nat)
    ensures Advance(cfg, st.(clk := c)) == Advance(cfg, st).(clk := c)
  {
  }

  /** After n cycles (n-1)/interval requests have been inserted. */
  lemma {:induction false} InsertionsSoFar(cfg: Config, n: nat)
    requires cfg.ranks > 0 && cfg.RefreshInterval() > 0
    ensures After(cfg, n) == Nth(cfg, if n == 0 then 0 else (n - 1) / cfg.RefreshInterval()).(clk := n)
  {
    hide Config.RefreshInterval;
    if n == 1 {
      assert After(cfg, 0) == INITIAL && Nth(cfg, 0) == INITIAL;
      DivModOfDigits(0, 0, cfg.RefreshInterval());
    } else if n > 1 {
      hide Advance, Request;
      InsertionsSoFar(cfg, n - 1);
      SuccDivMod(n - 2, cfg.RefreshInterval());
      AdvanceKeepsClock(cfg, Nth(cfg, (n - 2) / cfg.RefreshInterval()), n - 1);
    }
  }

  /** Insertion number `k` happens at cycle (k+1) * interval. */
  lemma InsertionTime(cfg: Config, k: nat, clk: nat)
    requires cfg.ranks > 0 && cfg.RefreshInterval() > 0 && clk == cfg.RefreshInterval() * (k + 1)
    ensures Tick(cfg, After(cfg, clk)).0 == [Request(cfg, Nth(cfg, k).(clk := clk))]
  {
    var i := cfg.RefreshInterval();
    MulSucc(i, k);
    MulMono(i, 1, k + 1);
    DivModIs(clk, k + 1, 0, i);
    DivModIs(clk - 1, k, i - 1, i);
    InsertionsSoFar(cfg, clk);
  }

  /** Among `ranks` consecutive insertions one is the turn of `rank`. */
  lemma NextTurn(first: nat, ranks: nat, rank: nat) returns (k: int)
    requires rank < ranks
    ensures first <= k < first + ranks && k % ranks == rank
  {
    var v := FirstQuotient(first, ranks, rank);
    k := ranks * v + rank;
    QuotientWindow(first, ranks, 1, rank, v);
    DivModIs(k, v, rank, ranks);
  }

  lemma ScaledSpan(i: nat, first: nat, k: nat, ranks: nat, t: nat, r: nat)
    requires t == i * first + r && r < i && first <= k < first + ranks
    ensures t < i * (k + 1) <= t + i * ranks
  {
    MulMono(i, first + 1, k + 1);
    MulSucc(i, first);
    MulMono(i, k + 1, first + ranks);
    assert i * (first + ranks) == i * first + i * ranks;
  }

  /** Rank-level staggered fairness: in every span of tREFI cycles each rank gets a refresh request. */
  lemma EveryRankWithinTREFI(cfg: Config, t: nat, rank: nat) returns (clk: nat)
    requires cfg.refreshPolicy.RankStaggered? && rank < cfg.ranks && cfg.RefreshInterval() > 0
    ensures t < clk <= t + cfg.tREFI
    ensures Tick(cfg, After(cfg, clk)).0 == [RankRequest(rank)]
  {
    var i := cfg.RefreshInterval();
    var k := NextTurn(t / i, cfg.ranks, rank);
    Recompose(t, i);
    ScaledSpan(i, t / i, k, cfg.ranks, t, t % i);
    clk := i * (k + 1);
    Recompose(cfg.tREFI, cfg.ranks);
    assert i * cfg.ranks == cfg.ranks * i;
    InsertionTime(cfg, k, clk);
    RankPosition(cfg, k);
  }
}
