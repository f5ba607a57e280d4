/** The command queues of a channel as a value, with what the queue operations compute. */
module Queues {
  import opened Types
  import opened Digits
  import Channel

  datatype State = State(
    queues: seq<seq<Command>>,
    idx: nat,
    inRef: bool,
    refIdx: set<int>,
    clk: nat)

  function NumQueues(cfg: Config): nat {
    if cfg.perRankQueues then cfg.ranks else cfg.Banks() * cfg.ranks
  }

  function QueueIndex(cfg: Config, id: BankId): int {
    if cfg.perRankQueues then id.rank
    else id.rank * cfg.Banks() + id.bankgroup * cfg.banksPerGroup + id.bank
  }

  function Initial(cfg: Config): State {
    State(seq(NumQueues(cfg), _ => []), 0, false, {}, 0)
  }

  // ---- choosing inside one queue

  predicate RowWanted(q: seq<Command>, from: nat, id: BankId, row: int) {
    exists j :: from <= j < |q| && q[j].Target() == id && q[j].addr.row == row
  }

  /** An open row may be closed for request `i` when the request is the first of its bank and either
      nothing at or after it still wants the open row or the row has served four hits. */
  predicate MayPrecharge(ch: Channel.State, q: seq<Command>, i: nat)
    requires i < |q|
  {
    var id := q[i].Target();
    && (forall j :: 0 <= j < i ==> q[j].Target() != id)
    && id in ch.banks
    && (!RowWanted(q, i, id, ch.banks[id].row) || ch.banks[id].hits >= 4)
  }

  predicate SameCell(a: Command, b: Command) {
    a.addr.row == b.addr.row && a.addr.column == b.addr.column && a.addr.bank == b.addr.bank
    && a.addr.bankgroup == b.addr.bankgroup
  }

  predicate WaitsForRead(q: seq<Command>, i: nat)
    requires i < |q|
  {
    exists j :: 0 <= j < i && q[j].kind.IsRead() && SameCell(q[j], q[i])
  }

  /** The command that may be issued now on behalf of request `i`. */
  function Eligible(cfg: Config, ch: Channel.State, q: seq<Command>, i: nat, clk: nat): Option<Command>
    requires i < |q|
  {
    var cmd := Channel.ReadyCommand(cfg, ch, q[i], clk);
    if cmd.None? then None
    else if cmd.value.kind.Precharge? then (if MayPrecharge(ch, q, i) then cmd else None)
    else if cmd.value.kind.IsWrite() && WaitsForRead(q, i) then None
    else cmd
  }

  /** First eligible request at or after position `i`. */
  function FirstReady(cfg: Config, ch: Channel.State, q: seq<Command>, clk: nat, i: nat): Option<Command>
    requires i <= |q|
    decreases |q| - i
  {
    if i == |q| then None
    else if Eligible(cfg, ch, q, i, clk).Some? then Eligible(cfg, ch, q, i, clk)
    else FirstReady(cfg, ch, q, clk, i + 1)
  }

  // ---- choosing among the queues

  function NextIndex(st: State): nat {
    if st.idx + 1 == |st.queues| then 0 else st.idx + 1
  }

  predicate Skipped(st: State, i: int) {
    st.inRef && i in st.refIdx
  }

  /** Round robin over at most `tries` further queues, skipping those held back for a refresh. */
  function Pick(cfg: Config, ch: Channel.State, st: State, tries: nat): (Option<Command>, State)
    decreases tries
  {
    if tries == 0 || NextIndex(st) >= |st.queues| then (None, st)
    else
      var next := st.(idx := NextIndex(st));
      var cmd := if Skipped(next, next.idx) then None else FirstReady(cfg, ch, next.queues[next.idx], next.clk, 0);
      if cmd.Some? then (cmd, next) else Pick(cfg, ch, next, tries - 1)
  }

  predicate Matches(c: Command, cmd: Command) {
    c.hex == cmd.hex && c.kind == cmd.kind
  }

  function WithoutMatch(q: seq<Command>, cmd: Command): seq<Command>
    decreases |q|
  {
    if q == [] then []
    else if Matches(q[0], cmd) then q[1..]
    else [q[0]] + WithoutMatch(q[1..], cmd)
  }

  predicate HasMatch(q: seq<Command>, cmd: Command) {
    exists c :: c in q && Matches(c, cmd)
  }

  /** Result of fetching a command: the command, the queues after it, and whether the erase failed. */
  datatype Fetched = Fetched(cmd: Option<Command>, st: State, lost: bool)

  function GetCommand(cfg: Config, ch: Channel.State, st: State): Fetched {
    var (cmd, st1) := Pick(cfg, ch, st, |st.queues|);
    if cmd.None? || !cmd.value.kind.IsReadWrite() then Fetched(cmd, st1, false)
    else
      var qi := QueueIndex(cfg, cmd.value.Target());
      if 0 <= qi < |st1.queues| && HasMatch(st1.queues[qi], cmd.value) then
        Fetched(cmd, st1.(queues := st1.queues[qi := WithoutMatch(st1.queues[qi], cmd.value)]), false)
      else Fetched(cmd, st1, true)
  }

  // ---- refresh priority

  /** Queues held back while `ref` is pending. */
  function RefQueues(cfg: Config, ref: Command): set<int> {
    if ref.kind.Refresh? && !cfg.perRankQueues then
      set i: int | 0 <= i < NumQueues(cfg) && cfg.Banks() > 0 && i / cfg.Banks() == ref.addr.rank
    else if ref.kind.Refresh? then {ref.addr.rank}
    else {QueueIndex(cfg, ref.Target())}
  }

  function FinishRefresh(cfg: Config, ch: Channel.State, st: State): (Option<Command>, State)
    requires ch.refreshQ != []
  {
    var ref := ch.refreshQ[0];
    var st1 := if st.inRef then st else st.(refIdx := st.refIdx + RefQueues(cfg, ref), inRef := true);
    var cmd := Channel.ReadyCommand(cfg, ch, ref, st.clk);
    (cmd, if cmd.Some? && cmd.value.kind.IsRefresh() then st1.(refIdx := {}, inRef := false) else st1)
  }

  // ---- adding

  predicate WillAccept(cfg: Config, st: State, id: BankId) {
    var qi := QueueIndex(cfg, id);
    0 <= qi < |st.queues| && |st.queues[qi]| < cfg.cmdQueueSize
  }

  function Add(cfg: Config, st: State, cmd: Command): State {
    if !WillAccept(cfg, st, cmd.Target()) then st
    else
      var qi := QueueIndex(cfg, cmd.Target());
      st.(queues := st.queues[qi := st.queues[qi] + [cmd]])
  }

  predicate Empty(st: State) {
    forall i :: 0 <= i < |st.queues| ==> st.queues[i] == []
  }

  // ---- characterisations used by the proofs

  /** No request of the queue from position `i` on may issue anything. */
  predicate Silent(cfg: Config, ch: Channel.State, q: seq<Command>, clk: nat, i: nat) {
    forall j :: i <= j < |q| ==> Eligible(cfg, ch, q, j, clk).None?
  }

  /** Request `j` may issue `cmd`, and no request before it may issue anything. */
  predicate FirstOffer(cfg: Config, ch: Channel.State, q: seq<Command>, clk: nat, i: nat, j: nat, cmd: Command) {
    && i <= j < |q| && Eligible(cfg, ch, q, j, clk) == Some(cmd)
    && forall x :: i <= x < j ==> Eligible(cfg, ch, q, x, clk).None?
  }

  /** A queue offers what its first request that may issue anything may issue, and nothing only if no
      request may. */
  lemma {:induction false} FirstReadyMeaning(cfg: Config, ch: Channel.State, q: seq<Command>, clk: nat, i: nat)
    requires i <= |q|
    ensures FirstReady(cfg, ch, q, clk, i).None? <==> Silent(cfg, ch, q, clk, i)
    ensures FirstReady(cfg, ch, q, clk, i).Some? ==>
      exists j :: FirstOffer(cfg, ch, q, clk, i, j, FirstReady(cfg, ch, q, clk, i).value)
    decreases |q| - i
  {
    hide Eligible;
    if i < |q| {
      if Eligible(cfg, ch, q, i, clk).None? {
        FirstReadyMeaning(cfg, ch, q, clk, i + 1);
        if FirstReady(cfg, ch, q, clk, i).Some? {
          var j :| FirstOffer(cfg, ch, q, clk, i + 1, j, FirstReady(cfg, ch, q, clk, i).value);
          assert FirstOffer(cfg, ch, q, clk, i, j, FirstReady(cfg, ch, q, clk, i).value);
        }
      } else {
        assert FirstOffer(cfg, ch, q, clk, i, i, FirstReady(cfg, ch, q, clk, i).value);
      }
    }
  }

  /** The queue whose turn comes `n` steps after the last one served. */
  function Turn(st: State, n: nat): (i: nat)
    requires st.idx < |st.queues|
    ensures i < |st.queues|
  {
    (st.idx + n) % |st.queues|
  }

  /** Nothing can come from queue `qi`: it is held back, or none of its requests may issue. */
  predicate NoOffer(cfg: Config, ch: Channel.State, st: State, qi: nat)
    requires qi < |st.queues|
  {
    Skipped(st, qi) || Silent(cfg, ch, st.queues[qi], st.clk, 0)
  }

  /** The first `n` turns bring nothing. */
  predicate NoOfferBefore(cfg: Config, ch: Channel.State, st: State, n: nat)
    requires st.idx < |st.queues|
  {
    forall m :: 0 < m <= n ==> NoOffer(cfg, ch, st, Turn(st, m))
  }

  /** Turn `n` is the first that brings something: the offer of the first request that may issue there. */
  predicate TurnOffers(cfg: Config, ch: Channel.State, st: State, n: nat, j: nat, cmd: Command)
    requires st.idx < |st.queues|
  {
    && n > 0 && NoOfferBefore(cfg, ch, st, n - 1) && !Skipped(st, Turn(st, n))
    && FirstOffer(cfg, ch, st.queues[Turn(st, n)], st.clk, 0, j, cmd)
  }

  lemma NextTurn(st: State, n: nat)
    requires st.idx < |st.queues|
    ensures NextIndex(st) == Turn(st, 1) && Turn(st.(idx := NextIndex(st)), n) == Turn(st, n + 1)
  {
    var len := |st.queues|;
    if st.idx + 1 == len {
      DivModIs(st.idx + 1, 1, 0, len);
      ShiftByOne(n, len);
      assert st.idx + (n + 1) == n + len;
    } else {
      DivModIs(st.idx + 1, 0, st.idx + 1, len);
    }
  }

  lemma ShiftByOne(n: nat, len: nat)
    requires len > 0
    ensures (n + len) % len == n % len
  {
    Recompose(n, len);
    MulSucc(len, n / len);
    DivModIs(n + len, n / len + 1, n % len, len);
  }

  lemma TurnsCoverAll(st: State, qi: nat) returns (n: nat)
    requires st.idx < |st.queues| && qi < |st.queues|
    ensures 0 < n <= |st.queues| && Turn(st, n) == qi
  {
    var len := |st.queues|;
    if qi > st.idx {
      n := qi - st.idx;
      DivModIs(qi, 0, qi, len);
    } else {
      n := qi + len - st.idx;
      DivModIs(qi + len, 1, qi, len);
    }
  }

  /** Round robin: the first turn that brings something is taken; nothing is picked only if no turn brings
      anything. */
  lemma {:induction false} PickMeaning(cfg: Config, ch: Channel.State, st: State, tries: nat)
    requires st.idx < |st.queues|
    ensures var (cmd, st') := Pick(cfg, ch, st, tries);
      && st' == st.(idx := st'.idx) && st'.idx < |st.queues|
      && (cmd.Some? ==> exists n: nat, j: nat :: n <= tries && TurnOffers(cfg, ch, st, n, j, cmd.value) && st'.idx == Turn(st, n))
      && (cmd.None? ==> NoOfferBefore(cfg, ch, st, tries))
    decreases tries
  {
    hide Silent, FirstOffer, Turn, FirstReady;
    if tries > 0 {
      var next := st.(idx := NextIndex(st));
      NextTurn(st, 0);
      var q := next.queues[next.idx];
      FirstReadyMeaning(cfg, ch, q, next.clk, 0);
      if !Skipped(next, next.idx) && FirstReady(cfg, ch, q, next.clk, 0).Some? {
        var cmd := FirstReady(cfg, ch, q, next.clk, 0).value;
        var j :| FirstOffer(cfg, ch, q, next.clk, 0, j, cmd);
        assert TurnOffers(cfg, ch, st, 1, j, cmd);
      } else {
        PickMeaning(cfg, ch, next, tries - 1);
        LaterTurns(cfg, ch, st, tries);
        var cmd := Pick(cfg, ch, next, tries - 1).0;
        if cmd.Some? {
          var n: nat, j: nat :| n <= tries - 1 && TurnOffers(cfg, ch, next, n, j, cmd.value)
                                && Pick(cfg, ch, next, tries - 1).1.idx == Turn(next, n);
          assert TurnOffers(cfg, ch, st, n + 1, j, cmd.value);
        }
      }
    }
  }

  /** What holds of the turns after the first holds of all turns if the first brings nothing. */
  lemma LaterTurns(cfg: Config, ch: Channel.State, st: State, tries: nat)
    requires st.idx < |st.queues| && tries > 0 && NoOffer(cfg, ch, st, Turn(st, 1))
    ensures var next := st.(idx := NextIndex(st));
      && next.idx < |st.queues|
      && (NoOfferBefore(cfg, ch, next, tries - 1) ==> NoOfferBefore(cfg, ch, st, tries))
      && (forall n: nat, j: nat, cmd :: n <= tries - 1 && TurnOffers(cfg, ch, next, n, j, cmd) ==>
            TurnOffers(cfg, ch, st, n + 1, j, cmd) && Turn(next, n) == Turn(st, n + 1))
  {
    hide Silent, FirstOffer, Turn;
    NextTurn(st, 0);
    var next := st.(idx := NextIndex(st));
    forall n: nat ensures Turn(next, n) == Turn(st, n + 1) {
      NextTurn(st, n);
    }
    forall k: nat | NoOfferBefore(cfg, ch, next, k) ensures NoOfferBefore(cfg, ch, st, k + 1) {
      forall m | 0 < m <= k + 1 ensures NoOffer(cfg, ch, st, Turn(st, m)) {
        assert m > 1 ==> NoOffer(cfg, ch, next, Turn(next, m - 1));
      }
    }
  }

  lemma {:induction false} WithoutMatchMeaning(q: seq<Command>, cmd: Command) returns (j: nat)
    requires HasMatch(q, cmd)
    ensures j < |q| && Matches(q[j], cmd) && WithoutMatch(q, cmd) == q[..j] + q[j+1..]
    ensures forall x :: 0 <= x < j ==> !Matches(q[x], cmd)
    decreases |q|
  {
    if Matches(q[0], cmd) {
      j := 0;
    } else {
      var c :| c in q && Matches(c, cmd);
      assert c in q[1..];
      var j1 := WithoutMatchMeaning(q[1..], cmd);
      j := j1 + 1;
      assert q[1..][..j1] == q[1..j] && q[1..][j1+1..] == q[j+1..];
    }
  }

  lemma IndexInRange(cfg: Config, id: BankId)
    requires cfg.InRange(id)
    ensures 0 <= QueueIndex(cfg, id) < NumQueues(cfg)
    ensures !cfg.perRankQueues ==> cfg.Banks() > 0 && QueueIndex(cfg, id) / cfg.Banks() == id.rank
  {
    if !cfg.perRankQueues {
      var m := id.bankgroup * cfg.banksPerGroup + id.bank;
      DigitsBelow(id.bankgroup, cfg.bankgroups, id.bank, cfg.banksPerGroup);
      DigitsBelow(id.rank, cfg.ranks, m, cfg.Banks());
      DivModOfDigits(id.rank, m, cfg.Banks());
    }
  }
}
