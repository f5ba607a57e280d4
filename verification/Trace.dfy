/** Whole-run properties of the commands a channel issues, stated on the command trace alone. */
module Trace {
  import opened Types
  import opened Timing
  import opened Channel

  /** One line of the command trace: the command, its cycle, and how many accepted reads of its
      address were still owed an answer at that moment. */
  datatype Issued = Issued(cmd: Command, clk: nat, owed: nat)

  predicate Activates(e: Issued, id: BankId) {
    e.cmd.kind.Activate? && e.cmd.Target() == id
  }

  predicate Closes(e: Issued, id: BankId) {
    (e.cmd.kind.ReadPrecharge? || e.cmd.kind.WritePrecharge? || e.cmd.kind.Precharge?) && e.cmd.Target() == id
  }

  predicate Accesses(e: Issued, id: BankId) {
    e.cmd.kind.IsReadWrite() && e.cmd.Target() == id
  }

  /** Row left open in bank `id` by the first `k` commands. */
  function OpenRow(tr: seq<Issued>, k: nat, id: BankId): Option<int>
    requires k <= |tr|
  {
    if k == 0 then None
    else if Activates(tr[k-1], id) then Some(tr[k-1].cmd.addr.row)
    else if Closes(tr[k-1], id) then None
    else OpenRow(tr, k - 1, id)
  }

  /** Reads and writes to bank `id` since it was last activated or closed. */
  function RowHits(tr: seq<Issued>, k: nat, id: BankId): nat
    requires k <= |tr|
  {
    if k == 0 || Activates(tr[k-1], id) || Closes(tr[k-1], id) then 0
    else RowHits(tr, k - 1, id) + (if Accesses(tr[k-1], id) then 1 else 0)
  }

  /** Cycles of the activations of a rank among the first `k` commands. */
  function Activations(tr: seq<Issued>, k: nat, rank: int): seq<nat>
    requires k <= |tr|
  {
    if k == 0 then []
    else
      Activations(tr, k - 1, rank)
      + (if tr[k-1].cmd.kind.Activate? && tr[k-1].cmd.addr.rank == rank then [tr[k-1].clk] else [])
  }

  /** `later` keeps every spacing that `earlier` applies to a bank `later` acts on. */
  ghost predicate Spaced(cfg: Config, tm: Table, earlier: Issued, later: Issued) {
    forall id: BankId, d: int ::
      Targets(cfg, later.cmd, id) && (later.cmd.kind, d) in Applied(tm, earlier.cmd, id)
      ==> later.clk >= earlier.clk + d
  }

  predicate InGeometry(cfg: Config, cmd: Command) {
    && !cmd.kind.SrefEnter? && !cmd.kind.SrefExit?
    && (if cmd.kind.IsRankCmd() then 0 <= cmd.addr.rank < cfg.ranks else cfg.InRange(cmd.Target()))
  }

  /** The bank machine allows command `k`. */
  ghost predicate FollowsProtocol(cfg: Config, tr: seq<Issued>, k: nat)
    requires k < |tr|
  {
    var cmd := tr[k].cmd;
    match cmd.kind
    case Activate => OpenRow(tr, k, cmd.Target()).None?
    case Precharge => OpenRow(tr, k, cmd.Target()).Some?
    case RefreshBank => OpenRow(tr, k, cmd.Target()).None?
    case Refresh => forall id: BankId :: InRank(cfg, cmd.addr.rank, id) ==> OpenRow(tr, k, id).None?
    case _ => OpenRow(tr, k, cmd.Target()) == Some(cmd.addr.row)
  }

  /** An activation at `clk` after activations `acts` keeps a window of `size` per `width` cycles. */
  predicate WindowKept(acts: seq<nat>, clk: nat, size: nat, width: nat) {
    |acts| >= size > 0 ==> clk >= acts[|acts| - size] + width
  }

  predicate KeepsWindows(cfg: Config, tr: seq<Issued>, k: nat)
    requires k < |tr|
  {
    tr[k].cmd.kind.Activate? ==>
      var acts := Activations(tr, k, tr[k].cmd.addr.rank);
      WindowKept(acts, tr[k].clk, 4, cfg.tFAW)
      && (cfg.IsGDDR() ==> WindowKept(acts, tr[k].clk, 32, cfg.t32AW))
  }

  ghost predicate EventOk(cfg: Config, tm: Table, tr: seq<Issued>, k: nat)
    requires k < |tr|
  {
    && InGeometry(cfg, tr[k].cmd)
    && (k > 0 ==> tr[k-1].clk <= tr[k].clk)
    && (forall i :: 0 <= i < k ==> Spaced(cfg, tm, tr[i], tr[k]))
    && FollowsProtocol(cfg, tr, k)
    && KeepsWindows(cfg, tr, k)
  }

  /** Every command of the trace was allowed where it stands. */
  ghost predicate TraceOk(cfg: Config, tm: Table, tr: seq<Issued>) {
    forall k :: 0 <= k < |tr| ==> EventOk(cfg, tm, tr, k)
  }

  /** An access is of the kind the row policy makes. */
  predicate OwnKind(cfg: Config, e: Issued) {
    e.cmd.kind.IsReadWrite() ==> e.cmd.kind == cfg.AccessKind(e.cmd.kind.IsWrite())
  }

  /** A trace that the banks accept and whose accesses are those of the row policy. */
  ghost predicate Accepted(cfg: Config, tr: seq<Issued>) {
    TraceOk(cfg, MakeTable(cfg), tr) && forall k :: 0 <= k < |tr| ==> OwnKind(cfg, tr[k])
  }

  // ---- the recursive readings depend on the prefix only

  lemma {:induction false} ReadingsOfPrefix(tr: seq<Issued>, more: seq<Issued>, k: nat, id: BankId)
    requires k <= |tr|
    ensures OpenRow(tr + more, k, id) == OpenRow(tr, k, id)
    ensures RowHits(tr + more, k, id) == RowHits(tr, k, id)
    ensures Activations(tr + more, k, id.rank) == Activations(tr, k, id.rank)
  {
    if k > 0 {
      ReadingsOfPrefix(tr, more, k - 1, id);
    }
  }

  lemma EventOkOfPrefix(cfg: Config, tm: Table, tr: seq<Issued>, more: seq<Issued>, k: nat)
    requires k < |tr| && EventOk(cfg, tm, tr, k)
    ensures EventOk(cfg, tm, tr + more, k)
  {
    forall id: BankId {
      ReadingsOfPrefix(tr, more, k, id);
    }
    assert (tr + more)[k] == tr[k];
    ReadingsOfPrefix(tr, more, k, BankId(tr[k].cmd.addr.rank, 0, 0));
    forall i | 0 <= i < k ensures Spaced(cfg, tm, (tr + more)[i], (tr + more)[k]) {
      assert (tr + more)[i] == tr[i];
    }
  }

  // ---- clocks never run backwards

  lemma {:induction false} ClocksOrdered(cfg: Config, tm: Table, tr: seq<Issued>, i: nat, k: nat)
    requires TraceOk(cfg, tm, tr) && i <= k < |tr|
    ensures tr[i].clk <= tr[k].clk
  {
    if i < k {
      ClocksOrdered(cfg, tm, tr, i, k - 1);
      assert EventOk(cfg, tm, tr, k);
    }
  }

  // ---- every access hits the row of the latest activation still standing

  ghost predicate StandingActivation(tr: seq<Issued>, i: nat, k: nat, id: BankId) {
    && i < k <= |tr| && Activates(tr[i], id)
    && forall j :: i < j < k ==> !Activates(tr[j], id) && !Closes(tr[j], id)
  }

  lemma {:induction false} OpenRowIsStanding(tr: seq<Issued>, k: nat, id: BankId) returns (i: nat)
    requires k <= |tr| && OpenRow(tr, k, id).Some?
    ensures StandingActivation(tr, i, k, id) && tr[i].cmd.addr.row == OpenRow(tr, k, id).value
  {
    if Activates(tr[k-1], id) {
      i := k - 1;
    } else {
      i := OpenRowIsStanding(tr, k - 1, id);
    }
  }

  lemma AccessesHitTheOpenRow(cfg: Config, tm: Table, tr: seq<Issued>, k: nat) returns (i: nat)
    requires TraceOk(cfg, tm, tr) && k < |tr| && tr[k].cmd.kind.IsReadWrite()
    ensures StandingActivation(tr, i, k, tr[k].cmd.Target())
    ensures tr[i].cmd.addr.row == tr[k].cmd.addr.row
  {
    assert EventOk(cfg, tm, tr, k);
    i := OpenRowIsStanding(tr, k, tr[k].cmd.Target());
  }

  /** A bank closed after command `i` and open before command `k` was activated in between. */
  lemma {:induction false} ActivationBetween(tr: seq<Issued>, i: nat, k: nat, id: BankId) returns (j: nat)
    requires i <= k <= |tr|
    requires OpenRow(tr, i, id).None? && OpenRow(tr, k, id).Some?
    ensures i <= j < k && Activates(tr[j], id)
  {
    if Activates(tr[k-1], id) {
      j := k - 1;
    } else {
      j := ActivationBetween(tr, i, k - 1, id);
    }
  }

  // ---- refresh

  /** A refresh finds its rank closed, and the rank then stays silent for tRFC cycles (the bank-level
      refresh command, which the rank-level policies never issue, is not covered by the table). */
  lemma RefreshSilencesRank(cfg: Config, tr: seq<Issued>, i: nat, k: nat)
    requires TraceOk(cfg, MakeTable(cfg), tr) && i < k < |tr|
    requires tr[i].cmd.kind == Kind.Refresh && tr[k].cmd.addr.rank == tr[i].cmd.addr.rank
    requires tr[k].cmd.kind != RefreshBank
    requires cfg.bankgroups > 0 && cfg.banksPerGroup > 0
    ensures tr[k].clk >= tr[i].clk + cfg.tRFC
  {
    var tm := MakeTable(cfg);
    assert EventOk(cfg, tm, tr, k) && EventOk(cfg, tm, tr, i);
    var id := tr[k].cmd.Target();
    if tr[k].cmd.kind == Kind.Refresh {
      RefreshSpacing(cfg, tr[i], tr[k], BankId(tr[k].cmd.addr.rank, 0, 0));
    } else if tr[k].cmd.kind == Activate {
      RefreshSpacing(cfg, tr[i], tr[k], id);
    } else {
      assert InRank(cfg, tr[i].cmd.addr.rank, id);
      var j := ActivationBetween(tr, i, k, id);
      assert j != i;
      assert EventOk(cfg, tm, tr, j);
      RefreshSpacing(cfg, tr[i], tr[j], id);
      ClocksOrdered(cfg, tm, tr, j, k);
    }
  }

  lemma RefreshSpacing(cfg: Config, earlier: Issued, later: Issued, id: BankId)
    requires Spaced(cfg, MakeTable(cfg), earlier, later) && Targets(cfg, later.cmd, id)
    requires earlier.cmd.kind == Kind.Refresh && earlier.cmd.addr.rank == id.rank
    requires later.cmd.kind == Kind.Refresh || later.cmd.kind == Activate
    ensures later.clk >= earlier.clk + cfg.tRFC
  {
    assert (later.cmd.kind, cfg.tRFC) in Applied(MakeTable(cfg), earlier.cmd, id);
  }
}
