/** The mutable command queues of a channel: choice of the next command, refresh priority, erasure. */
module CommandQueueModel {
  import opened Types
  import opened ChannelStateModel
  import opened DeskInvariant
  import opened ControllerInvariant
  import Channel
  import Queues

  class CommandQueue {
    const cfg: Config
    const ch: ChannelState
    var queues: seq<seq<Command>>
    var idx: nat
    var inRef: bool
    var refIdx: set<int>
    var clk: nat
    /** Set where the source exits because a fetched command is in no queue. */
    var lost: bool

    ghost function View(): Queues.State
      reads this
    {
      Queues.State(queues, idx, inRef, refIdx, clk)
    }

    /** Every queue holds commands of its own banks, and the channel can be asked about them. */
    ghost predicate Valid()
      reads this, ch
    {
      && cfg.Valid() && ch.cfg == cfg && ch.Valid()
      && QueuesOk(cfg, queues) && idx < |queues|
      && forall id :: id in ch.banks ==> !ch.banks[id].mode.Sref?
    }

    constructor (cfg: Config, ch: ChannelState)
      ensures this.cfg == cfg && this.ch == ch && View() == Queues.Initial(cfg) && !lost
    {
      this.cfg, this.ch := cfg, ch;
      queues := seq(Queues.NumQueues(cfg), _ => []);
      idx, inRef, refIdx, clk, lost := 0, false, {}, 0, false;
    }

    method ClockTick()
      modifies this`clk
      ensures clk == old(clk) + 1
    {
      clk := clk + 1;
    }

    // ---- read-only scans

    method WillAcceptCommand(id: BankId) returns (ok: bool)
      requires 0 <= Queues.QueueIndex(cfg, id) < |queues|
      ensures ok == Queues.WillAccept(cfg, View(), id)
    {
      ok := |queues[Queues.QueueIndex(cfg, id)]| < cfg.cmdQueueSize;
    }

    method QueueEmpty() returns (empty: bool)
      ensures empty == Queues.Empty(View())
    {
      var i := 0;
      while i < |queues|
        invariant 0 <= i <= |queues|
        invariant forall j :: 0 <= j < i ==> queues[j] == []
      {
        if queues[i] != [] {
          return false;
        }
        i := i + 1;
      }
      return true;
    }

    /** Whether closing the open row for request `i` is allowed. */
    method ArbitratePrecharge(q: seq<Command>, i: nat) returns (ok: bool)
      requires i < |q| && q[i].Target() in ch.banks
      ensures ok == Queues.MayPrecharge(ch.View(), q, i)
    {
      var id := q[i].Target();
      var j := 0;
      while j < i
        invariant 0 <= j <= i
        invariant forall x :: 0 <= x < j ==> q[x].Target() != id
      {
        if q[j].Target() == id {
          return false;
        }
        j := j + 1;
      }
      var pendingRowHits := false;
      var row := ch.banks[id].row;
      j := i;
      while j < |q|
        invariant i <= j <= |q| && !pendingRowHits
        invariant forall x :: i <= x < j ==> !(q[x].Target() == id && q[x].addr.row == row)
      {
        if q[j].addr.row == row && q[j].Target() == id {
          pendingRowHits := true;
          break;
        }
        j := j + 1;
      }
      return !pendingRowHits || ch.banks[id].hits >= 4;
    }

    method HasRWDependency(q: seq<Command>, i: nat) returns (found: bool)
      requires i < |q|
      ensures found == Queues.WaitsForRead(q, i)
    {
      var j := 0;
      while j < i
        invariant 0 <= j <= i
        invariant forall x :: 0 <= x < j ==> !(q[x].kind.IsRead() && Queues.SameCell(q[x], q[i]))
      {
        if q[j].kind.IsRead() && Queues.SameCell(q[j], q[i]) {
          return true;
        }
        j := j + 1;
      }
      return false;
    }

    /** The first request of a queue on whose behalf something may be issued now. */
    method GetFirstReadyInQueue(q: seq<Command>) returns (r: Option<Command>)
      requires Valid()
      requires forall i :: 0 <= i < |q| ==> q[i].kind.IsReadWrite() && cfg.InRange(q[i].Target())
      ensures r == Queues.FirstReady(cfg, ch.View(), q, clk, 0)
    {
      hide Channel.ReadyCommand, Queues.MayPrecharge, Queues.WaitsForRead, QueuesOk;
      var i := 0;
      while i < |q|
        invariant 0 <= i <= |q|
        invariant Queues.FirstReady(cfg, ch.View(), q, clk, 0) == Queues.FirstReady(cfg, ch.View(), q, clk, i)
      {
        r := ch.GetReadyCommand(q[i], clk);
        if r.Some? {
          var skip := false;
          if r.value.kind.Precharge? {
            var ok := ArbitratePrecharge(q, i);
            skip := !ok;
          } else if r.value.kind.IsWrite() {
            skip := HasRWDependency(q, i);
          }
          if !skip {
            return;
          }
        }
        i := i + 1;
      }
      r := None;
    }

    // ---- fetching

    /** Round robin over all queues, starting after the last one served. */
    method GetCommandToIssue() returns (r: Option<Command>)
      requires Valid()
      modifies this`queues, this`idx, this`lost
      ensures var f := Queues.GetCommand(cfg, ch.View(), old(View()));
        r == f.cmd && View() == f.st && lost == (old(lost) || f.lost)
    {
      hide Queues.FirstReady, Queues.HasMatch, Queues.WithoutMatch, QueuesOk, Channel.WellShaped, Config.Valid, Queues.QueueIndex;
      ghost var st := View();
      var tries := |queues|;
      while tries > 0
        invariant 0 <= tries <= |queues| && View() == st.(idx := idx) && idx < |queues| && lost == old(lost)
        invariant Queues.Pick(cfg, ch.View(), st, |queues|) == Queues.Pick(cfg, ch.View(), View(), tries)
      {
        idx := if idx + 1 == |queues| then 0 else idx + 1;
        if !(inRef && idx in refIdx) {
          RequestsInRange(cfg, queues, idx);
          r := GetFirstReadyInQueue(queues[idx]);
          if r.Some? {
            if r.value.kind.IsReadWrite() {
              EraseRWCommand(r.value);
            }
            return;
          }
        }
        tries := tries - 1;
      }
      r := None;
    }

    /** Remove the first command with the same address and kind from the queue of its bank. */
    method EraseRWCommand(cmd: Command)
      modifies this`queues, this`lost
      ensures var qi := Queues.QueueIndex(cfg, cmd.Target());
        if 0 <= qi < |old(queues)| && Queues.HasMatch(old(queues)[qi], cmd)
        then lost == old(lost) && queues == old(queues)[qi := Queues.WithoutMatch(old(queues)[qi], cmd)]
        else lost && queues == old(queues)
    {
      hide Queues.QueueIndex, Queues.HasMatch, Queues.WithoutMatch;
      var qi := Queues.QueueIndex(cfg, cmd.Target());
      if 0 <= qi < |queues| {
        var i := FindMatch(queues[qi], cmd);
        if i < |queues[qi]| {
          queues := queues[qi := queues[qi][..i] + queues[qi][i+1..]];
          return;
        }
      }
      lost := true;
    }

    /** Position of the first command with the same address and kind. */
    method FindMatch(q: seq<Command>, cmd: Command) returns (i: nat)
      ensures i <= |q| && (i < |q| <==> Queues.HasMatch(q, cmd))
      ensures i < |q| ==> Queues.WithoutMatch(q, cmd) == q[..i] + q[i+1..]
    {
      i := 0;
      while i < |q|
        invariant 0 <= i <= |q|
        invariant forall x :: 0 <= x < i ==> !Queues.Matches(q[x], cmd)
        invariant Queues.WithoutMatch(q, cmd) == q[..i] + Queues.WithoutMatch(q[i..], cmd)
      {
        if Queues.Matches(q[i], cmd) {
          assert q[i..][1..] == q[i+1..] && q[i] in q;
          return;
        }
        assert q[i..] == [q[i]] + q[i+1..];
        i := i + 1;
      }
    }

    // ---- refresh priority

    method GetRefQIndices(ref: Command)
      requires cfg.Valid()
      modifies this`refIdx
      ensures refIdx == old(refIdx) + Queues.RefQueues(cfg, ref)
    {
      if ref.kind.Refresh? {
        if !cfg.perRankQueues {
          var i := 0;
          assert cfg.Banks() > 0;
          while i < Queues.NumQueues(cfg)
            invariant 0 <= i <= Queues.NumQueues(cfg)
            invariant refIdx == old(refIdx) + set x: int | 0 <= x < i && x / cfg.Banks() == ref.addr.rank
          {
            if i / cfg.Banks() == ref.addr.rank {
              refIdx := refIdx + {i};
            }
            i := i + 1;
          }
        } else {
          refIdx := refIdx + {ref.addr.rank};
        }
      } else {
        refIdx := refIdx + {Queues.QueueIndex(cfg, ref.Target())};
      }
    }

    /** Serve the refresh at the head of the list: a precharge it needs, the refresh itself, or nothing. */
    method FinishRefresh() returns (r: Option<Command>)
      requires Valid() && ch.refreshQ != [] && IsRefreshRequest(cfg, ch.refreshQ[0])
      modifies this`inRef, this`refIdx
      ensures (r, View()) == Queues.FinishRefresh(cfg, ch.View(), old(View()))
    {
      hide Channel.ReadyCommand, Queues.RefQueues;
      var ref := ch.refreshQ[0];
      if !inRef {
        GetRefQIndices(ref);
        inRef := true;
      }
      r := ch.GetReadyCommand(ref, clk);
      if r.Some? && r.value.kind.IsRefresh() {
        refIdx := {};
        inRef := false;
      }
    }

    // ---- adding

    method AddCommand(cmd: Command) returns (ok: bool)
      requires 0 <= Queues.QueueIndex(cfg, cmd.Target()) < |queues|
      modifies this`queues
      ensures View() == Queues.Add(cfg, old(View()), cmd) && ok == Queues.WillAccept(cfg, old(View()), cmd.Target())
    {
      var qi := Queues.QueueIndex(cfg, cmd.Target());
      if |queues[qi]| < cfg.cmdQueueSize {
        queues := queues[qi := queues[qi] + [cmd]];
        return true;
      }
      return false;
    }
  }

  lemma RequestsInRange(cfg: Config, queues: seq<seq<Command>>, qi: nat)
    requires cfg.Valid() && QueuesOk(cfg, queues) && qi < |queues|
    ensures forall i :: 0 <= i < |queues[qi]| ==>
      queues[qi][i].kind.IsReadWrite() && cfg.InRange(queues[qi][i].Target())
  {
    forall i | 0 <= i < |queues[qi]|
      ensures queues[qi][i].kind.IsReadWrite() && cfg.InRange(queues[qi][i].Target())
    {
      assert IsQueued(cfg, queues[qi][i], qi);
      QueuedIsRequest(cfg, queues[qi][i], qi);
    }
  }
}
