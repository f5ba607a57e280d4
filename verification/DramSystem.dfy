/** The JEDEC memory system: one controller per channel, transactions routed by address, callbacks made
    before every cycle.  Controllers are values; module MemoryController shows that the mutable
    controller computes the same. */
module DramSystem {
  import opened Types
  import opened Timing
  import opened Owed
  import opened ControllerInvariant
  import Control
  import ControllerSteps
  import ControllerRuns
  import RunTheorems

  /** `channelOf` selects the channel of an address; AddressMapping.DecodeMeetsConfig shows that the computed
      one stays below the channel count and agrees with the decoded channel. */
  datatype Params = Params(cfg: Config, channels: nat, channelOf: nat -> nat) {
    ghost predicate Valid() {
      ControllerRuns.Sound(cfg) && forall a: nat :: channelOf(a) < channels
    }
  }

  /** What the caller sees of a transaction. */
  datatype Access = Access(addr: nat, isWrite: bool)

  function AccessOf(t: Transaction): Access { Access(t.addr, t.isWrite) }

  /** `submitted` are the transactions taken, `called` the callbacks made, in order. */
  datatype Dram = Dram(ctrls: seq<Control.State>, clk: nat, submitted: seq<Access>, called: seq<Access>)

  function Initial(p: Params): Dram {
    Dram(seq(p.channels, _ => Control.Initial(p.cfg)), 0, [], [])
  }

  function Submit(p: Params, s: Dram, a: Access): (bool, Dram)
    requires p.channelOf(a.addr) < |s.ctrls|
  {
    var c := p.channelOf(a.addr);
    if Control.WillAcceptTransaction(p.cfg, s.ctrls[c], a.isWrite) then
      (true, s.(ctrls := s.ctrls[c := Control.AddTransaction(p.cfg, s.ctrls[c], a.addr, a.isWrite)],
                submitted := s.submitted + [a]))
    else (false, s)
  }

  /** Call back everything controller `i` has finished. */
  function CallBack(s: Dram, i: nat): (t: Dram)
    requires i < |s.ctrls|
    ensures |t.ctrls| == |s.ctrls| && t.clk == s.clk && t.submitted == s.submitted
    decreases |s.ctrls[i].ret|
  {
    var (done, ctrl) := Control.ReturnDone(s.ctrls[i], s.clk);
    if done.None? then s
    else CallBack(s.(ctrls := s.ctrls[i := ctrl], called := s.called + [AccessOf(done.value)]), i)
  }

  function CallBackUpTo(s: Dram, n: nat): (t: Dram)
    requires n <= |s.ctrls|
    ensures |t.ctrls| == |s.ctrls| && t.clk == s.clk && t.submitted == s.submitted
  {
    if n == 0 then s else CallBack(CallBackUpTo(s, n - 1), n - 1)
  }

  function TickControllers(p: Params, ctrls: seq<Control.State>): seq<Control.State>
    requires p.cfg.ranks > 0 && p.cfg.RefreshInterval() > 0
  {
    seq(|ctrls|, i requires 0 <= i < |ctrls| => Control.Tick(p.cfg, MakeTable(p.cfg), ctrls[i]))
  }

  function Tick(p: Params, s: Dram): Dram
    requires p.cfg.ranks > 0 && p.cfg.RefreshInterval() > 0
  {
    var t := CallBackUpTo(s, |s.ctrls|);
    t.(ctrls := TickControllers(p, t.ctrls), clk := t.clk + 1)
  }

  // ---- the invariant

  /** Everything the controller was given belongs to channel `i`. */
  predicate OwnChannel(p: Params, i: int, c: Control.State) {
    forall k :: 0 <= k < |c.accepted| ==> p.channelOf(c.accepted[k].addr) == i
  }

  ghost predicate Routed(p: Params, i: int, c: Control.State) {
    Inv(p.cfg, MakeTable(p.cfg), c) && OwnChannel(p, i, c)
  }

  /** Every controller is in order, in step with the system, and has only seen its own channel; what was
      submitted has been called back or is owed by some controller. */
  ghost predicate SystemInv(p: Params, s: Dram) {
    && |s.ctrls| == p.channels
    && (forall i :: 0 <= i < |s.ctrls| ==> Routed(p, i, s.ctrls[i]) && s.ctrls[i].clk == s.clk)
    && multiset(s.submitted) == multiset(s.called) + OutstandingAll(s.ctrls, AccessOf)
  }

  lemma AccessIsTimeless()
    ensures Timeless(AccessOf)
  {
  }

  lemma InitialSystem(p: Params)
    requires p.Valid()
    ensures SystemInv(p, Initial(p))
  {
    var s := Initial(p);
    ControllerSteps.InitialInv(p.cfg, MakeTable(p.cfg));
    NothingOutstanding(p.cfg, AccessOf);
    hide Inv, Outstanding, ControllerRuns.Sound, OutstandingAll;
    NoneOutstanding(s.ctrls, AccessOf);
  }

  lemma SubmitKeepsInv(p: Params, s: Dram, a: Access)
    requires p.Valid() && SystemInv(p, s)
    ensures p.channelOf(a.addr) < |s.ctrls| && SystemInv(p, Submit(p, s, a).1)
  {
    hide Inv, Outstanding, OutstandingAll, ControllerRuns.Sound, Control.WillAcceptTransaction, Timeless;
    var c := p.channelOf(a.addr);
    var w := Control.AddTransaction(p.cfg, s.ctrls[c], a.addr, a.isWrite);
    AccessIsTimeless();
    AddLeaves(p.cfg, s.ctrls[c], a);
    hide Control.AddTransaction;
    assert Routed(p, c, s.ctrls[c]);
    ControllerSteps.AddKeepsInv(p.cfg, MakeTable(p.cfg), s.ctrls[c], a.addr, a.isWrite);
    AddGrowsOutstanding(p.cfg, s.ctrls[c], a.addr, a.isWrite, AccessOf);
    OutstandingUpdate(s.ctrls, c, w, AccessOf);
    Moved(OutstandingAll(s.ctrls, AccessOf), OutstandingAll(s.ctrls[c := w], AccessOf),
          Outstanding(s.ctrls[c], AccessOf), multiset{a});
    assert multiset(s.submitted + [a]) == multiset(s.submitted) + multiset{a};
  }

  lemma AddLeaves(cfg: Config, c: Control.State, a: Access)
    ensures var w := Control.AddTransaction(cfg, c, a.addr, a.isWrite);
      w.clk == c.clk && w.accepted == c.accepted + [Transaction(a.addr, c.clk, 0, a.isWrite)]
  {
  }

  lemma ReturnLeaves(c: Control.State, clk: nat)
    ensures Control.ReturnDone(c, clk).1.clk == c.clk && Control.ReturnDone(c, clk).1.accepted == c.accepted
  {
  }

  lemma {:induction false} CallBackKeepsInv(p: Params, s: Dram, i: nat)
    requires p.Valid() && SystemInv(p, s) && i < p.channels
    ensures SystemInv(p, CallBack(s, i))
    decreases |s.ctrls[i].ret|
  {
    var (done, w) := Control.ReturnDone(s.ctrls[i], s.clk);
    if done.Some? {
      var t := s.(ctrls := s.ctrls[i := w], called := s.called + [AccessOf(done.value)]);
      OneCallBackKeepsInv(p, s, i);
      CallBackKeepsInv(p, t, i);
    }
  }

  lemma OneCallBackKeepsInv(p: Params, s: Dram, i: nat)
    requires p.Valid() && SystemInv(p, s) && i < p.channels && Control.ReturnDone(s.ctrls[i], s.clk).0.Some?
    ensures var (done, w) := Control.ReturnDone(s.ctrls[i], s.clk);
      SystemInv(p, s.(ctrls := s.ctrls[i := w], called := s.called + [AccessOf(done.value)]))
  {
    hide Inv, Outstanding, OutstandingAll, ControllerRuns.Sound, Control.ReturnDone;
    var (done, w) := Control.ReturnDone(s.ctrls[i], s.clk);
    var a := AccessOf(done.value);
    assert Routed(p, i, s.ctrls[i]);
    ReturnLeaves(s.ctrls[i], s.clk);
    ControllerSteps.ReturnKeepsInv(p.cfg, MakeTable(p.cfg), s.ctrls[i], s.clk);
    ReturnShrinksOutstanding(s.ctrls[i], s.clk, AccessOf);
    OutstandingUpdate(s.ctrls, i, w, AccessOf);
    Moved(OutstandingAll(s.ctrls[i := w], AccessOf), OutstandingAll(s.ctrls, AccessOf), Outstanding(w, AccessOf), multiset{a});
    assert multiset(s.called + [a]) == multiset(s.called) + multiset{a};
  }

  lemma {:induction false} CallBackAllKeepsInv(p: Params, s: Dram, n: nat)
    requires p.Valid() && SystemInv(p, s) && n <= p.channels
    ensures SystemInv(p, CallBackUpTo(s, n))
  {
    hide SystemInv, CallBack;
    assert |s.ctrls| == p.channels by { InvSize(p, s); }
    if n > 0 {
      CallBackAllKeepsInv(p, s, n - 1);
      CallBackKeepsInv(p, CallBackUpTo(s, n - 1), n - 1);
    }
  }

  lemma InvSize(p: Params, s: Dram)
    requires SystemInv(p, s)
    ensures |s.ctrls| == p.channels
  {
  }

  lemma TickAllKeepsInv(p: Params, s: Dram)
    requires p.Valid() && SystemInv(p, s)
    ensures p.cfg.ranks > 0 && p.cfg.RefreshInterval() > 0
    ensures SystemInv(p, s.(ctrls := TickControllers(p, s.ctrls), clk := s.clk + 1))
  {
    hide Inv, Outstanding, OutstandingAll, Control.Tick, Timeless, Config.RefreshInterval;
    assert p.cfg.ranks > 0 && p.cfg.RefreshInterval() > 0;
    hide ControllerRuns.Sound;
    AccessIsTimeless();
    var next := TickControllers(p, s.ctrls);
    forall i | 0 <= i < |s.ctrls|
      ensures Routed(p, i, next[i]) && next[i].clk == s.clk + 1
      ensures Outstanding(next[i], AccessOf) == Outstanding(s.ctrls[i], AccessOf)
    {
      assert Routed(p, i, s.ctrls[i]) && s.ctrls[i].clk == s.clk;
      TickKeepsOutstanding(p.cfg, s.ctrls[i], AccessOf);
      RunTheorems.TickFollowsPlan(p.cfg, MakeTable(p.cfg), s.ctrls[i]);
    }
    OutstandingSame(next, s.ctrls, AccessOf);
  }

  lemma TickKeepsInv(p: Params, s: Dram)
    requires p.Valid() && SystemInv(p, s)
    ensures p.cfg.ranks > 0 && p.cfg.RefreshInterval() > 0 && SystemInv(p, Tick(p, s))
  {
    hide SystemInv, CallBackUpTo, TickControllers, ControllerRuns.Sound, Config.RefreshInterval;
    InvSize(p, s);
    CallBackAllKeepsInv(p, s, p.channels);
    TickAllKeepsInv(p, CallBackUpTo(s, p.channels));
  }

  // ---- runs

  datatype Op = Offer(a: Access) | Cycle

  ghost function After(p: Params, ops: seq<Op>): (s: Dram)
    requires p.Valid()
    ensures SystemInv(p, s)
    decreases |ops|
  {
    hide SystemInv;
    if ops == [] then InitialSystem(p); Initial(p)
    else
      var s, op := After(p, ops[..|ops|-1]), ops[|ops|-1];
      if op.Offer? then SubmitKeepsInv(p, s, op.a); Submit(p, s, op.a).1
      else TickKeepsInv(p, s); Tick(p, s)
  }

  /** On every run each callback answers one submitted transaction, none is answered twice, and those not
      yet answered are owed by the controllers; each controller has only been given addresses of its own
      channel, and keeps step. */
  lemma SystemConserves(p: Params, ops: seq<Op>)
    requires p.Valid()
    ensures var s := After(p, ops);
      && multiset(s.submitted) == multiset(s.called) + OutstandingAll(s.ctrls, AccessOf)
      && multiset(s.called) <= multiset(s.submitted)
    ensures var s := After(p, ops); |s.ctrls| == p.channels && forall i :: 0 <= i < p.channels ==>
      s.ctrls[i].clk == s.clk && OwnChannel(p, i, s.ctrls[i])
  {
    hide After, Inv, OutstandingAll;
    var s := After(p, ops);
    forall i | 0 <= i < p.channels ensures s.ctrls[i].clk == s.clk && OwnChannel(p, i, s.ctrls[i]) {
      assert Routed(p, i, s.ctrls[i]);
    }
  }

  // ---- the mutable system

  class JedecDRAMSystem {
    const p: Params
    var ctrls: seq<Control.State>
    var clk: nat
    ghost var submitted: seq<Access>
    ghost var called: seq<Access>

    ghost function View(): Dram
      reads this
    {
      Dram(ctrls, clk, submitted, called)
    }

    ghost predicate Valid()
      reads this
    {
      p.Valid() && SystemInv(p, View())
    }

    constructor (p: Params)
      requires p.Valid()
      ensures Valid() && this.p == p && View() == Initial(p)
    {
      this.p := p;
      ctrls, clk := seq(p.channels, _ => Control.Initial(p.cfg)), 0;
      submitted, called := [], [];
      new;
      InitialSystem(p);
    }

    /** The transaction goes to the controller of its channel, if that has room. */
    method AddTransaction(addr: nat, isWrite: bool) returns (ok: bool)
      requires Valid()
      modifies this`ctrls, this`submitted
      ensures Valid() && p.channelOf(addr) < |old(ctrls)|
      ensures (ok, View()) == Submit(p, old(View()), Access(addr, isWrite))
    {
      hide SystemInv, Control.WillAcceptTransaction, Control.AddTransaction;
      SubmitKeepsInv(p, View(), Access(addr, isWrite));
      var channel := p.channelOf(addr);
      ok := Control.WillAcceptTransaction(p.cfg, ctrls[channel], isWrite);
      if ok {
        ctrls := ctrls[channel := Control.AddTransaction(p.cfg, ctrls[channel], addr, isWrite)];
        submitted := submitted + [Access(addr, isWrite)];
      }
    }

    method MakeCallbacks()
      requires Valid()
      modifies this`ctrls, this`called
      ensures Valid() && View() == CallBackUpTo(old(View()), |old(ctrls)|)
    {
      hide SystemInv, Control.ReturnDone, Params.Valid;
      ghost var s := View();
      InvSize(p, s);
      var i := 0;
      while i < |ctrls|
        invariant Valid() && 0 <= i <= |ctrls| == |s.ctrls| == p.channels && View() == CallBackUpTo(s, i)
      {
        ghost var before := View();
        CallBackKeepsInv(p, before, i);
        while true
          invariant |ctrls| == |s.ctrls| && CallBack(View(), i) == CallBack(before, i)
          decreases |ctrls[i].ret|
        {
          var (done, ctrl) := Control.ReturnDone(ctrls[i], clk);
          ReturnShortens(ctrls[i], clk);
          if done.None? {
            break;
          }
          ctrls := ctrls[i := ctrl];
          called := called + [AccessOf(done.value)];
        }
        i := i + 1;
      }
    }

    /** Callbacks first, then one cycle of every controller. */
    method ClockTick()
      requires Valid()
      modifies this`ctrls, this`clk, this`called
      ensures Valid() && p.cfg.ranks > 0 && p.cfg.RefreshInterval() > 0 && View() == Tick(p, old(View()))
    {
      hide SystemInv, CallBackUpTo, Control.Tick, Config.RefreshInterval, ControllerRuns.Sound;
      TickKeepsInv(p, View());
      MakeCallbacks();
      ghost var t, before := View(), ctrls;
      var i := 0;
      while i < |ctrls|
        invariant 0 <= i <= |ctrls| == |before| && View() == t.(ctrls := ctrls)
        invariant forall k :: 0 <= k < i ==> ctrls[k] == Control.Tick(p.cfg, MakeTable(p.cfg), before[k])
        invariant forall k :: i <= k < |ctrls| ==> ctrls[k] == before[k]
      {
        ctrls := ctrls[i := Control.Tick(p.cfg, MakeTable(p.cfg), ctrls[i])];
        i := i + 1;
      }
      assert ctrls == TickControllers(p, before);
      clk := clk + 1;
    }
  }

}
