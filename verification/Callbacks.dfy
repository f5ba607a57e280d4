/** When the memory system calls back: in the cycle in which a transaction is done. */
module Callbacks {
  import opened Types
  import opened Timing
  import opened DramSystem
  import opened Completion
  import RunTheorems
  import C = Control

  function Accesses(q: seq<Transaction>): seq<Access> {
    seq(|q|, i requires 0 <= i < |q| => AccessOf(q[i]))
  }

  predicate NoneDone(q: seq<Transaction>, clk: nat) {
    forall i :: 0 <= i < |q| ==> clk < q[i].complete
  }

  /** Controller `c` has handed back `d`, which is everything it had finished at `clk`. */
  predicate HandsBack(c: C.State, c': C.State, d: seq<Transaction>, clk: nat) {
    && c' == c.(ret := c'.ret, delivered := c.delivered + d)
    && multiset(c.ret) == multiset(c'.ret) + multiset(d)
    && AllDone(d, clk) && NoneDone(c'.ret, clk)
  }

  lemma {:induction false} CallBackMeaning(s: Dram, i: nat) returns (d: seq<Transaction>)
    requires i < |s.ctrls|
    ensures var c' := CallBack(s, i).ctrls[i];
      && HandsBack(s.ctrls[i], c', d, s.clk)
      && CallBack(s, i) == s.(ctrls := s.ctrls[i := c'], called := s.called + Accesses(d))
    decreases |s.ctrls[i].ret|
  {
    hide C.ReturnDone;
    var c := s.ctrls[i];
    var k := ReturnMeaning(c, s.clk);
    if k == |c.ret| {
      d := [];
    } else {
      var c1 := HandedBack(c, k);
      var s1 := s.(ctrls := s.ctrls[i := c1], called := s.called + [AccessOf(c.ret[k])]);
      var rest := CallBackMeaning(s1, i);
      d := [c.ret[k]] + rest;
      HandBackJoins(c, k, CallBack(s1, i).ctrls[i], rest, s.clk);
      assert Accesses(d) == [AccessOf(c.ret[k])] + Accesses(rest);
      assert s.called + Accesses(d) == s.called + [AccessOf(c.ret[k])] + Accesses(rest);
    }
  }

  lemma HandBackJoins(c: C.State, k: nat, c': C.State, rest: seq<Transaction>, clk: nat)
    requires k < |c.ret| && c.ret[k].complete <= clk && HandsBack(HandedBack(c, k), c', rest, clk)
    ensures HandsBack(c, c', [c.ret[k]] + rest, clk)
  {
    TakenOut(c.ret, k);
    assert c.delivered + [c.ret[k]] + rest == c.delivered + ([c.ret[k]] + rest);
    assert multiset([c.ret[k]] + rest) == multiset{c.ret[k]} + multiset(rest);
  }

  function Joined(ds: seq<seq<Transaction>>): seq<Transaction> {
    if ds == [] then [] else Joined(ds[..|ds| - 1]) + ds[|ds| - 1]
  }

  /** The first `n` controllers have handed back `ds`, called back in channel order; the others wait. */
  predicate CalledBack(s: Dram, t: Dram, ds: seq<seq<Transaction>>, n: nat) {
    && |ds| == n <= |s.ctrls| == |t.ctrls|
    && (forall i :: 0 <= i < n ==> HandsBack(s.ctrls[i], t.ctrls[i], ds[i], s.clk))
    && (forall i :: n <= i < |s.ctrls| ==> t.ctrls[i] == s.ctrls[i])
    && t == s.(ctrls := t.ctrls, called := s.called + Accesses(Joined(ds)))
  }

  lemma {:induction false} CallBacksMeaning(s: Dram, n: nat) returns (ds: seq<seq<Transaction>>)
    requires n <= |s.ctrls|
    ensures CalledBack(s, CallBackUpTo(s, n), ds, n)
  {
    hide HandsBack, CallBack;
    if n == 0 {
      ds := [];
      assert Accesses(Joined(ds)) == [];
    } else {
      var before := CallBacksMeaning(s, n - 1);
      var d := CallBackMeaning(CallBackUpTo(s, n - 1), n - 1);
      ds := before + [d];
      assert ds[..n-1] == before;
      assert Accesses(Joined(ds)) == Accesses(Joined(before)) + Accesses(d);
      assert s.called + Accesses(Joined(ds)) == s.called + Accesses(Joined(before)) + Accesses(d);
    }
  }

  // ---- a cycle only adds what it finishes

  /** Nothing has left, and what is new is done AL + CL + burst cycles from now. */
  predicate OnlyFinishes(cfg: Config, c: C.State, c': C.State) {
    && c'.delivered == c.delivered && c'.clk >= c.clk
    && forall i :: 0 <= i < |c'.ret| ==> c'.ret[i] in c.ret || c'.ret[i].complete == c.clk + cfg.AL + cfg.CL + cfg.burst
  }

  lemma LedgerFinishesNothing(cfg: Config, c: C.State, c': C.State)
    requires SameLedger(c, c')
    ensures OnlyFinishes(cfg, c, c') && c'.clk == c.clk
  {
  }

  lemma IssueFinishes(cfg: Config, tm: Table, c: C.State, cmd: Command)
    ensures OnlyFinishes(cfg, c, C.IssueCommand(cfg, tm, c, cmd)) && C.IssueCommand(cfg, tm, c, cmd).clk == c.clk
  {
    hide C.IssueCommand, C.With, C.Without, C.RemoveFirst, C.HasAddr;
    IssueShape(cfg, tm, c, cmd);
  }

  lemma FinishesInTurn(cfg: Config, c: C.State, c1: C.State, c2: C.State)
    requires OnlyFinishes(cfg, c, c1) && OnlyFinishes(cfg, c1, c2) && c1.clk == c.clk
    ensures OnlyFinishes(cfg, c, c2)
  {
    forall i | 0 <= i < |c2.ret| && c2.ret[i] in c1.ret
      ensures c2.ret[i] in c.ret || c2.ret[i].complete == c.clk + cfg.AL + cfg.CL + cfg.burst
    {
      var j :| 0 <= j < |c1.ret| && c1.ret[j] == c2.ret[i];
    }
  }

  lemma ServeFinishes(cfg: Config, tm: Table, c: C.State)
    ensures OnlyFinishes(cfg, c, C.Serve(cfg, tm, c)) && C.Serve(cfg, tm, c).clk == c.clk
  {
    hide C.Choose, C.IssueCommand, C.Fetch, OnlyFinishes;
    var (cmd, c1) := C.Choose(cfg, c);
    ChooseKeepsLedger(cfg, c);
    LedgerFinishesNothing(cfg, c, c1);
    if cmd.Some? {
      var c2 := C.IssueCommand(cfg, tm, c1, cmd.value);
      IssueFinishes(cfg, tm, c1, cmd.value);
      FinishesInTurn(cfg, c, c1, c2);
      FetchKeepsLedger(cfg, c2);
      var (second, c3) := C.Fetch(cfg, c2);
      LedgerFinishesNothing(cfg, c2, c3);
      FinishesInTurn(cfg, c, c2, c3);
      if second.Some? {
        IssueFinishes(cfg, tm, c3, second.value);
        FinishesInTurn(cfg, c, c3, C.IssueCommand(cfg, tm, c3, second.value));
      }
    }
  }

  lemma ClockFinishesNothing(cfg: Config, c: C.State, c1: C.State)
    requires OnlyFinishes(cfg, c, c1)
    ensures OnlyFinishes(cfg, c, C.AdvanceClocks(c1))
  {
  }

  lemma TickFinishes(cfg: Config, tm: Table, c: C.State)
    requires cfg.ranks > 0 && cfg.RefreshInterval() > 0
    ensures OnlyFinishes(cfg, c, C.Tick(cfg, tm, c))
  {
    hide C.Serve, C.Schedule, OnlyFinishes, C.AdvanceClocks;
    var c1 := C.RefreshStep(cfg, c);
    LedgerFinishesNothing(cfg, c, c1);
    ServeFinishes(cfg, tm, c1);
    var c2 := C.Serve(cfg, tm, c1);
    FinishesInTurn(cfg, c, c1, c2);
    ScheduleKeepsLedger(cfg, c2);
    LedgerFinishesNothing(cfg, c2, C.Schedule(cfg, c2));
    FinishesInTurn(cfg, c, c2, C.Schedule(cfg, c2));
    ClockFinishesNothing(cfg, c, C.Schedule(cfg, c2));
  }

  // ---- on every run

  /** The answers of a controller are those its history calls for, and none of them is overdue. */
  ghost predicate OnTime(cfg: Config, c: C.State) {
    && Timely(cfg, c, c.clk)
    && (cfg.AL + cfg.CL + cfg.burst > 0 ==> forall i :: 0 <= i < |c.ret| ==> c.clk <= c.ret[i].complete)
  }

  ghost predicate AllOnTime(p: Params, s: Dram) {
    forall i :: 0 <= i < |s.ctrls| ==> OnTime(p.cfg, s.ctrls[i])
  }

  lemma AddStaysOnTime(cfg: Config, c: C.State, addr: nat, isWrite: bool)
    requires OnTime(cfg, c)
    ensures OnTime(cfg, C.AddTransaction(cfg, c, addr, isWrite))
  {
    hide Timely, C.AddTransaction, C.HasAddr;
    AddShape(cfg, c, addr, isWrite);
    AddKeepsTimely(cfg, c, addr, isWrite);
  }

  lemma SubmitStaysOnTime(p: Params, s: Dram, a: Access)
    requires p.channelOf(a.addr) < |s.ctrls| && AllOnTime(p, s)
    ensures AllOnTime(p, Submit(p, s, a).1)
  {
    hide OnTime, C.AddTransaction, C.WillAcceptTransaction;
    AddStaysOnTime(p.cfg, s.ctrls[p.channelOf(a.addr)], a.addr, a.isWrite);
  }

  /** Whatever is handed back in one go is handed back one by one. */
  lemma {:induction false} CallBackStaysTimely(cfg: Config, s: Dram, i: nat)
    requires i < |s.ctrls| && Timely(cfg, s.ctrls[i], s.ctrls[i].clk)
    ensures CallBack(s, i).ctrls[i].clk == s.ctrls[i].clk && Timely(cfg, CallBack(s, i).ctrls[i], s.ctrls[i].clk)
    ensures forall j :: 0 <= j < |s.ctrls| && j != i ==> CallBack(s, i).ctrls[j] == s.ctrls[j]
    decreases |s.ctrls[i].ret|
  {
    hide Timely, C.ReturnDone;
    var c := s.ctrls[i];
    var k := ReturnMeaning(c, s.clk);
    if k < |c.ret| {
      HandBackKeepsTimely(cfg, c, k);
      CallBackStaysTimely(cfg, s.(ctrls := s.ctrls[i := HandedBack(c, k)], called := s.called + [AccessOf(c.ret[k])]), i);
    }
  }

  lemma {:induction false} CallBacksStayTimely(cfg: Config, s: Dram, n: nat)
    requires n <= |s.ctrls| && forall i :: 0 <= i < |s.ctrls| ==> Timely(cfg, s.ctrls[i], s.ctrls[i].clk)
    ensures forall i :: 0 <= i < |s.ctrls| ==>
      CallBackUpTo(s, n).ctrls[i].clk == s.ctrls[i].clk && Timely(cfg, CallBackUpTo(s, n).ctrls[i], s.ctrls[i].clk)
    ensures forall i :: n <= i < |s.ctrls| ==> CallBackUpTo(s, n).ctrls[i] == s.ctrls[i]
  {
    hide Timely, CallBack;
    if n > 0 {
      CallBacksStayTimely(cfg, s, n - 1);
      CallBackStaysTimely(cfg, CallBackUpTo(s, n - 1), n - 1);
    }
  }

  /** One controller over one cycle of the system: it hands back `d`, then runs. */
  ghost predicate AnswersInTime(cfg: Config, c: C.State, c': C.State, d: seq<Transaction>) {
    && c'.delivered == c.delivered + d && c'.clk == c.clk + 1
    && (forall i :: 0 <= i < |d| ==> d[i] in c.ret && d[i].complete <= c.clk)
    && (cfg.AL + cfg.CL + cfg.burst > 0 ==>
          && (forall i :: 0 <= i < |d| ==> d[i].complete == c.clk)
          && NoneDone(c'.ret, c.clk))
  }

  lemma HandThenTick(cfg: Config, c: C.State, c1: C.State, d: seq<Transaction>)
    requires cfg.ranks > 0 && cfg.RefreshInterval() > 0
    requires OnTime(cfg, c) && HandsBack(c, c1, d, c.clk) && Timely(cfg, c1, c.clk)
    ensures var c' := C.Tick(cfg, MakeTable(cfg), c1); OnTime(cfg, c') && AnswersInTime(cfg, c, c', d)
  {
    hide Timely, C.Tick;
    TickFinishes(cfg, MakeTable(cfg), c1);
    TickKeepsTimely(cfg, MakeTable(cfg), c1);
    RunTheorems.TickFollowsPlan(cfg, MakeTable(cfg), c1);
    var c' := C.Tick(cfg, MakeTable(cfg), c1);
    assert forall t :: t in c1.ret ==> t in multiset(c1.ret);
    forall i | 0 <= i < |d| ensures d[i] in c.ret {
      assert d[i] in multiset(d) && d[i] in multiset(c.ret);
    }
    forall i | 0 <= i < |c'.ret| && c'.ret[i] in c1.ret ensures c.clk < c'.ret[i].complete {
      var j :| 0 <= j < |c1.ret| && c1.ret[j] == c'.ret[i];
    }
  }

  /** One cycle of the system, controller by controller, and the callbacks it makes. */
  ghost predicate CycleAnswers(p: Params, s: Dram, s': Dram, ds: seq<seq<Transaction>>) {
    && |ds| == |s.ctrls| == |s'.ctrls| && s'.clk == s.clk + 1
    && (forall i :: 0 <= i < |ds| ==> AnswersInTime(p.cfg, s.ctrls[i], s'.ctrls[i], ds[i]))
    && s'.called == s.called + Accesses(Joined(ds))
  }

  /** A cycle calls back exactly what is done by then, and leaves nothing overdue. */
  lemma TickAnswers(p: Params, s: Dram) returns (ds: seq<seq<Transaction>>)
    requires p.cfg.ranks > 0 && p.cfg.RefreshInterval() > 0
    requires AllOnTime(p, s) && forall i :: 0 <= i < |s.ctrls| ==> s.ctrls[i].clk == s.clk
    ensures AllOnTime(p, Tick(p, s)) && CycleAnswers(p, s, Tick(p, s), ds)
  {
    hide CallBackUpTo, C.Tick, HandsBack, Timely, AnswersInTime;
    var n := |s.ctrls|;
    ds := CallBacksMeaning(s, n);
    CallBacksStayTimely(p.cfg, s, n);
    var (t, s') := (CallBackUpTo(s, n), Tick(p, s));
    forall i | 0 <= i < n
      ensures OnTime(p.cfg, s'.ctrls[i]) && AnswersInTime(p.cfg, s.ctrls[i], s'.ctrls[i], ds[i])
    {
      assert OnTime(p.cfg, s.ctrls[i]) && HandsBack(s.ctrls[i], t.ctrls[i], ds[i], s.clk);
      HandThenTick(p.cfg, s.ctrls[i], t.ctrls[i], ds[i]);
    }
  }

  lemma InStep(p: Params, s: Dram)
    requires SystemInv(p, s)
    ensures forall i :: 0 <= i < |s.ctrls| ==> s.ctrls[i].clk == s.clk
  {
    hide ControllerInvariant.Inv;
    forall i | 0 <= i < |s.ctrls| ensures s.ctrls[i].clk == s.clk {
      assert Routed(p, i, s.ctrls[i]);
    }
  }

  lemma SoundRefresh(p: Params)
    requires p.Valid()
    ensures p.cfg.ranks > 0 && p.cfg.RefreshInterval() > 0
  {
  }

  lemma StartsOnTime(p: Params)
    ensures AllOnTime(p, Initial(p))
  {
    InitialTimely(p.cfg);
  }

  lemma {:induction false} RunOnTime(p: Params, ops: seq<Op>)
    requires p.Valid()
    ensures AllOnTime(p, After(p, ops))
    decreases |ops|
  {
    hide AllOnTime, SystemInv, Tick, Submit, CycleAnswers, Params.Valid;
    if ops == [] {
      StartsOnTime(p);
    } else {
      var s, op := After(p, ops[..|ops| - 1]), ops[|ops| - 1];
      RunOnTime(p, ops[..|ops| - 1]);
      SoundRefresh(p);
      InStep(p, s);
      match op
      case Offer(a) =>
        SubmitKeepsInv(p, s, a);
        SubmitStaysOnTime(p, s, a);
      case Cycle =>
        var ds := TickAnswers(p, s);
    }
  }

  /** On every run each cycle calls back, channel by channel, transactions that are done, and only those; when
      a read takes at least one cycle to be answered, every transaction is called back in the very cycle in
      which it is done. */
  lemma CallbacksAreOnTime(p: Params, ops: seq<Op>) returns (ds: seq<seq<Transaction>>)
    requires p.Valid()
    ensures CycleAnswers(p, After(p, ops), After(p, ops + [Cycle]), ds)
  {
    hide AllOnTime, SystemInv, Tick, CycleAnswers, Params.Valid;
    RunOnTime(p, ops);
    SoundRefresh(p);
    var s := After(p, ops);
    InStep(p, s);
    ds := TickAnswers(p, s);
    assert (ops + [Cycle])[..|ops|] == ops;
  }
}
