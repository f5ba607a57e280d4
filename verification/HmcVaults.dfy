/** The vaults of the HMC system in their clock domain: they keep step with the DRAM clock, a request enters in
    the DRAM cycle that its logic cycle falls into, and what a vault finishes is answered at once. */
module HmcVaults {
  import opened Types
  import opened Timing
  import opened Digits
  import opened Crossbar
  import opened Lanes
  import opened Hmc
  import opened HmcRuns
  import opened Callbacks
  import opened Completion
  import HmcPace
  import HmcOffers
  import RunTheorems
  import C = Control

  // ---- what vaults have received, and when

  /** The DRAM cycle open to requests in logic cycle `l`: the one after the last that began by then. */
  function DramAt(p: Params, l: nat): nat
    requires p.psDram > 0
  {
    l * p.psLogic / p.psDram + 1
  }

  /** The requests handed to vaults with the logic cycle in which each entered. */
  function Log(s: Cube): seq<(Packet<Req>, nat)>
    requires |s.enteredAt| == |s.entered|
  {
    seq(|s.entered|, i requires 0 <= i < |s.entered| => (s.entered[i], s.enteredAt[i]))
  }

  /** The requests for vault `v`, as they should be stamped. */
  function Arrival(p: Params, v: nat): ((Packet<Req>, nat)) -> Option<(nat, bool, nat)>
    requires p.psDram > 0
  {
    (r: (Packet<Req>, nat)) =>
      if p.psDram > 0 && r.0.body.vault == v then Some((r.0.body.addr, r.0.body.isWrite, DramAt(p, r.1))) else None
  }

  function Stamped(q: seq<Transaction>): seq<(nat, bool, nat)> {
    seq(|q|, i requires 0 <= i < |q| => (q[i].addr, q[i].isWrite, q[i].added))
  }

  /** No request entered before its last flit was through, and each vault has stamped what entered it. */
  predicate StampsOk(p: Params, s: Cube) {
    && p.psDram > 0 && |s.enteredAt| == |s.entered| && |s.vaults| == p.vaults
    && (forall i :: 0 <= i < |s.entered| ==> s.entered[i].exit <= s.enteredAt[i])
    && (forall v :: 0 <= v < p.vaults ==> Stamped(s.vaults[v].accepted) == Selected(Log(s), Arrival(p, v)))
  }

  /** Every vault keeps step with the DRAM clock; its answers are those its history calls for, none overdue. */
  ghost predicate InStep(p: Params, s: Cube) {
    forall v :: 0 <= v < |s.vaults| ==> s.vaults[v].clk == s.clk && OnTime(p.cfg, s.vaults[v])
  }

  ghost predicate Held(p: Params, s: Cube) {
    StampsOk(p, s) && InStep(p, s)
  }

  // ---- what leaves the vaults alone

  predicate SameVaults(s: Cube, t: Cube) {
    t.vaults == s.vaults && t.entered == s.entered && t.enteredAt == s.enteredAt && t.clk == s.clk
  }

  lemma SameStaysHeld(p: Params, s: Cube, t: Cube)
    requires Held(p, s) && SameVaults(s, t)
    ensures Held(p, t)
  {
    hide OnTime, Stamped, Selected;
    assert Log(t) == Log(s);
  }

  lemma ResponsesLeaveVaults(p: Params, s: Cube)
    requires s.Shaped()
    ensures SameVaults(s, DrainResponses(p, s))
  {
    hide AnswerUpTo, Cross;
    HmcPace.LinksAnswerAlone(s, |s.resps.dst|);
  }

  lemma InsertLeavesVaults(p: Params, s: Cube, o: Offer)
    requires s.Shaped() && s.nextLink < |s.reqs.src|
    ensures SameVaults(s, InsertRequest(p, s, o).1)
  {
  }

  // ---- entering

  lemma AddStamped(cfg: Config, c: C.State, addr: nat, isWrite: bool)
    ensures var c' := C.AddTransaction(cfg, c, addr, isWrite);
      Stamped(c'.accepted) == Stamped(c.accepted) + [(addr, isWrite, c.clk)] && c'.clk == c.clk
  {
  }

  lemma EnterStaysHeld(p: Params, s: Cube, quad: nat)
    requires s.Shaped() && Held(p, s) && s.clk == DramAt(p, s.logicClk)
    ensures var t := EnterVault(p, s, quad); Held(p, t) && t.clk == s.clk && t.logicClk == s.logicClk
  {
    hide C.AddTransaction, C.WillAcceptTransaction, OnTime, Stamped, Selected, DramAt;
    var t := EnterVault(p, s, quad);
    if t.entered != s.entered {
      var r := s.reqs.dst[quad][0];
      var v := r.body.vault;
      AddStamped(p.cfg, s.vaults[v], r.body.addr, r.body.isWrite);
      AddStaysOnTime(p.cfg, s.vaults[v], r.body.addr, r.body.isWrite);
      assert Log(t) == Log(s) + [(r, s.logicClk)];
      forall w | 0 <= w < p.vaults ensures Stamped(t.vaults[w].accepted) == Selected(Log(t), Arrival(p, w)) {
        SelectedPush(Log(s), (r, s.logicClk), Arrival(p, w));
      }
    } else {
      SameStaysHeld(p, s, t);
    }
  }

  lemma {:induction false} EnterAllStaysHeld(p: Params, s: Cube, n: nat)
    requires s.Shaped() && Held(p, s) && s.clk == DramAt(p, s.logicClk)
    ensures var t := EnterUpTo(p, s, n); Held(p, t) && t.clk == s.clk && t.logicClk == s.logicClk
  {
    hide Held, EnterVault, DramAt;
    assert p.psDram > 0 by { HeldPeriod(p, s); }
    if n > 0 {
      EnterAllStaysHeld(p, s, n - 1);
      EnterStaysHeld(p, EnterUpTo(p, s, n - 1), n - 1);
    }
  }

  lemma HeldPeriod(p: Params, s: Cube)
    requires Held(p, s)
    ensures p.psDram > 0
  {
  }

  lemma RequestsStayHeld(p: Params, s: Cube)
    requires s.Shaped() && Held(p, s) && s.clk == DramAt(p, s.logicClk)
    ensures Held(p, DrainRequests(p, s))
  {
    hide Held, EnterUpTo, Cross, DramAt;
    EnterAllStaysHeld(p, s, 4);
    SameStaysHeld(p, EnterUpTo(p, s, 4), DrainRequests(p, s));
  }

  // ---- the DRAM cycle

  function Addresses(d: seq<Transaction>): seq<nat> {
    seq(|d|, i requires 0 <= i < |d| => d[i].addr)
  }

  function Ids(q: seq<Packet<Resp>>): seq<nat> {
    seq(|q|, i requires 0 <= i < |q| => q[i].body.id)
  }

  /** A response for each of `d`, in order, has been let go. */
  predicate LetsGo(s: Cube, t: Cube, d: seq<Transaction>) {
    && |t.finished| == |s.finished| + |d|
    && t.finished[..|s.finished|] == s.finished && Ids(t.finished[|s.finished|..]) == Addresses(d)
  }

  predicate SameLog(s: Cube, t: Cube) {
    t.entered == s.entered && t.enteredAt == s.enteredAt && t.clk == s.clk && |t.vaults| == |s.vaults|
  }

  lemma CallbackLetsGo(s: Cube, t: C.State, v: nat, x: Transaction)
    requires s.Shaped() && v < |s.vaults| && !VaultCallback(s.(vaults := s.vaults[v := t]), x.addr).lost
    ensures var u := VaultCallback(s.(vaults := s.vaults[v := t]), x.addr);
      LetsGo(s, u, [x]) && SameLog(s, u) && u.vaults == s.vaults[v := t]
  {
  }

  lemma LetsGoOn(s: Cube, t: Cube, u: Cube, d: seq<Transaction>, e: seq<Transaction>)
    requires LetsGo(s, t, d) && LetsGo(t, u, e)
    ensures LetsGo(s, u, d + e)
  {
    var n, m := |s.finished|, |t.finished|;
    assert u.finished[..n] == u.finished[..m][..n];
    assert u.finished[n..] == t.finished[n..] + u.finished[m..];
    assert Ids(u.finished[n..]) == Ids(t.finished[n..]) + Ids(u.finished[m..]);
    assert Addresses(d + e) == Addresses(d) + Addresses(e);
  }

  /** Collecting vault `v` hands back everything it has finished and lets a response go for each. */
  lemma {:induction false} CollectMeaning(p: Params, s: Cube, v: nat) returns (d: seq<Transaction>)
    requires p.Valid() && Flows(p, s) && v < p.vaults
    requires v < |s.vaults| ==> Timely(p.cfg, s.vaults[v], s.vaults[v].clk)
    ensures s.Shaped() && v < |s.vaults|
    ensures var t := CollectVault(s, v);
      && HandsBack(s.vaults[v], t.vaults[v], d, s.clk) && LetsGo(s, t, d) && SameLog(s, t)
      && Timely(p.cfg, t.vaults[v], s.vaults[v].clk)
      && forall w :: 0 <= w < |s.vaults| && w != v ==> t.vaults[w] == s.vaults[w]
    decreases if v < |s.vaults| then |s.vaults[v].ret| else 0
  {
    hide Flows, Timely, VaultCallback, C.ReturnDone, HandsBack, LetsGo;
    FlowsSizes(p, s);
    var c := s.vaults[v];
    var k := ReturnMeaning(c, s.clk);
    if k == |c.ret| {
      d := [];
      NothingHandedBack(c, s.clk);
      NothingLetGo(s);
    } else {
      var c1 := HandedBack(c, k);
      var x := c.ret[k];
      var s1 := VaultCallback(s.(vaults := s.vaults[v := c1]), x.addr);
      CallbackKeepsFlows(p, s, v);
      NotLost(p, s1);
      CallbackLetsGo(s, c1, v, x);
      HandBackKeepsTimely(p.cfg, c, k);
      var rest := CollectMeaning(p, s1, v);
      d := [x] + rest;
      HandBackJoins(c, k, CollectVault(s1, v).vaults[v], rest, s.clk);
      LetsGoOn(s, s1, CollectVault(s1, v), [x], rest);
    }
  }

  lemma NotLost(p: Params, s: Cube)
    requires Flows(p, s)
    ensures !s.lost
  {
  }

  lemma NothingLetGo(s: Cube)
    ensures LetsGo(s, s, [])
  {
  }

  lemma NothingHandedBack(c: C.State, clk: nat)
    requires forall j :: 0 <= j < |c.ret| ==> clk < c.ret[j].complete
    ensures HandsBack(c, c, [], clk)
  {
  }

  /** The first `n` vaults have handed back `ds`, with a response let go for each transaction in vault order. */
  ghost predicate Collected(p: Params, s: Cube, t: Cube, ds: seq<seq<Transaction>>, n: nat) {
    && |ds| == n <= |s.vaults| && SameLog(s, t) && LetsGo(s, t, Joined(ds))
    && (forall v :: 0 <= v < n ==> HandsBack(s.vaults[v], t.vaults[v], ds[v], s.clk) && Timely(p.cfg, t.vaults[v], s.clk))
    && (forall v :: n <= v < |s.vaults| ==> t.vaults[v] == s.vaults[v])
  }

  lemma {:induction false} CollectAllMeaning(p: Params, s: Cube, n: nat) returns (ds: seq<seq<Transaction>>)
    requires p.Valid() && Flows(p, s) && InStep(p, s) && n <= p.vaults
    ensures s.Shaped() && n <= |s.vaults| && Collected(p, s, CollectUpTo(s, n), ds, n)
  {
    hide Flows, CollectVault, Collected, InStep;
    FlowsSizes(p, s);
    if n == 0 {
      ds := [];
      NoneCollected(p, s);
    } else {
      var before := CollectAllMeaning(p, s, n - 1);
      var t := CollectUpTo(s, n - 1);
      CollectAllKeepsFlows(p, s, n - 1);
      NextIsTimely(p, s, t, before, n - 1);
      var d := CollectMeaning(p, t, n - 1);
      ds := before + [d];
      OneMoreCollected(p, s, t, CollectVault(t, n - 1), before, d, n - 1);
    }
  }

  lemma NoneCollected(p: Params, s: Cube)
    ensures Collected(p, s, s, [], 0)
  {
  }

  lemma NextIsTimely(p: Params, s: Cube, t: Cube, ds: seq<seq<Transaction>>, v: nat)
    requires InStep(p, s) && Collected(p, s, t, ds, v) && v < |s.vaults|
    ensures |t.vaults| == |s.vaults| && t.vaults[v] == s.vaults[v] && t.clk == s.clk == t.vaults[v].clk
    ensures Timely(p.cfg, t.vaults[v], t.vaults[v].clk)
  {
    hide Timely, HandsBack, LetsGo;
  }

  lemma OneMoreCollected(p: Params, s: Cube, t: Cube, u: Cube, ds: seq<seq<Transaction>>, d: seq<Transaction>, v: nat)
    requires Collected(p, s, t, ds, v) && v < |s.vaults| && t.vaults[v] == s.vaults[v] && SameLog(t, u)
    requires HandsBack(t.vaults[v], u.vaults[v], d, t.clk) && LetsGo(t, u, d) && Timely(p.cfg, u.vaults[v], s.clk)
    requires forall w :: 0 <= w < |t.vaults| && w != v ==> u.vaults[w] == t.vaults[w]
    ensures Collected(p, s, u, ds + [d], v + 1)
  {
    hide Timely, HandsBack, LetsGo;
    LetsGoOn(s, t, u, Joined(ds), d);
    assert (ds + [d])[..v] == ds;
  }

  /** A DRAM cycle: every vault hands back what is done, a response is let go for each, then the vault runs. */
  ghost predicate VaultsAnswer(p: Params, s: Cube, t: Cube, ds: seq<seq<Transaction>>) {
    && |ds| == |s.vaults| == |t.vaults| && t.clk == s.clk + 1 && LetsGo(s, t, Joined(ds))
    && forall v :: 0 <= v < |ds| ==> AnswersInTime(p.cfg, s.vaults[v], t.vaults[v], ds[v])
  }

  lemma VaultRuns(p: Params, c: C.State, c1: C.State, d: seq<Transaction>)
    requires p.cfg.ranks > 0 && p.cfg.RefreshInterval() > 0
    requires OnTime(p.cfg, c) && HandsBack(c, c1, d, c.clk) && Timely(p.cfg, c1, c.clk)
    ensures var c' := C.Tick(p.cfg, MakeTable(p.cfg), c1);
      && OnTime(p.cfg, c') && AnswersInTime(p.cfg, c, c', d) && c'.clk == c.clk + 1
      && Stamped(c'.accepted) == Stamped(c.accepted)
  {
    hide Timely, C.Tick;
    HandThenTick(p.cfg, c, c1, d);
    RunTheorems.TickFollowsPlan(p.cfg, MakeTable(p.cfg), c1);
  }

  /** In a DRAM cycle every vault answers what is done, in the very cycle if a read takes at least one, and the
      earliest awaited response of each address is let go. */
  lemma DramCycleAnswers(p: Params, s: Cube) returns (ds: seq<seq<Transaction>>)
    requires p.Valid() && Flows(p, s) && Held(p, s)
    ensures s.Shaped() && p.cfg.ranks > 0 && p.cfg.RefreshInterval() > 0
    ensures VaultsAnswer(p, s, DramTick(p, s), ds) && Held(p, DramTick(p, s))
  {
    hide Flows, Params.Valid, Config.RefreshInterval, C.Tick, CollectUpTo, OnTime, Timely, HandsBack, AnswersInTime, LetsGo, Stamped, Selected;
    FlowsSizes(p, s);
    SoundMeansValid(p);
    ds := CollectAllMeaning(p, s, p.vaults);
    var u, t := CollectUpTo(s, |s.vaults|), DramTick(p, s);
    forall v | 0 <= v < |s.vaults|
      ensures OnTime(p.cfg, t.vaults[v]) && t.vaults[v].clk == t.clk && AnswersInTime(p.cfg, s.vaults[v], t.vaults[v], ds[v])
      ensures Stamped(t.vaults[v].accepted) == Stamped(s.vaults[v].accepted)
    {
      VaultRuns(p, s.vaults[v], u.vaults[v], ds[v]);
    }
    assert Log(t) == Log(s);
    SameFinished(s, u, t, Joined(ds));
  }

  lemma SameFinished(s: Cube, t: Cube, u: Cube, d: seq<Transaction>)
    requires LetsGo(s, t, d) && u.finished == t.finished
    ensures LetsGo(s, u, d)
  {
  }

  // ---- the two clock domains

  /** The DRAM cycle that began at `dramPs` has been run, and no later one began before the logic cycle. */
  predicate InCycle(p: Params, s: Cube) {
    && p.psDram > 0 && s.clk > 0 && s.dramPs == (s.clk - 1) * p.psDram && s.logicPs == s.logicClk * p.psLogic
    && s.dramPs <= s.logicPs < s.dramPs + p.psDram
  }

  lemma InCycleMeans(p: Params, s: Cube)
    requires InCycle(p, s)
    ensures s.clk == DramAt(p, s.logicClk)
  {
    assert s.dramPs == p.psDram * (s.clk - 1);
    DivModIs(s.logicPs, s.clk - 1, s.logicPs - s.dramPs, p.psDram);
  }

  lemma LogicCycleStaysHeld(p: Params, s: Cube)
    requires p.Valid() && Flows(p, s) && Held(p, s) && InCycle(p, s)
    ensures s.Shaped() && Held(p, LogicCycle(p, s))
  {
    hide Flows, Held, DrainResponses, DrainRequests, DramAt, Params.Valid;
    FlowsSizes(p, s);
    InCycleMeans(p, s);
    ResponsesLeaveVaults(p, s);
    ResponsesKeepFlows(p, s);
    var t := DrainResponses(p, s);
    SameStaysHeld(p, s, t);
    HeldPeriod(p, s);
    RequestsStayHeld(p, t);
    SameStaysHeld(p, DrainRequests(p, t), LogicCycle(p, s));
  }

  lemma {:induction false} LogicCyclesStayHeld(p: Params, s: Cube, n: nat)
    requires p.Valid() && Flows(p, s) && Held(p, s) && p.psDram > 0 && s.clk > 0
    requires s.dramPs == (s.clk - 1) * p.psDram && s.logicPs == s.logicClk * p.psLogic && s.dramPs <= s.logicPs
    requires n > 0 ==> s.logicPs + (n - 1) * p.psLogic < s.dramPs + p.psDram
    ensures s.Shaped() && Held(p, LogicCycles(p, s, n))
  {
    hide Flows, Held, LogicCycle, Params.Valid;
    FlowsSizes(p, s);
    if n > 0 {
      if n > 1 {
        MulSucc(p.psLogic, n - 2);
        MulSwap(p.psLogic, n - 1, n - 2);
      }
      LogicCyclesStayHeld(p, s, n - 1);
      LogicCyclesKeepFlows(p, s, n - 1);
      var t := LogicCycles(p, s, n - 1);
      SumOfCycles(p.psLogic, s.logicClk, n - 1, 0);
      InThisCycle(p, s, t, n - 1);
      LogicCycleStaysHeld(p, t);
    }
  }

  lemma InThisCycle(p: Params, s: Cube, t: Cube, k: nat)
    requires p.psDram > 0 && s.clk > 0 && t.clk == s.clk && t.dramPs == s.dramPs == (s.clk - 1) * p.psDram
    requires t.logicClk == s.logicClk + k && t.logicPs == s.logicPs + k * p.psLogic
    requires t.logicPs == t.logicClk * p.psLogic && s.dramPs <= s.logicPs
    requires s.logicPs + k * p.psLogic < s.dramPs + p.psDram
    ensures InCycle(p, t)
  {
    MulMono(p.psLogic, 0, k);
    assert k * p.psLogic == p.psLogic * k;
  }

  lemma MulSwap(x: nat, a: nat, b: nat)
    ensures x * a == a * x && x * b == b * x
  {
  }

  lemma FirstHalfStaysHeld(p: Params, s: Cube)
    requires p.Valid() && Flows(p, s) && Held(p, s) && ClocksOk(p, s)
    ensures s.Shaped() && p.cfg.ranks > 0 && p.cfg.RefreshInterval() > 0 && Held(p, FirstHalf(p, s))
  {
    hide Flows, Held, DrainResponses, DrainRequests, DramTick, Params.Valid, Config.RefreshInterval, DramAt, VaultsAnswer;
    FlowsSizes(p, s);
    SoundMeansValid(p);
    HeldPeriod(p, s);
    if s.dramPs == s.logicPs {
      ResponsesLeaveVaults(p, s);
      ResponsesKeepFlows(p, s);
      var t := DrainResponses(p, s);
      SameStaysHeld(p, s, t);
      var ds := DramCycleAnswers(p, t);
      DramTickKeepsFlows(p, t);
      var u := DramTick(p, t);
      InCycleMeans(p, u);
      RequestsStayHeld(p, u);
      SameStaysHeld(p, DrainRequests(p, u), FirstHalf(p, s));
    } else {
      var ds := DramCycleAnswers(p, s);
    }
  }

  lemma TickStaysHeld(p: Params, s: Cube)
    requires p.Valid() && CubeInv(p, s) && Held(p, s)
    ensures s.Shaped() && p.cfg.ranks > 0 && p.cfg.RefreshInterval() > 0 && Held(p, Tick(p, s))
  {
    hide Flows, Held, FirstHalf, LogicCycles, CyclesUntil, Config.RefreshInterval, ControllerRuns.Sound;
    FlowsSizes(p, s);
    SoundMeansValid(p);
    HeldPeriod(p, s);
    FirstHalfStaysHeld(p, s);
    FirstHalfKeepsFlows(p, s);
    var t := FirstHalf(p, s);
    var until := t.dramPs + p.psDram;
    var n := CyclesUntil(t.logicPs, p.psLogic, until);
    CyclesReach(t.logicPs, p.psLogic, until);
    MulSucc(p.psLogic, s.logicClk);
    MulSwap(p.psLogic, s.logicClk, s.logicClk + 1);
    if n > 0 {
      MulSucc(p.psLogic, n - 1);
      MulSwap(p.psLogic, n, n - 1);
    }
    LogicCyclesStayHeld(p, t, n);
    SameStaysHeld(p, LogicCycles(p, t, n), Tick(p, s));
  }

  // ---- on every run

  lemma InitialHeld(p: Params)
    requires p.Valid()
    ensures Held(p, Initial(p))
  {
    InitialTimely(p.cfg);
  }

  lemma {:induction false} RunHeld(p: Params, ops: seq<Op>)
    requires p.Valid()
    ensures Held(p, After(p, ops))
    decreases |ops|
  {
    hide Held, CubeInv, Tick, InsertRequest, Params.Valid;
    if ops == [] {
      InitialHeld(p);
    } else {
      var s, op := After(p, ops[..|ops| - 1]), ops[|ops| - 1];
      RunHeld(p, ops[..|ops| - 1]);
      HmcOffers.SoundShape(p, s);
      match op
      case Submit(o) =>
        InsertLeavesVaults(p, s, o);
        SameStaysHeld(p, s, InsertRequest(p, s, o).1);
      case Cycle => TickStaysHeld(p, s);
    }
  }

  /** On every run each vault has been handed its requests in order, each after its last flit and stamped with the
      DRAM cycle that its logic cycle L falls into, floor(L * psLogic / psDram) + 1. */
  lemma RequestsAreStamped(p: Params, ops: seq<Op>)
    requires p.Valid()
    ensures var s := After(p, ops);
      && p.psDram > 0 && |s.enteredAt| == |s.entered| && |s.vaults| == p.vaults
      && (forall i :: 0 <= i < |s.entered| ==> s.entered[i].exit <= s.enteredAt[i])
      && (forall v :: 0 <= v < p.vaults ==> Stamped(s.vaults[v].accepted) == Selected(Log(s), Arrival(p, v)))
  {
    hide After, InStep, Stamped, Selected;
    RunHeld(p, ops);
  }

  /** On every run each vault keeps step with the DRAM clock, has answered and finished exactly what its accepted
      transactions and its commands call for, and has nothing overdue. */
  lemma VaultsAreOnTime(p: Params, ops: seq<Op>, v: nat)
    requires p.Valid() && v < p.vaults
    ensures var s := After(p, ops);
      && v < |s.vaults| && var c := s.vaults[v];
      && c.clk == s.clk
      && multiset(c.ret) + multiset(c.delivered) == Answered(p.cfg, c.accepted, c.trace, |c.accepted|)
      && c.desk.pendRd == Unanswered(p.cfg, c.accepted, c.trace, |c.accepted|)
      && (p.cfg.AL + p.cfg.CL + p.cfg.burst > 0 ==> forall i :: 0 <= i < |c.ret| ==> s.clk <= c.ret[i].complete)
  {
    hide After, Answered, Unanswered, Stamped, Selected;
    RunHeld(p, ops);
  }
}
