/** What every run of the HMC system keeps: nothing is lost between links, quads, vaults and the response
    table, and the two clock domains stay in step. */
module HmcRuns {
  import opened Types
  import opened Timing
  import opened Digits
  import opened Crossbar
  import opened Hmc
  import opened Owed
  import opened ControllerInvariant
  import Control
  import ControllerSteps
  import ControllerRuns

  // ---- the invariant

  function AddrOf(t: Transaction): nat { t.addr }
  function ReqAddr(p: Packet<Req>): nat { p.body.addr }
  function RespId(p: Packet<Resp>): nat { p.body.id }
  /** A response apart from its exit time: id, callback, quad, link and size. */
  function RespCore(p: Packet<Resp>): Packet<Resp> { p.(exit := 0) }

  ghost function ReqGood(p: Params): Packet<Req> -> bool {
    (r: Packet<Req>) => r.body.vault < p.vaults && r.dest == r.body.vault % 4
  }

  ghost function RespGood(p: Params): Packet<Resp> -> bool {
    (r: Packet<Resp>) => r.body.quad < 4 && r.dest < p.links
  }

  predicate SizesOk(p: Params, s: Cube) {
    && |s.reqs.src| == |s.resps.dst| == p.links && |s.reqs.dst| == |s.resps.src| == 4
    && |s.vaults| == p.vaults && s.nextLink < p.links
    && Bounded(s.reqs.src, p.depth) && Bounded(s.reqs.dst, p.depth) && Bounded(s.resps.dst, p.depth)
  }

  ghost predicate XbarsOk(p: Params, s: Cube) {
    && SizesOk(p, s) && !s.lost
    && Ok(s.reqs, ReqGood(p)) && Ok(s.resps, RespGood(p)) && AllGood(s.table, RespGood(p), p.links)
  }

  ghost predicate VaultsOk(p: Params, s: Cube) {
    forall v :: 0 <= v < |s.vaults| ==> Inv(p.cfg, MakeTable(p.cfg), s.vaults[v])
  }

  /** Every address awaiting a response is on a link, in a quad or in a vault, as often as it is awaited. */
  predicate Awaited(s: Cube) {
    Keys(s.table, RespId) == Load(s.reqs, ReqAddr) + OutstandingAll(s.vaults, AddrOf)
  }

  /** Every response promised is answered, on its way, or still awaited. */
  predicate Answering(s: Cube) {
    Keys(s.submitted, RespCore) == Keys(s.answered, RespCore) + Keys(s.table, RespCore) + Load(s.resps, RespCore)
  }

  /** The logic clock is the first multiple of its period not before the DRAM clock. */
  predicate ClocksOk(p: Params, s: Cube) {
    && s.dramPs == s.clk * p.psDram && s.logicPs == s.logicClk * p.psLogic
    && s.dramPs <= s.logicPs < s.dramPs + p.psLogic
  }

  /** All but the clocks: what holds throughout a tick. */
  ghost predicate Flows(p: Params, s: Cube) {
    XbarsOk(p, s) && VaultsOk(p, s) && Awaited(s) && Answering(s)
  }

  ghost predicate CubeInv(p: Params, s: Cube) {
    Flows(p, s) && ClocksOk(p, s)
  }

  lemma GoodIgnoresExit(p: Params)
    ensures IgnoresExit(ReqGood(p)) && IgnoresExit(RespGood(p))
  {
  }

  lemma KeysAreStable()
    ensures Stable(ReqAddr) && Stable(RespCore) && Timeless(AddrOf)
  {
  }

  lemma InitialCube(p: Params)
    requires p.Valid()
    ensures CubeInv(p, Initial(p))
  {
    var s := Initial(p);
    hide Inv, Total, Keys, Control.Initial, Outstanding, ControllerRuns.Sound, MakeTable;
    SoundMeansValid(p);
    TotalOfNone(s.reqs.src, ReqAddr);
    TotalOfNone(s.reqs.dst, ReqAddr);
    TotalOfNone(s.resps.src, RespCore);
    TotalOfNone(s.resps.dst, RespCore);
    NothingOutstanding(p.cfg, AddrOf);
    NoneOutstanding(s.vaults, AddrOf);
    ControllerSteps.InitialInv(p.cfg, MakeTable(p.cfg));
    assert Keys(s.table, RespId) == multiset{} by { NoKeys(RespId); }
    assert Keys(s.table, RespCore) == multiset{} by { NoKeys(RespCore); }
  }

  lemma NoKeys<K>(key: Packet<Resp> -> K)
    ensures Keys([], key) == multiset{}
  {
  }

  // ---- accepting a request

  lemma PutKeepsFlows(p: Params, s: Cube, o: Offer, link: nat)
    requires p.Valid() && Flows(p, s) && link < p.links && |s.reqs.src[link]| < p.depth
    ensures Flows(p, PutOnLink(p, s, o, link))
  {
    hide Inv, Total, Keys, OutstandingAll, Awaited, Answering, Ok, Bounded, AllGood;
    PutKeepsXbars(p, s, o, link);
    FlowsSizes(p, s);
    PutConserves(p, s, o, link);
    hide XbarsOk;
  }

  lemma PutConserves(p: Params, s: Cube, o: Offer, link: nat)
    requires s.Shaped() && link < |s.reqs.src| && Awaited(s) && Answering(s)
    ensures Awaited(PutOnLink(p, s, o, link)) && Answering(PutOnLink(p, s, o, link))
  {
    hide Total, Keys, OutstandingAll;
    var req, resp := RequestOf(p, o, link), ResponseOf(p, o, link);
    TotalPush(s.reqs.src, link, req, ReqAddr);
    KeysPush(s.table, resp, RespId);
    KeysPush(s.table, resp, RespCore);
    KeysPush(s.submitted, resp, RespCore);
    assert RespId(resp) == ReqAddr(req) == o.addr;
  }

  lemma PutKeepsXbars(p: Params, s: Cube, o: Offer, link: nat)
    requires p.Valid() && XbarsOk(p, s) && link < p.links && |s.reqs.src[link]| < p.depth
    ensures XbarsOk(p, PutOnLink(p, s, o, link))
  {
    hide Inv;
    var t := PutOnLink(p, s, o, link);
    assert ReqGood(p)(RequestOf(p, o, link)) && RespGood(p)(ResponseOf(p, o, link));
    assert AllGood(s.reqs.src[link], ReqGood(p), 4);
    assert AllGood(t.reqs.src[link], ReqGood(p), 4);
  }

  /** A request is taken exactly when some link has room; it goes to the first such link in turn. */
  lemma InsertKeepsInv(p: Params, s: Cube, o: Offer)
    requires p.Valid() && CubeInv(p, s)
    ensures var (ok, t) := InsertRequest(p, s, o);
      && CubeInv(p, t)
      && (ok <==> exists l :: 0 <= l < p.links && |s.reqs.src[l]| < p.depth)
      && (!ok ==> t == s)
  {
    hide Inv, Total, Keys, OutstandingAll, Ok, VaultsOk, Awaited, Answering, AllGood;
    var n := p.links;
    var i := FreeAfter(s.reqs.src, p.depth, s.nextLink, 0);
    if i < n {
      var link := Rotated(s.nextLink, n, i);
      FlowsSizes(p, s);
      PutKeepsFlows(p, s, o, link);
      TurnKeepsFlows(p, PutOnLink(p, s, o, link), Rotated(1 % n, n, link));
      assert |s.reqs.src[link]| < p.depth;
    } else {
      forall l | 0 <= l < n ensures |s.reqs.src[l]| >= p.depth {
        var j := VisitOf(s.nextLink, n, l);
        assert Rotated(s.nextLink, n, j) == l;
      }
    }
  }

  lemma TurnKeepsFlows(p: Params, s: Cube, link: nat)
    requires Flows(p, s) && link < p.links
    ensures Flows(p, s.(nextLink := link))
  {
    hide Inv, Total, Keys, OutstandingAll, Ok;
  }

  // ---- responses

  lemma AnswerKeepsFlows(p: Params, s: Cube, link: nat)
    requires p.Valid() && Flows(p, s) && link < p.links
    ensures Flows(p, AnswerOne(s, link))
  {
    hide Inv, Total, Keys, OutstandingAll;
    if s.resps.dst[link] != [] {
      var r := s.resps.dst[link][0];
      TotalPop(s.resps.dst, link, RespCore);
      KeysPush(s.answered, r, RespCore);
      assert AllGood(s.resps.dst[link], RespGood(p), p.links);
    }
  }

  lemma {:induction false} AnswerAllKeepsFlows(p: Params, s: Cube, n: nat)
    requires p.Valid() && Flows(p, s) && n <= p.links
    ensures Flows(p, AnswerUpTo(s, n)) && SameClocks(AnswerUpTo(s, n), s)
  {
    hide Flows;
    if n > 0 {
      FlowsSizes(p, s);
      AnswerAllKeepsFlows(p, s, n - 1);
      FlowsSizes(p, AnswerUpTo(s, n - 1));
      AnswerKeepsFlows(p, AnswerUpTo(s, n - 1), n - 1);
    } else {
      FlowsSizes(p, s);
    }
  }

  predicate SameClocks(t: Cube, s: Cube) {
    t.clk == s.clk && t.logicClk == s.logicClk && t.logicPs == s.logicPs && t.dramPs == s.dramPs
  }

  lemma FlowsSizes(p: Params, s: Cube)
    requires Flows(p, s)
    ensures SizesOk(p, s) && s.Shaped()
  {
  }

  lemma FlowsOk(p: Params, s: Cube)
    requires Flows(p, s)
    ensures Ok(s.reqs, ReqGood(p)) && Ok(s.resps, RespGood(p)) && |s.resps.src| == 4 && |s.reqs.src| == p.links
  {
  }

  lemma RespCrossKeepsFlows(p: Params, s: Cube)
    requires p.Valid() && Flows(p, s)
    ensures Flows(p, s.(resps := Cross(s.resps, p.depth, s.logicClk)))
  {
    hide Inv, Total, Keys, OutstandingAll, Cross, Ok, Load, IgnoresExit, Stable, AllGood;
    GoodIgnoresExit(p);
    KeysAreStable();
    CrossOk(s.resps, p.depth, s.logicClk, RespGood(p));
    FlowsSizes(p, s);
    CrossKeepsLoad(s.resps, p.depth, s.logicClk, RespCore);
    CrossBounded(s.resps, p.depth, s.logicClk);
  }

  lemma ReqCrossKeepsFlows(p: Params, s: Cube)
    requires p.Valid() && Flows(p, s)
    ensures Flows(p, s.(reqs := Cross(s.reqs, p.depth, s.logicClk)))
  {
    hide Inv, Total, Keys, OutstandingAll, Cross, Ok, Load, IgnoresExit, Stable, AllGood;
    GoodIgnoresExit(p);
    KeysAreStable();
    CrossOk(s.reqs, p.depth, s.logicClk, ReqGood(p));
    FlowsSizes(p, s);
    CrossKeepsLoad(s.reqs, p.depth, s.logicClk, ReqAddr);
    CrossBounded(s.reqs, p.depth, s.logicClk);
  }

  lemma CrossBounded<B>(x: Xbar<B>, depth: nat, clk: nat)
    requires |x.age| == |x.src| && |x.busy| == |x.dst|
    ensures Bounded(x.dst, depth) ==> Bounded(Cross(x, depth, clk).dst, depth)
    ensures Bounded(x.src, depth) ==> Bounded(Cross(x, depth, clk).src, depth)
  {
    CrossAllBounded(x.(busy := Cooled(x.busy)), AgeQueue(x.age, clk), depth, clk);
  }

  lemma ResponsesKeepFlows(p: Params, s: Cube)
    requires p.Valid() && Flows(p, s)
    ensures Flows(p, DrainResponses(p, s)) && SameClocks(DrainResponses(p, s), s)
  {
    hide Flows, Cross;
    FlowsSizes(p, s);
    AnswerAllKeepsFlows(p, s, p.links);
    RespCrossKeepsFlows(p, AnswerUpTo(s, p.links));
  }

  // ---- requests

  lemma EnterKeepsFlows(p: Params, s: Cube, quad: nat)
    requires p.Valid() && Flows(p, s) && quad < 4
    ensures Flows(p, EnterVault(p, s, quad))
  {
    hide Inv, Total, Keys, OutstandingAll, Outstanding, Control.AddTransaction, Control.WillAcceptTransaction, ControllerRuns.Sound;
    if s.reqs.dst[quad] != [] {
      var r := s.reqs.dst[quad][0];
      var v := r.body.vault;
      assert AllGood(s.reqs.dst[quad], ReqGood(p), 4);
      assert ReqGood(p)(r) && v < |s.vaults|;
      var w := Control.AddTransaction(p.cfg, s.vaults[v], r.body.addr, r.body.isWrite);
      TotalPop(s.reqs.dst, quad, ReqAddr);
      AddGrowsOutstanding(p.cfg, s.vaults[v], r.body.addr, r.body.isWrite, AddrOf);
      OutstandingUpdate(s.vaults, v, w, AddrOf);
      Moved(OutstandingAll(s.vaults, AddrOf), OutstandingAll(s.vaults[v := w], AddrOf), Outstanding(s.vaults[v], AddrOf), multiset{r.body.addr});
      AddedVault(p, s.vaults[v], r.body.addr, r.body.isWrite);
      EnterKeepsXbars(p, s, quad);
      hide XbarsOk;
    }
  }

  lemma AddedVault(p: Params, v: Control.State, addr: nat, isWrite: bool)
    requires p.Valid() && Inv(p.cfg, MakeTable(p.cfg), v)
    ensures Control.WillAcceptTransaction(p.cfg, v, isWrite) ==>
      Inv(p.cfg, MakeTable(p.cfg), Control.AddTransaction(p.cfg, v, addr, isWrite))
  {
    ControllerSteps.AddKeepsInv(p.cfg, MakeTable(p.cfg), v, addr, isWrite);
  }

  lemma EnterKeepsXbars(p: Params, s: Cube, quad: nat)
    requires p.Valid() && XbarsOk(p, s) && quad < 4
    ensures XbarsOk(p, EnterVault(p, s, quad))
  {
    hide Control.AddTransaction, Control.WillAcceptTransaction, ControllerRuns.Sound;
    assert AllGood(s.reqs.dst[quad], ReqGood(p), 4);
    if s.reqs.dst[quad] != [] {
      var r := s.reqs.dst[quad][0];
      assert ReqGood(p)(r);
    }
  }

  lemma {:induction false} EnterAllKeepsFlows(p: Params, s: Cube, n: nat)
    requires p.Valid() && Flows(p, s) && n <= 4
    ensures Flows(p, EnterUpTo(p, s, n)) && SameClocks(EnterUpTo(p, s, n), s)
  {
    hide Flows;
    if n > 0 {
      FlowsSizes(p, s);
      EnterAllKeepsFlows(p, s, n - 1);
      EnterKeepsFlows(p, EnterUpTo(p, s, n - 1), n - 1);
    } else {
      FlowsSizes(p, s);
    }
  }

  lemma RequestsKeepFlows(p: Params, s: Cube)
    requires p.Valid() && Flows(p, s)
    ensures Flows(p, DrainRequests(p, s)) && SameClocks(DrainRequests(p, s), s)
  {
    hide Flows, Cross;
    FlowsSizes(p, s);
    EnterAllKeepsFlows(p, s, 4);
    FlowsSizes(p, EnterUpTo(p, s, 4));
    ReqCrossKeepsFlows(p, EnterUpTo(p, s, 4));
  }

  // ---- the DRAM cycle

  lemma {:induction false} KeysRemove<K>(q: seq<Packet<Resp>>, i: nat, key: Packet<Resp> -> K)
    requires i < |q|
    ensures Keys(q, key) == Keys(q[..i] + q[i+1..], key) + multiset{key(q[i])}
  {
    if i == 0 {
      KeysPop(q, key);
      assert q[..0] + q[1..] == q[1..];
    } else {
      KeysRemove(q[1..], i - 1, key);
      KeysPop(q, key);
      var rest := q[..i] + q[i+1..];
      KeysPop(rest, key);
      assert rest[1..] == q[1..][..i-1] + q[1..][i..] && rest[0] == q[0] && q[1..][i-1] == q[i];
    }
  }

  lemma {:induction false} KeyPresent(q: seq<Packet<Resp>>, id: nat)
    requires id in Keys(q, RespId)
    ensures FindEntry(q, id, 0) < |q|
  {
    if q != [] && q[0].body.id != id {
      KeysPop(q, RespId);
      KeyPresent(q[1..], id);
      FindInRest(q, id, 0);
    }
  }

  lemma {:induction false} FindInRest(q: seq<Packet<Resp>>, id: nat, i: nat)
    requires q != [] && i < |q|
    ensures FindEntry(q, id, i + 1) == FindEntry(q[1..], id, i) + 1
    decreases |q| - i
  {
    if i + 1 < |q| {
      FindInRest(q, id, i + 1);
    }
  }

  /** What a vault returns is always awaited: the look-up succeeds. */
  lemma CallbackKeepsFlows(p: Params, s: Cube, v: nat)
    requires p.Valid() && Flows(p, s) && v < p.vaults && Control.ReturnDone(s.vaults[v], s.clk).0.Some?
    ensures s.Shaped() && v < |s.vaults|
    ensures var (done, vault) := Control.ReturnDone(s.vaults[v], s.clk);
      Flows(p, VaultCallback(s.(vaults := s.vaults[v := vault]), done.value.addr))
  {
    hide Inv, Total, Keys, OutstandingAll, Outstanding, Control.ReturnDone, FindEntry;
    var (done, w) := Control.ReturnDone(s.vaults[v], s.clk);
    var a := done.value.addr;
    var t := s.(vaults := s.vaults[v := w]);
    ReturnShrinksOutstanding(s.vaults[v], s.clk, AddrOf);
    OutstandingUpdate(s.vaults, v, w, AddrOf);
    Moved(OutstandingAll(t.vaults, AddrOf), OutstandingAll(s.vaults, AddrOf), Outstanding(w, AddrOf), multiset{a});
    assert OutstandingAll(s.vaults, AddrOf) == OutstandingAll(t.vaults, AddrOf) + multiset{a};
    assert a in Keys(s.table, RespId);
    ControllerSteps.ReturnKeepsInv(p.cfg, MakeTable(p.cfg), s.vaults[v], s.clk);
    KeyPresent(s.table, a);
    hide Ok, Bounded;
    CallbackConserves(p, t, a);
    CallbackKeepsXbars(p, t, a);
    hide XbarsOk;
  }

  lemma CallbackConserves(p: Params, s: Cube, a: nat)
    requires p.Valid() && XbarsOk(p, s) && Answering(s) && FindEntry(s.table, a, 0) < |s.table|
    requires Keys(s.table, RespId) == Load(s.reqs, ReqAddr) + (OutstandingAll(s.vaults, AddrOf) + multiset{a})
    ensures s.Shaped() && Awaited(VaultCallback(s, a)) && Answering(VaultCallback(s, a))
  {
    hide Total, Keys, OutstandingAll;
    var i := FindEntry(s.table, a, 0);
    assert RespGood(p)(s.table[i]);
    var q := s.table[i].body.quad;
    TotalPush(s.resps.src, q, s.table[i], RespCore);
    KeysRemove(s.table, i, RespId);
    KeysRemove(s.table, i, RespCore);
    var rest := s.table[..i] + s.table[i+1..];
    assert RespId(s.table[i]) == a;
    Regroup(Load(s.reqs, ReqAddr), OutstandingAll(s.vaults, AddrOf), multiset{a});
    Cancel(Keys(rest, RespId), Load(s.reqs, ReqAddr) + OutstandingAll(s.vaults, AddrOf), multiset{a});
  }

  lemma CallbackKeepsXbars(p: Params, s: Cube, a: nat)
    requires p.Valid() && XbarsOk(p, s) && FindEntry(s.table, a, 0) < |s.table|
    ensures s.Shaped() && XbarsOk(p, VaultCallback(s, a))
  {
    var i := FindEntry(s.table, a, 0);
    assert RespGood(p)(s.table[i]);
    var q := s.table[i].body.quad;
    assert AllGood(s.resps.src[q], RespGood(p), p.links);
    assert AllGood(s.resps.src[q] + [s.table[i]], RespGood(p), p.links);
  }

  lemma {:induction false} CollectKeepsFlows(p: Params, s: Cube, v: nat)
    requires p.Valid() && Flows(p, s) && v < p.vaults
    ensures s.Shaped() && v < |s.vaults| && Flows(p, CollectVault(s, v)) && SameClocks(CollectVault(s, v), s)
    decreases |s.vaults[v].ret|
  {
    hide Flows;
    FlowsSizes(p, s);
    var (done, vault) := Control.ReturnDone(s.vaults[v], s.clk);
    if done.Some? {
      CallbackKeepsFlows(p, s, v);
      CollectKeepsFlows(p, VaultCallback(s.(vaults := s.vaults[v := vault]), done.value.addr), v);
    }
  }

  lemma {:induction false} CollectAllKeepsFlows(p: Params, s: Cube, n: nat)
    requires p.Valid() && Flows(p, s) && n <= p.vaults
    ensures s.Shaped() && n <= |s.vaults| && Flows(p, CollectUpTo(s, n)) && SameClocks(CollectUpTo(s, n), s)
  {
    hide Flows, CollectVault;
    FlowsSizes(p, s);
    if n > 0 {
      CollectAllKeepsFlows(p, s, n - 1);
      CollectKeepsFlows(p, CollectUpTo(s, n - 1), n - 1);
    }
  }

  lemma TickVaultsKeepsFlows(p: Params, s: Cube)
    requires p.Valid() && Flows(p, s)
    ensures Flows(p, TickVaults(p, s))
  {
    hide Inv, Total, Keys, OutstandingAll, Outstanding, Control.Tick, Ok, ControllerRuns.Sound, Config.RefreshInterval, Config.Valid;
    SoundMeansValid(p);
    FlowsSizes(p, s);
    var t := TickVaults(p, s);
    forall v | 0 <= v < |s.vaults|
      ensures Inv(p.cfg, MakeTable(p.cfg), t.vaults[v]) && Outstanding(t.vaults[v], AddrOf) == Outstanding(s.vaults[v], AddrOf)
    {
      TickKeepsOutstanding(p.cfg, s.vaults[v], AddrOf);
    }
    OutstandingSame(t.vaults, s.vaults, AddrOf);
  }

  lemma SoundMeansValid(p: Params)
    requires p.Valid()
    ensures p.cfg.ranks > 0 && p.cfg.RefreshInterval() > 0 && ControllerRuns.Sound(p.cfg)
  {
  }

  lemma DramTickKeepsFlows(p: Params, s: Cube)
    requires p.Valid() && Flows(p, s)
    ensures s.Shaped() && p.cfg.ranks > 0 && p.cfg.RefreshInterval() > 0
    ensures Flows(p, DramTick(p, s))
    ensures SameClocks(DramTick(p, s).(clk := s.clk), s) && DramTick(p, s).clk == s.clk + 1
  {
    hide Flows, Params.Valid, Config.RefreshInterval;
    FlowsSizes(p, s);
    SoundMeansValid(p);
    CollectAllKeepsFlows(p, s, p.vaults);
    TickVaultsKeepsFlows(p, CollectUpTo(s, p.vaults));
    ClockKeepsFlows(p, TickVaults(p, CollectUpTo(s, p.vaults)), DramTick(p, s));
  }

  lemma ClockKeepsFlows(p: Params, s: Cube, t: Cube)
    requires Flows(p, s) && t == s.(clk := t.clk, logicClk := t.logicClk, logicPs := t.logicPs, dramPs := t.dramPs)
    ensures Flows(p, t)
  {
    hide Inv, Total, Keys, OutstandingAll, Outstanding, Ok, Bounded;
  }

  // ---- the clock domains

  lemma {:induction false} CyclesReach(logicPs: nat, psLogic: nat, until: nat)
    requires psLogic > 0
    ensures var n := CyclesUntil(logicPs, psLogic, until);
      && logicPs + n * psLogic >= until
      && (if n == 0 then logicPs >= until else logicPs + n * psLogic < until + psLogic)
    decreases until - logicPs
  {
    if logicPs < until {
      CyclesReach(logicPs + psLogic, psLogic, until);
      MulSucc(psLogic, CyclesUntil(logicPs + psLogic, psLogic, until));
    }
  }

  lemma {:induction false} LogicCyclesKeepFlows(p: Params, s: Cube, n: nat)
    requires p.Valid() && Flows(p, s)
    ensures s.Shaped() && Flows(p, LogicCycles(p, s, n))
    ensures var t := LogicCycles(p, s, n);
      && t.logicPs == s.logicPs + n * p.psLogic && t.logicClk == s.logicClk + n
      && t.clk == s.clk && t.dramPs == s.dramPs
  {
    hide Flows, DrainResponses, DrainRequests, Params.Valid;
    FlowsSizes(p, s);
    if n > 0 {
      LogicCyclesKeepFlows(p, s, n - 1);
      var t := LogicCycles(p, s, n - 1);
      LogicCycleKeepsFlows(p, t);
      MulSucc(p.psLogic, n - 1);
    }
  }

  lemma LogicCycleKeepsFlows(p: Params, s: Cube)
    requires p.Valid() && Flows(p, s)
    ensures s.Shaped() && Flows(p, LogicCycle(p, s))
    ensures SameClocks(LogicCycle(p, s), s.(logicPs := s.logicPs + p.psLogic, logicClk := s.logicClk + 1))
  {
    hide Flows, DrainResponses, DrainRequests, Params.Valid;
    FlowsSizes(p, s);
    ResponsesKeepFlows(p, s);
    RequestsKeepFlows(p, DrainResponses(p, s));
    ClockKeepsFlows(p, DrainRequests(p, DrainResponses(p, s)), LogicCycle(p, s));
  }

  /** The first half of a tick runs one DRAM cycle, and one logic cycle exactly when both domains meet. */
  lemma FirstHalfKeepsFlows(p: Params, s: Cube)
    requires p.Valid() && Flows(p, s)
    ensures s.Shaped() && p.cfg.ranks > 0 && p.cfg.RefreshInterval() > 0 && Flows(p, FirstHalf(p, s))
    ensures var k := if s.dramPs == s.logicPs then 1 else 0;
      SameClocks(FirstHalf(p, s), s.(clk := s.clk + 1, logicPs := s.logicPs + k * p.psLogic, logicClk := s.logicClk + k))
  {
    hide Flows, DrainResponses, DrainRequests, DramTick, Params.Valid, Config.RefreshInterval;
    SoundMeansValid(p);
    FlowsSizes(p, s);
    if s.dramPs == s.logicPs {
      var t := DrainResponses(p, s);
      ResponsesKeepFlows(p, s);
      DramTickKeepsFlows(p, t);
      RequestsKeepFlows(p, DramTick(p, t));
      ClockKeepsFlows(p, DrainRequests(p, DramTick(p, t)), FirstHalf(p, s));
    } else {
      DramTickKeepsFlows(p, s);
    }
  }

  /** One tick keeps conservation and advances both clocks so that the logic clock is again the first of
      its edges not before the DRAM clock. */
  lemma TickKeepsCube(p: Params, s: Cube)
    requires p.Valid() && CubeInv(p, s)
    ensures s.Shaped() && p.cfg.ranks > 0 && p.cfg.RefreshInterval() > 0
    ensures CubeInv(p, Tick(p, s)) && Tick(p, s).clk == s.clk + 1
  {
    hide Flows, FirstHalf, LogicCycles, CyclesUntil, Config.RefreshInterval, ControllerRuns.Sound;
    SoundMeansValid(p);
    FlowsSizes(p, s);
    FirstHalfKeepsFlows(p, s);
    var t := FirstHalf(p, s);
    var n := CyclesUntil(t.logicPs, p.psLogic, t.dramPs + p.psDram);
    CyclesReach(t.logicPs, p.psLogic, t.dramPs + p.psDram);
    LogicCyclesKeepFlows(p, t, n);
    var u := LogicCycles(p, t, n);
    ClockKeepsFlows(p, u, Tick(p, s));
    var k := if s.dramPs == s.logicPs then 1 else 0;
    SumOfCycles(p.psLogic, s.logicClk, k, n);
    MulSucc(p.psDram, s.clk);
  }

  lemma SumOfCycles(ps: nat, a: nat, b: nat, c: nat)
    ensures (a + b + c) * ps == a * ps + b * ps + c * ps
  {
  }

  // ---- runs

  datatype Op = Submit(o: Offer) | Cycle

  ghost function Step(p: Params, s: Cube, op: Op): (t: Cube)
    requires p.Valid() && CubeInv(p, s)
    ensures CubeInv(p, t) && t.clk == s.clk + (if op.Cycle? then 1 else 0)
  {
    hide Flows, InsertRequest, Tick;
    FlowsSizes(p, s);
    match op
    case Submit(o) => InsertKeepsInv(p, s, o); InsertLeavesClock(p, s, o); InsertRequest(p, s, o).1
    case Cycle => TickKeepsCube(p, s); Tick(p, s)
  }

  lemma InsertLeavesClock(p: Params, s: Cube, o: Offer)
    requires s.Shaped() && s.nextLink < |s.reqs.src|
    ensures InsertRequest(p, s, o).1.clk == s.clk
  {
  }

  function Cycles(ops: seq<Op>): nat {
    if ops == [] then 0 else Cycles(ops[..|ops|-1]) + (if ops[|ops|-1].Cycle? then 1 else 0)
  }

  /** The state after a run; that it exists at all means no look-up fails and no empty queue is read. */
  ghost function After(p: Params, ops: seq<Op>): (s: Cube)
    requires p.Valid()
    ensures CubeInv(p, s) && s.clk == Cycles(ops)
    decreases |ops|
  {
    hide Flows;
    InitialCube(p);
    if ops == [] then Initial(p) else Step(p, After(p, ops[..|ops|-1]), ops[|ops|-1])
  }

  /** Smallest number of periods of length `b` that cover `a`. */
  function CeilDiv(a: nat, b: nat): (c: nat)
    requires b > 0
  {
    (a + b - 1) / b
  }

  /** After n ticks the logic clock is ceil(n * psDram / psLogic). */
  lemma LogicClockIsCeiling(p: Params, ops: seq<Op>)
    requires p.Valid()
    ensures var s := After(p, ops);
      && s.logicClk == CeilDiv(Cycles(ops) * p.psDram, p.psLogic)
      && s.dramPs <= s.logicPs < s.dramPs + p.psLogic
  {
    hide After, Flows;
    var s := After(p, ops);
    var r := s.dramPs + p.psLogic - 1 - s.logicPs;
    assert s.logicClk * p.psLogic == p.psLogic * s.logicClk;
    DivModIs(s.dramPs + p.psLogic - 1, s.logicClk, r, p.psLogic);
  }

  /** On every run and for every address, the responses awaited are the requests on links and in quads
      plus the transactions outstanding in the vaults; no look-up ever failed; an age counter is positive
      exactly when its queue holds something. */
  lemma CubeConserves(p: Params, ops: seq<Op>, a: nat)
    requires p.Valid()
    ensures var s := After(p, ops);
      && Keys(s.table, RespId)[a] == Total(s.reqs.src, ReqAddr)[a] + Total(s.reqs.dst, ReqAddr)[a] + OutstandingAll(s.vaults, AddrOf)[a]
      && !s.lost && !s.reqs.fault && !s.resps.fault
      && (forall l :: 0 <= l < p.links ==> (s.reqs.age[l] > 0 <==> s.reqs.src[l] != []))
      && (forall q :: 0 <= q < 4 ==> (s.resps.age[q] > 0 <==> s.resps.src[q] != []))
  {
    hide After, Total, Keys, OutstandingAll;
    var s := After(p, ops);
    assert Load(s.reqs, ReqAddr)[a] == Total(s.reqs.src, ReqAddr)[a] + Total(s.reqs.dst, ReqAddr)[a];
  }

  /** No response is made up or given twice, and those not yet given are in the table or the queues. */
  lemma EveryAnswerWasPromised(p: Params, ops: seq<Op>)
    requires p.Valid()
    ensures var s := After(p, ops);
      && Keys(s.answered, RespCore) <= Keys(s.submitted, RespCore)
      && |s.submitted| == |s.answered| + |s.table| + |Load(s.resps, RespCore)|
  {
    hide After, Total, Load;
    var s := After(p, ops);
    KeysSize(s.submitted);
    KeysSize(s.answered);
    KeysSize(s.table);
    hide Keys;
  }

  lemma KeysSize(q: seq<Packet<Resp>>)
    ensures |Keys(q, RespCore)| == |q|
  {
  }

  /** The clock ratio the constructor computes: the logic period is at most the DRAM period, and it is
      positive exactly for logic speeds up to 1 THz. */
  lemma ClockRatio(logicSpeed: nat)
    requires logicSpeed > 0
    ensures PsPerLogic(logicSpeed) <= PS_PER_DRAM
    ensures PsPerLogic(logicSpeed) > 0 <==> logicSpeed <= 1000000
  {
    var q, r := 1000000 / logicSpeed, 1000000 % logicSpeed;
    assert 1000000 == logicSpeed * q + r;
    if q <= 0 {
      MulMono(logicSpeed, q, 0);
    } else {
      MulMono(logicSpeed, 1, q);
    }
  }
}
