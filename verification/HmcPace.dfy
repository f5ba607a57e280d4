/** How fast packets move through the HMC system: two flits a logic cycle into each quad and each link, no
    packet onward before its last flit, and every queue front that may move does. */
module HmcPace {
  import opened Types
  import opened Timing
  import opened Crossbar
  import opened Arbitration
  import opened Hmc
  import opened HmcRuns
  import opened HmcOffers
  import Control

  // ---- pace

  predicate AllThrough<B>(left: seq<Packet<B>>, clk: nat) {
    forall i :: 0 <= i < |left| ==> left[i].exit <= clk
  }

  /** The requests' side of the crossbar as cycle `a` begins, the responses' side as cycle `b` does. */
  ghost predicate Pace(s: Cube, a: nat, b: nat) {
    && AllPaced(s.entered, s.reqs, a) && AllPaced(s.answered, s.resps, b)
    && AllThrough(s.entered, s.logicClk) && AllThrough(s.answered, s.logicClk)
  }

  lemma PutKeepsPace(p: Params, s: Cube, o: Offer, link: nat, a: nat, b: nat)
    requires s.Shaped() && link < |s.reqs.src| && Pace(s, a, b)
    ensures Pace(PutOnLink(p, s, o, link), a, b)
  {
    hide PaceOk, Owned, To;
  }

  lemma InsertKeepsPace(p: Params, s: Cube, o: Offer, a: nat, b: nat)
    requires s.Shaped() && s.nextLink < |s.reqs.src| && Pace(s, a, b)
    ensures Pace(InsertRequest(p, s, o).1, a, b)
  {
    hide AllPaced, PutOnLink, FreeAfter;
    var n := |s.reqs.src|;
    var i := FreeAfter(s.reqs.src, p.depth, s.nextLink, 0);
    if i < n {
      PutKeepsPace(p, s, o, Rotated(s.nextLink, n, i), a, b);
    }
  }

  lemma AnswerKeepsPace(s: Cube, link: nat, a: nat, b: nat)
    requires s.Shaped() && link < |s.resps.dst| && Pace(s, a, b)
    ensures Pace(AnswerOne(s, link), a, b)
  {
    hide AllPaced;
    if s.resps.dst[link] != [] {
      LeavingKeepsPace(s.answered, s.resps, link, b);
    }
  }

  lemma {:induction false} AnswersKeepPace(s: Cube, n: nat, a: nat, b: nat)
    requires s.Shaped() && n <= |s.resps.dst| && Pace(s, a, b)
    ensures Pace(AnswerUpTo(s, n), a, b) && AnswerUpTo(s, n).logicClk == s.logicClk
  {
    hide Pace;
    if n > 0 {
      AnswersKeepPace(s, n - 1, a, b);
      AnswerKeepsPace(AnswerUpTo(s, n - 1), n - 1, a, b);
    }
  }

  lemma ResponsesKeepPace(p: Params, s: Cube, a: nat)
    requires s.Shaped() && Pace(s, a, s.logicClk)
    ensures var t := DrainResponses(p, s); t.logicClk == s.logicClk && Pace(t, a, s.logicClk + 1)
  {
    hide AllPaced, AnswerUpTo, Cross;
    AnswersKeepPace(s, |s.resps.dst|, a, s.logicClk);
    var t := AnswerUpTo(s, |s.resps.dst|);
    CrossKeepsPace(t.answered, t.resps, p.depth, t.logicClk);
  }

  lemma EnterKeepsPace(p: Params, s: Cube, quad: nat, a: nat, b: nat)
    requires s.Shaped() && Pace(s, a, b)
    ensures Pace(EnterVault(p, s, quad), a, b)
  {
    hide AllPaced, Control.AddTransaction, Control.WillAcceptTransaction;
    if quad < |s.reqs.dst| && s.reqs.dst[quad] != [] {
      LeavingKeepsPace(s.entered, s.reqs, quad, a);
    }
  }

  lemma {:induction false} EntersKeepPace(p: Params, s: Cube, n: nat, a: nat, b: nat)
    requires s.Shaped() && Pace(s, a, b)
    ensures Pace(EnterUpTo(p, s, n), a, b) && EnterUpTo(p, s, n).logicClk == s.logicClk
  {
    hide Pace;
    if n > 0 {
      EntersKeepPace(p, s, n - 1, a, b);
      EnterKeepsPace(p, EnterUpTo(p, s, n - 1), n - 1, a, b);
    }
  }

  lemma RequestsKeepPace(p: Params, s: Cube, b: nat)
    requires s.Shaped() && Pace(s, s.logicClk, b)
    ensures var t := DrainRequests(p, s); t.logicClk == s.logicClk && Pace(t, s.logicClk + 1, b)
  {
    hide AllPaced, EnterUpTo, Cross;
    EntersKeepPace(p, s, 4, s.logicClk, b);
    var t := EnterUpTo(p, s, 4);
    CrossKeepsPace(t.entered, t.reqs, p.depth, t.logicClk);
  }

  /** What leaves the destinations and what left them alone. */
  predicate SameArrivals(s: Cube, t: Cube) {
    && t.reqs == s.reqs && t.resps.dst == s.resps.dst && t.resps.busy == s.resps.busy
    && t.entered == s.entered && t.answered == s.answered && t.logicClk == s.logicClk
  }

  lemma SameKeepsPace(s: Cube, t: Cube, a: nat, b: nat)
    requires SameArrivals(s, t) && Pace(s, a, b)
    ensures Pace(t, a, b)
  {
    hide PaceOk, Owned, To;
  }

  lemma CallbackKeepsArrivals(s: Cube, id: nat)
    requires s.Shaped()
    ensures SameArrivals(s, VaultCallback(s, id))
  {
  }

  lemma {:induction false} CollectKeepsArrivals(s: Cube, v: nat)
    requires s.Shaped() && v < |s.vaults|
    ensures SameArrivals(s, CollectVault(s, v))
    decreases |s.vaults[v].ret|
  {
    hide VaultCallback, Control.ReturnDone;
    var (done, vault) := Control.ReturnDone(s.vaults[v], s.clk);
    Owed.ReturnShortens(s.vaults[v], s.clk);
    if done.Some? {
      var t := s.(vaults := s.vaults[v := vault]);
      CallbackKeepsArrivals(t, done.value.addr);
      CollectKeepsArrivals(VaultCallback(t, done.value.addr), v);
    }
  }

  lemma {:induction false} CollectAllKeepsArrivals(s: Cube, n: nat)
    requires s.Shaped() && n <= |s.vaults|
    ensures SameArrivals(s, CollectUpTo(s, n))
  {
    hide CollectVault;
    if n > 0 {
      CollectAllKeepsArrivals(s, n - 1);
      CollectKeepsArrivals(CollectUpTo(s, n - 1), n - 1);
    }
  }

  lemma DramTickKeepsPace(p: Params, s: Cube, a: nat, b: nat)
    requires s.Shaped() && p.cfg.ranks > 0 && p.cfg.RefreshInterval() > 0 && Pace(s, a, b)
    ensures Pace(DramTick(p, s), a, b) && DramTick(p, s).logicClk == s.logicClk
  {
    hide Pace, Control.Tick, CollectUpTo, Config.RefreshInterval;
    CollectAllKeepsArrivals(s, |s.vaults|);
    SameKeepsPace(s, DramTick(p, s), a, b);
  }

  lemma LaterStaysThrough<B>(left: seq<Packet<B>>, clk: nat)
    requires AllThrough(left, clk)
    ensures AllThrough(left, clk + 1)
  {
  }

  lemma LogicStepKeepsPace(p: Params, s: Cube, a: nat, b: nat)
    requires s.Shaped() && Pace(s, a, b)
    ensures Pace(LogicStep(p, s), a, b)
  {
    hide AllPaced, AllThrough;
    LaterStaysThrough(s.entered, s.logicClk);
    LaterStaysThrough(s.answered, s.logicClk);
  }

  lemma LogicCycleKeepsPace(p: Params, s: Cube)
    requires s.Shaped() && Pace(s, s.logicClk, s.logicClk)
    ensures var t := LogicCycle(p, s); Pace(t, t.logicClk, t.logicClk)
  {
    hide Pace, DrainResponses, DrainRequests;
    ResponsesKeepPace(p, s, s.logicClk);
    var t := DrainResponses(p, s);
    RequestsKeepPace(p, t, s.logicClk + 1);
    LogicStepKeepsPace(p, DrainRequests(p, t), s.logicClk + 1, s.logicClk + 1);
  }

  lemma {:induction false} LogicCyclesKeepPace(p: Params, s: Cube, n: nat)
    requires s.Shaped() && Pace(s, s.logicClk, s.logicClk)
    ensures var t := LogicCycles(p, s, n); Pace(t, t.logicClk, t.logicClk)
  {
    hide Pace, LogicCycle;
    if n > 0 {
      LogicCyclesKeepPace(p, s, n - 1);
      LogicCycleKeepsPace(p, LogicCycles(p, s, n - 1));
    }
  }

  lemma FirstHalfKeepsPace(p: Params, s: Cube)
    requires s.Shaped() && p.cfg.ranks > 0 && p.cfg.RefreshInterval() > 0 && Pace(s, s.logicClk, s.logicClk)
    ensures var t := FirstHalf(p, s); Pace(t, t.logicClk, t.logicClk)
  {
    hide Pace, DrainResponses, DrainRequests, DramTick, Config.RefreshInterval;
    var c := s.logicClk;
    if s.dramPs == s.logicPs {
      ResponsesKeepPace(p, s, c);
      var t := DrainResponses(p, s);
      DramTickKeepsPace(p, t, c, c + 1);
      RequestsKeepPace(p, DramTick(p, t), c + 1);
      LogicStepKeepsPace(p, DrainRequests(p, DramTick(p, t)), c + 1, c + 1);
    } else {
      DramTickKeepsPace(p, s, c, c);
    }
  }

  lemma TickKeepsPace(p: Params, s: Cube)
    requires s.Shaped() && p.psLogic > 0 && p.cfg.ranks > 0 && p.cfg.RefreshInterval() > 0
    requires Pace(s, s.logicClk, s.logicClk)
    ensures var t := Tick(p, s); Pace(t, t.logicClk, t.logicClk)
  {
    hide Pace, FirstHalf, LogicCycles, CyclesUntil, Config.RefreshInterval;
    var t := FirstHalf(p, s);
    FirstHalfKeepsPace(p, s);
    var n := CyclesUntil(t.logicPs, p.psLogic, t.dramPs + p.psDram);
    LogicCyclesKeepPace(p, t, n);
    var u := LogicCycles(p, t, n);
    SameKeepsPace(u, Tick(p, s), u.logicClk, u.logicClk);
  }

  lemma InitialPace(p: Params)
    ensures Pace(Initial(p), 0, 0) && Initial(p).logicClk == 0
  {
  }

  lemma InsertLeavesLogic(p: Params, s: Cube, o: Offer)
    requires s.Shaped() && s.nextLink < |s.reqs.src|
    ensures InsertRequest(p, s, o).1.logicClk == s.logicClk
  {
  }

  lemma {:induction false} RunPace(p: Params, ops: seq<Op>)
    requires p.Valid()
    ensures var s := After(p, ops); Pace(s, s.logicClk, s.logicClk)
    decreases |ops|
  {
    hide Pace, CubeInv, Tick, InsertRequest, Params.Valid;
    if ops == [] {
      InitialPace(p);
    } else {
      var s, op := After(p, ops[..|ops| - 1]), ops[|ops| - 1];
      RunPace(p, ops[..|ops| - 1]);
      SoundShape(p, s);
      match op
      case Submit(o) =>
        InsertKeepsPace(p, s, o, s.logicClk, s.logicClk);
        InsertLeavesLogic(p, s, o);
      case Cycle => TickKeepsPace(p, s);
    }
  }

  /** On every run, what crosses to a quad or a link between two arrivals fits, at two flits a logic cycle,
      into the cycles between them; no request has entered its vault and no response reached the processor
      before its last flit was through. */
  lemma CrossbarKeepsPace(p: Params, ops: seq<Op>)
    requires p.Valid()
    ensures var s := After(p, ops);
      && |s.reqs.dst| == 4 && |s.resps.dst| == p.links
      && (forall q, i, k :: 0 <= q < 4 && 0 <= i <= k < |Arrivals(s.entered, s.reqs.dst, q)| ==>
            var h := Arrivals(s.entered, s.reqs.dst, q); Flits(h, i, k) <= 2 * (CrossedAt(h[k]) - CrossedAt(h[i])))
      && (forall l, i, k :: 0 <= l < p.links && 0 <= i <= k < |Arrivals(s.answered, s.resps.dst, l)| ==>
            var h := Arrivals(s.answered, s.resps.dst, l); Flits(h, i, k) <= 2 * (CrossedAt(h[k]) - CrossedAt(h[i])))
      && AllThrough(s.entered, s.logicClk) && AllThrough(s.answered, s.logicClk)
  {
    hide After, Flows, AllThrough, Arrivals, Paced, CrossedAt;
    RunPace(p, ops);
    var s := After(p, ops);
    FlowsSizes(p, s);
    forall q, i, k | 0 <= q < 4 && 0 <= i <= k < |Arrivals(s.entered, s.reqs.dst, q)|
      ensures var h := Arrivals(s.entered, s.reqs.dst, q); Flits(h, i, k) <= 2 * (CrossedAt(h[k]) - CrossedAt(h[i]))
    {
      TwoFlitsPerCycle(Arrivals(s.entered, s.reqs.dst, q), i, k);
    }
    forall l, i, k | 0 <= l < p.links && 0 <= i <= k < |Arrivals(s.answered, s.resps.dst, l)|
      ensures var h := Arrivals(s.answered, s.resps.dst, l); Flits(h, i, k) <= 2 * (CrossedAt(h[k]) - CrossedAt(h[i]))
    {
      TwoFlitsPerCycle(Arrivals(s.answered, s.resps.dst, l), i, k);
    }
  }

  // ---- every front that may move does

  /** The front packet is through by cycle `clk`. */
  predicate Through<B>(q: seq<Packet<B>>, clk: nat) {
    q != [] && q[0].exit <= clk
  }

  /** The fronts of the first `n` queues that `moves` picks, in order. */
  function Fronts<B>(qs: seq<seq<Packet<B>>>, n: nat, moves: nat -> bool): seq<Packet<B>>
    requires n <= |qs|
  {
    if n == 0 then []
    else Fronts(qs, n - 1, moves) + (if moves(n - 1) && qs[n-1] != [] then [qs[n-1][0]] else [])
  }

  function WithoutFronts<B>(qs: seq<seq<Packet<B>>>, n: nat, moves: nat -> bool): seq<seq<Packet<B>>>
    requires n <= |qs|
  {
    seq(|qs|, i requires 0 <= i < |qs| => if i < n && moves(i) && qs[i] != [] then qs[i][1..] else qs[i])
  }

  function ThroughOn(s: Cube): nat -> bool {
    (l: nat) => l < |s.resps.dst| && Through(s.resps.dst[l], s.logicClk)
  }

  ghost predicate LinksServed(s: Cube, t: Cube, n: nat)
    requires n <= |s.resps.dst|
  {
    t == s.(resps := s.resps.(dst := WithoutFronts(s.resps.dst, n, ThroughOn(s))),
            answered := s.answered + Fronts(s.resps.dst, n, ThroughOn(s)))
  }

  lemma NoLinkServed(s: Cube)
    ensures LinksServed(s, s, 0)
  {
    assert WithoutFronts(s.resps.dst, 0, ThroughOn(s)) == s.resps.dst;
  }

  lemma NextLinkServed(s: Cube, t: Cube, l: nat)
    requires t.Shaped() && l < |s.resps.dst| && LinksServed(s, t, l)
    ensures l < |t.resps.dst| && LinksServed(s, AnswerOne(t, l), l + 1)
  {
    var dst, moves := s.resps.dst, ThroughOn(s);
    assert t.resps.dst[l] == dst[l];
    assert WithoutFronts(dst, l + 1, moves) == if moves(l) then t.resps.dst[l := dst[l][1..]] else t.resps.dst;
  }

  /** In a logic cycle each link hands its front response to the processor exactly if it is through. */
  lemma {:induction false} LinksAnswerAlone(s: Cube, n: nat)
    requires s.Shaped() && n <= |s.resps.dst|
    ensures LinksServed(s, AnswerUpTo(s, n), n)
  {
    hide AnswerOne, LinksServed;
    if n == 0 {
      NoLinkServed(s);
    } else {
      LinksAnswerAlone(s, n - 1);
      NextLinkServed(s, AnswerUpTo(s, n - 1), n - 1);
    }
  }

  /** The front request of quad `q` has crossed, its vault accepts it, and the quad has room for responses. */
  ghost function MayEnter(p: Params, s: Cube): nat -> bool {
    (q: nat) =>
      && q < |s.reqs.dst| && q < |s.resps.src| && Through(s.reqs.dst[q], s.logicClk)
      && |s.resps.src[q]| < p.depth && s.reqs.dst[q][0].body.vault < |s.vaults|
      && Control.WillAcceptTransaction(p.cfg, s.vaults[s.reqs.dst[q][0].body.vault], s.reqs.dst[q][0].body.isWrite)
  }

  /** Vault `v` after the first `n` quads have had their turn: it has accepted the front of its quad if that is
      for it and may enter. */
  ghost function VaultAfter(p: Params, s: Cube, n: nat, v: nat): Control.State
    requires v < |s.vaults| && |s.reqs.dst| == 4
  {
    var q := v % 4;
    if q < n && MayEnter(p, s)(q) && s.reqs.dst[q][0].body.vault == v then
      Control.AddTransaction(p.cfg, s.vaults[v], s.reqs.dst[q][0].body.addr, s.reqs.dst[q][0].body.isWrite)
    else s.vaults[v]
  }

  ghost predicate QuadsServed(p: Params, s: Cube, t: Cube, n: nat)
    requires |s.reqs.dst| == 4 && n <= 4
  {
    && |t.vaults| == |s.vaults|
    && (forall v :: 0 <= v < |s.vaults| ==> t.vaults[v] == VaultAfter(p, s, n, v))
    && t == s.(reqs := s.reqs.(dst := WithoutFronts(s.reqs.dst, n, MayEnter(p, s))), vaults := t.vaults,
               entered := s.entered + Fronts(s.reqs.dst, n, MayEnter(p, s)),
               enteredAt := s.enteredAt + seq(|Fronts(s.reqs.dst, n, MayEnter(p, s))|, _ => s.logicClk))
  }

  /** All requests waiting in quads are for vaults that exist, of that quad. */
  predicate QuadsFit(s: Cube) {
    && |s.reqs.dst| == 4 == |s.resps.src|
    && forall q :: 0 <= q < 4 && s.reqs.dst[q] != [] ==>
         s.reqs.dst[q][0].body.vault < |s.vaults| && s.reqs.dst[q][0].body.vault % 4 == q
  }

  lemma NoQuadServed(p: Params, s: Cube)
    requires |s.reqs.dst| == 4
    ensures QuadsServed(p, s, s, 0)
  {
    assert WithoutFronts(s.reqs.dst, 0, MayEnter(p, s)) == s.reqs.dst;
  }

  /** In a logic cycle each quad lets its front request into its vault exactly if it may enter as the cycle
      begins: the quads do not get into each other's way. */
  lemma {:induction false} QuadsEnterAlone(p: Params, s: Cube, n: nat)
    requires s.Shaped() && QuadsFit(s) && n <= 4
    ensures QuadsServed(p, s, EnterUpTo(p, s, n), n)
  {
    hide EnterVault, QuadsServed, QuadsFit;
    assert |s.reqs.dst| == 4 by { FitSizes(s); }
    if n == 0 {
      NoQuadServed(p, s);
    } else {
      QuadsEnterAlone(p, s, n - 1);
      NextQuadServed(p, s, EnterUpTo(p, s, n - 1), n - 1);
    }
  }

  lemma FitSizes(s: Cube)
    requires QuadsFit(s)
    ensures |s.reqs.dst| == 4 == |s.resps.src|
  {
  }

  lemma NextQuadServed(p: Params, s: Cube, t: Cube, q: nat)
    requires t.Shaped() && QuadsFit(s) && q < 4 && QuadsServed(p, s, t, q)
    ensures QuadsServed(p, s, EnterVault(p, t, q), q + 1)
  {
    hide Control.AddTransaction, Control.WillAcceptTransaction;
    var u := EnterVault(p, t, q);
    var dst, moves := s.reqs.dst, MayEnter(p, s);
    assert t.reqs.dst[q] == dst[q];
    if dst[q] != [] {
      var v := dst[q][0].body.vault;
      assert t.vaults[v] == s.vaults[v];
    }
    assert WithoutFronts(dst, q + 1, moves) == if moves(q) then t.reqs.dst[q := dst[q][1..]] else t.reqs.dst;
    forall v | 0 <= v < |s.vaults| ensures u.vaults[v] == VaultAfter(p, s, q + 1, v) {
      assert t.vaults[v] == VaultAfter(p, s, q, v);
    }
  }

  lemma FlowsFit(p: Params, s: Cube)
    requires Flows(p, s) && Offered(p, s)
    ensures QuadsFit(s)
  {
    hide VaultsOk, Awaited, Answering, Bounded, LanesOk, VaultsReceived, NoneChanged, AllPromised, SourcesOwn;
    forall q | 0 <= q < 4 && s.reqs.dst[q] != []
      ensures s.reqs.dst[q][0].body.vault < |s.vaults| && s.reqs.dst[q][0].body.vault % 4 == q
    {
      assert AllGood(s.reqs.dst[q], ReqGood(p), 4);
      assert ReqGood(p)(s.reqs.dst[q][0]);
      assert s.reqs.dst[q][0].dest == q;
    }
  }

  /** Each source with a packet sends its front across or waits for a full or busy destination. */
  ghost predicate NoneIdle<B>(x: Xbar<B>, y: Xbar<B>, depth: nat) {
    && SameShape(x, y)
    && forall s :: 0 <= s < |x.src| && x.src[s] != [] ==> Crossed(x, y, s) || Waits(x, y, s, depth)
  }

  /** One logic cycle of the requests: every quad's front that may enter its vault does, then every link's front
      crosses or waits for a full or busy quad. */
  lemma RequestCycle(p: Params, s: Cube) returns (mid: Cube)
    requires p.Valid() && Flows(p, s) && Offered(p, s)
    ensures s.Shaped() && |s.reqs.dst| == 4
    ensures QuadsServed(p, s, mid, 4) && NoneIdle(mid.reqs, DrainRequests(p, s).reqs, p.depth)
    ensures DrainRequests(p, s) == mid.(reqs := DrainRequests(p, s).reqs)
  {
    hide Flows, Offered, EnterUpTo, QuadsServed, Cross, Ok, IgnoresExit, Crossed, Waits, Params.Valid;
    FlowsSizes(p, s);
    FlowsFit(p, s);
    QuadsEnterAlone(p, s, 4);
    mid := EnterUpTo(p, s, 4);
    EnterAllKeepsFlows(p, s, 4);
    FlowsOk(p, mid);
    GoodIgnoresExit(p);
    CrossMeaning(mid.reqs, p.depth, mid.logicClk, ReqGood(p));
  }

  /** One logic cycle of the responses: every link's front that is through reaches the processor, then every
      quad's front crosses or waits for a full or busy link. */
  lemma ResponseCycle(p: Params, s: Cube) returns (mid: Cube)
    requires p.Valid() && Flows(p, s)
    ensures s.Shaped() && LinksServed(s, mid, |s.resps.dst|) && NoneIdle(mid.resps, DrainResponses(p, s).resps, p.depth)
    ensures DrainResponses(p, s) == mid.(resps := DrainResponses(p, s).resps)
  {
    hide Flows, AnswerUpTo, LinksServed, Cross, Ok, IgnoresExit, Crossed, Waits, Params.Valid;
    FlowsSizes(p, s);
    LinksAnswerAlone(s, |s.resps.dst|);
    mid := AnswerUpTo(s, |s.resps.dst|);
    AnswerAllKeepsFlows(p, s, p.links);
    FlowsOk(p, mid);
    GoodIgnoresExit(p);
    CrossMeaning(mid.resps, p.depth, mid.logicClk, RespGood(p));
  }
}
