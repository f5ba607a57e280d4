/** Responses of the HMC system keep their order: between a quad and a link none overtakes another. */
module HmcAnswers {
  import opened Types
  import opened Timing
  import opened Crossbar
  import opened Lanes
  import opened Hmc
  import opened HmcRuns
  import HmcOffers
  import Owed
  import Arbitration
  import Control

  /** The responses from quad `q` to link `l`, apart from their exit times. */
  function Back(q: nat, l: nat): Packet<Resp> -> Option<Packet<Resp>> {
    (r: Packet<Resp>) => if r.body.quad == q && r.dest == l then Some(r.(exit := 0)) else None
  }

  function QuadOf(b: Resp): nat { b.quad }

  /** What the vaults of a quad let go for a link is what has reached the processor, then what is on the way. */
  predicate BackOk(p: Params, s: Cube) {
    && |s.resps.src| == 4 && |s.resps.dst| == p.links && |s.resps.age| == 4 && |s.resps.busy| == p.links
    && FromOwn(s.resps.src, QuadOf) && Arbitration.Owned(s.resps.dst)
    && forall q, l :: 0 <= q < 4 && 0 <= l < p.links ==>
         Selected(s.finished, Back(q, l)) == Selected(s.answered, Back(q, l)) + InLane(s.resps, q, l, Back(q, l))
  }

  predicate SameResponses(s: Cube, t: Cube) {
    t.resps == s.resps && t.finished == s.finished && t.answered == s.answered
  }

  lemma SameStaysBack(p: Params, s: Cube, t: Cube)
    requires BackOk(p, s) && SameResponses(s, t)
    ensures BackOk(p, t)
  {
    hide Selected, InLane;
  }

  // ---- each step

  /** The earliest response awaited under `id` leaves the table for the back of its quad's queue, whose age starts
      again. */
  lemma CallbackMeaning(p: Params, s: Cube, id: nat) returns (i: nat)
    requires XbarsOk(p, s) && exists k :: 0 <= k < |s.table| && s.table[k].body.id == id
    ensures s.Shaped() && i < |s.table| && s.table[i].body.id == id && forall k :: 0 <= k < i ==> s.table[k].body.id != id
    ensures var (t, r) := (VaultCallback(s, id), s.table[i]);
      && r.body.quad < |s.resps.src| == |t.resps.src| == |t.resps.age|
      && t.table == s.table[..i] + s.table[i+1..] && t.finished == s.finished + [r]
      && t.resps.src[r.body.quad] == s.resps.src[r.body.quad] + [r] && t.resps.age[r.body.quad] == 1
      && (forall q :: 0 <= q < |s.resps.src| && q != r.body.quad ==>
            t.resps.src[q] == s.resps.src[q] && t.resps.age[q] == s.resps.age[q])
      && t == s.(table := t.table, finished := t.finished, resps := s.resps.(src := t.resps.src, age := t.resps.age))
  {
    i := FindEntry(s.table, id, 0);
    assert RespGood(p)(s.table[i]);
  }

  lemma BackPicks(q: nat, l: nat)
    ensures PicksLane(Back(q, l), QuadOf, q, l)
  {
  }

  lemma BackMeans(q: nat, l: nat, r: Packet<Resp>)
    ensures Back(q, l)(r).Some? <==> r.body.quad == q && r.dest == l
  {
  }

  lemma CallbackStaysBack(p: Params, s: Cube, id: nat)
    requires s.Shaped() && BackOk(p, s)
    ensures BackOk(p, VaultCallback(s, id))
  {
    hide Selected, Back, FindEntry;
    var i := FindEntry(s.table, id, 0);
    if i < |s.table| && s.table[i].body.quad < |s.resps.src| {
      var t, r := VaultCallback(s, id), s.table[i];
      forall q, l | 0 <= q < 4 && 0 <= l < p.links
        ensures Selected(t.finished, Back(q, l)) == Selected(t.answered, Back(q, l)) + InLane(t.resps, q, l, Back(q, l))
      {
        BackMeans(q, l, r);
        SelectedPush(s.finished, r, Back(q, l));
        SelectedPush(s.resps.src[r.body.quad], r, Back(q, l));
      }
    }
  }

  /** The front response of a link moves from one end of its lanes to the other. */
  lemma AnswerKeepsLane(s: Cube, link: nat, q: nat, l: nat)
    requires s.Shaped() && link < |s.resps.dst| && q < |s.resps.src| && l < |s.resps.dst| && s.resps.dst[link] != []
    requires s.resps.dst[link][0].dest == link
    ensures var (r, f) := (s.resps.dst[link][0], Back(q, l));
      Selected(s.answered + [r], f) + InLane(s.resps.(dst := Pop(s.resps.dst, link)), q, l, f)
      == Selected(s.answered, f) + InLane(s.resps, q, l, f)
  {
    hide Selected, Back;
    var r, f := s.resps.dst[link][0], Back(q, l);
    BackMeans(q, l, r);
    SelectedPush(s.answered, r, f);
    SelectedPop(s.resps.dst[link], f);
    if l == link && f(r).Some? {
      Shift(Selected(s.answered, f), f(r).value, Selected(s.resps.dst[l][1..], f), Selected(s.resps.src[q], f));
    }
  }

  lemma Shift<T>(a: seq<T>, x: T, b: seq<T>, c: seq<T>)
    ensures (a + [x]) + (b + c) == a + (([x] + b) + c)
  {
  }

  lemma AnswerStaysBack(p: Params, s: Cube, link: nat)
    requires s.Shaped() && link < |s.resps.dst| && BackOk(p, s)
    ensures BackOk(p, AnswerOne(s, link))
  {
    hide Selected, Back, InLane;
    if s.resps.dst[link] != [] {
      forall q, l | 0 <= q < 4 && 0 <= l < p.links
        ensures var (r, f) := (s.resps.dst[link][0], Back(q, l));
          Selected(s.answered + [r], f) + InLane(s.resps.(dst := Pop(s.resps.dst, link)), q, l, f)
          == Selected(s.answered, f) + InLane(s.resps, q, l, f)
      {
        AnswerKeepsLane(s, link, q, l);
      }
      PoppedStaysOwned(s.resps.dst, link);
    }
  }

  lemma PoppedStaysOwned<B>(dst: seq<seq<Packet<B>>>, d: nat)
    requires d < |dst| && dst[d] != [] && Arbitration.Owned(dst)
    ensures Arbitration.Owned(Pop(dst, d))
  {
  }

  lemma {:induction false} AnswersStayBack(p: Params, s: Cube, n: nat)
    requires s.Shaped() && n <= |s.resps.dst| && BackOk(p, s)
    ensures BackOk(p, AnswerUpTo(s, n))
  {
    hide BackOk, AnswerOne;
    if n > 0 {
      AnswersStayBack(p, s, n - 1);
      AnswerStaysBack(p, AnswerUpTo(s, n - 1), n - 1);
    }
  }

  lemma {:induction false} CrossAllKeepsOwned<B>(x: Xbar<B>, order: seq<nat>, depth: nat, clk: nat, from: B -> nat)
    requires |x.age| == |x.src| && |x.busy| == |x.dst| && FromOwn(x.src, from) && Arbitration.Owned(x.dst)
    ensures var y := CrossAll(x, order, depth, clk); FromOwn(y.src, from) && Arbitration.Owned(y.dst)
    decreases |order|
  {
    if order != [] {
      CrossAllKeepsOwned(CrossOne(x, order[0], depth, clk), order[1..], depth, clk, from);
    }
  }

  lemma CrossStaysBack(p: Params, s: Cube, depth: nat)
    requires s.Shaped() && BackOk(p, s)
    ensures BackOk(p, s.(resps := Cross(s.resps, depth, s.logicClk)))
  {
    hide Selected, Back, InLane, CrossAll, FromOwn, Arbitration.Owned;
    var x, clk := s.resps, s.logicClk;
    CrossAllKeepsOwned(x.(busy := Cooled(x.busy)), AgeQueue(x.age, clk), depth, clk, QuadOf);
    forall q, l | 0 <= q < 4 && 0 <= l < p.links
      ensures InLane(Cross(x, depth, clk), q, l, Back(q, l)) == InLane(x, q, l, Back(q, l))
    {
      BackPicks(q, l);
      CrossKeepsLane(x, depth, clk, q, l, Back(q, l), QuadOf);
    }
  }

  lemma ResponsesStayBack(p: Params, s: Cube)
    requires s.Shaped() && BackOk(p, s)
    ensures BackOk(p, DrainResponses(p, s))
  {
    hide BackOk, AnswerUpTo, Cross;
    AnswersStayBack(p, s, |s.resps.dst|);
    CrossStaysBack(p, AnswerUpTo(s, |s.resps.dst|), p.depth);
  }

  lemma {:induction false} EntersLeaveResponses(p: Params, s: Cube, n: nat)
    requires s.Shaped()
    ensures SameResponses(s, EnterUpTo(p, s, n))
  {
    hide Control.AddTransaction, Control.WillAcceptTransaction;
    if n > 0 {
      EntersLeaveResponses(p, s, n - 1);
    }
  }

  lemma RequestsStayBack(p: Params, s: Cube)
    requires s.Shaped() && BackOk(p, s)
    ensures BackOk(p, DrainRequests(p, s))
  {
    hide BackOk, EnterUpTo, Cross;
    EntersLeaveResponses(p, s, 4);
    SameStaysBack(p, s, DrainRequests(p, s));
  }

  lemma {:induction false} CollectStaysBack(p: Params, s: Cube, v: nat)
    requires s.Shaped() && v < |s.vaults| && BackOk(p, s)
    ensures BackOk(p, CollectVault(s, v))
    decreases |s.vaults[v].ret|
  {
    hide BackOk, VaultCallback, Control.ReturnDone;
    var (done, vault) := Control.ReturnDone(s.vaults[v], s.clk);
    Owed.ReturnShortens(s.vaults[v], s.clk);
    if done.Some? {
      var t := s.(vaults := s.vaults[v := vault]);
      SameStaysBack(p, s, t);
      CallbackStaysBack(p, t, done.value.addr);
      CollectStaysBack(p, VaultCallback(t, done.value.addr), v);
    }
  }

  lemma {:induction false} CollectAllStaysBack(p: Params, s: Cube, n: nat)
    requires s.Shaped() && n <= |s.vaults| && BackOk(p, s)
    ensures BackOk(p, CollectUpTo(s, n))
  {
    hide BackOk, CollectVault;
    if n > 0 {
      CollectAllStaysBack(p, s, n - 1);
      CollectStaysBack(p, CollectUpTo(s, n - 1), n - 1);
    }
  }

  lemma DramTickStaysBack(p: Params, s: Cube)
    requires s.Shaped() && p.cfg.ranks > 0 && p.cfg.RefreshInterval() > 0 && BackOk(p, s)
    ensures BackOk(p, DramTick(p, s))
  {
    hide BackOk, Control.Tick, CollectUpTo, Config.RefreshInterval;
    CollectAllStaysBack(p, s, |s.vaults|);
    SameStaysBack(p, CollectUpTo(s, |s.vaults|), DramTick(p, s));
  }

  lemma LogicCycleStaysBack(p: Params, s: Cube)
    requires s.Shaped() && BackOk(p, s)
    ensures BackOk(p, LogicCycle(p, s))
  {
    hide BackOk, DrainResponses, DrainRequests;
    ResponsesStayBack(p, s);
    RequestsStayBack(p, DrainResponses(p, s));
    SameStaysBack(p, DrainRequests(p, DrainResponses(p, s)), LogicCycle(p, s));
  }

  lemma {:induction false} LogicCyclesStayBack(p: Params, s: Cube, n: nat)
    requires s.Shaped() && BackOk(p, s)
    ensures BackOk(p, LogicCycles(p, s, n))
  {
    hide BackOk, LogicCycle;
    if n > 0 {
      LogicCyclesStayBack(p, s, n - 1);
      LogicCycleStaysBack(p, LogicCycles(p, s, n - 1));
    }
  }

  lemma FirstHalfStaysBack(p: Params, s: Cube)
    requires s.Shaped() && p.cfg.ranks > 0 && p.cfg.RefreshInterval() > 0 && BackOk(p, s)
    ensures BackOk(p, FirstHalf(p, s))
  {
    hide BackOk, DrainResponses, DrainRequests, DramTick, Config.RefreshInterval;
    if s.dramPs == s.logicPs {
      var t := DrainResponses(p, s);
      ResponsesStayBack(p, s);
      DramTickStaysBack(p, t);
      RequestsStayBack(p, DramTick(p, t));
      SameStaysBack(p, DrainRequests(p, DramTick(p, t)), FirstHalf(p, s));
    } else {
      DramTickStaysBack(p, s);
    }
  }

  lemma TickStaysBack(p: Params, s: Cube)
    requires s.Shaped() && p.psLogic > 0 && p.cfg.ranks > 0 && p.cfg.RefreshInterval() > 0 && BackOk(p, s)
    ensures BackOk(p, Tick(p, s))
  {
    hide BackOk, FirstHalf, LogicCycles, CyclesUntil, Config.RefreshInterval;
    var t := FirstHalf(p, s);
    FirstHalfStaysBack(p, s);
    var n := CyclesUntil(t.logicPs, p.psLogic, t.dramPs + p.psDram);
    LogicCyclesStayBack(p, t, n);
    SameStaysBack(p, LogicCycles(p, t, n), Tick(p, s));
  }

  lemma InsertStaysBack(p: Params, s: Cube, o: Offer)
    requires s.Shaped() && s.nextLink < |s.reqs.src| && BackOk(p, s)
    ensures BackOk(p, InsertRequest(p, s, o).1)
  {
    SameStaysBack(p, s, InsertRequest(p, s, o).1);
  }

  lemma InitialBack(p: Params)
    ensures BackOk(p, Initial(p))
  {
  }

  lemma {:induction false} RunBack(p: Params, ops: seq<Op>)
    requires p.Valid()
    ensures BackOk(p, After(p, ops))
    decreases |ops|
  {
    hide BackOk, CubeInv, Tick, InsertRequest, Params.Valid;
    if ops == [] {
      InitialBack(p);
    } else {
      var s, op := After(p, ops[..|ops| - 1]), ops[|ops| - 1];
      RunBack(p, ops[..|ops| - 1]);
      HmcOffers.SoundShape(p, s);
      match op
      case Submit(o) => InsertStaysBack(p, s, o);
      case Cycle => TickStaysBack(p, s);
    }
  }

  /** On every run the responses from each quad to each link reach the processor in the order in which the vaults
      let them go, unchanged but for the exit time; those not there yet are on the way, in order. */
  lemma ResponsesKeepOrder(p: Params, ops: seq<Op>, q: nat, l: nat)
    requires p.Valid() && q < 4 && l < p.links
    ensures var s := After(p, ops);
      && |s.resps.src| == 4 && |s.resps.dst| == p.links
      && Selected(s.finished, Back(q, l)) == Selected(s.answered, Back(q, l)) + InLane(s.resps, q, l, Back(q, l))
  {
    hide After, Selected, InLane, Back;
    RunBack(p, ops);
  }
}
