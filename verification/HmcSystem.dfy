/** The mutable HMC system, proved against the value model.  Vaults are controller values; module
    MemoryController shows that the mutable controller computes the same. */
module HmcSystem {
  import opened Types
  import opened Timing
  import opened Crossbar
  import opened Digits
  import opened Hmc
  import opened HmcRuns
  import opened Owed
  import Control
  import ControllerRuns

  class HMCMemorySystem {
    const p: Params
    var reqs: Xbar<Req>
    var resps: Xbar<Resp>
    var table: seq<Packet<Resp>>
    var vaults: seq<Control.State>
    var clk: nat
    var logicClk: nat
    var logicPs: nat
    var dramPs: nat
    var nextLink: nat
    ghost var taken: seq<Taken>
    ghost var entered: seq<Packet<Req>>
    ghost var enteredAt: seq<nat>
    ghost var submitted: seq<Packet<Resp>>
    ghost var finished: seq<Packet<Resp>>
    ghost var answered: seq<Packet<Resp>>

    /** No field stands for a failed look-up: every look-up below is checked to succeed. */
    ghost function View(): Cube
      reads this
    {
      Cube(reqs, resps, table, vaults, clk, logicClk, logicPs, dramPs, nextLink, false,
           taken, entered, enteredAt, submitted, finished, answered)
    }

    ghost predicate Valid()
      reads this
    {
      p.Valid() && CubeInv(p, View())
    }

    constructor (p: Params)
      requires p.Valid()
      ensures Valid() && this.p == p && View() == Hmc.Initial(p)
    {
      this.p := p;
      reqs, resps, table := EmptyXbar(p.links, 4), EmptyXbar(4, p.links), [];
      vaults := seq(p.vaults, _ => Control.Initial(p.cfg));
      clk, logicClk, logicPs, dramPs, nextLink := 0, 0, 0, 0, 0;
      taken, entered, enteredAt, submitted, finished, answered := [], [], [], [], [], [];
      new;
      InitialCube(p);
    }

    // ---- accepting requests

    method WillAcceptTransaction() returns (insertable: bool)
      ensures insertable <==> exists l :: 0 <= l < |reqs.src| && |reqs.src[l]| < p.depth
    {
      insertable := false;
      var l := 0;
      while l < |reqs.src|
        invariant 0 <= l <= |reqs.src| && !insertable
        invariant forall k :: 0 <= k < l ==> |reqs.src[k]| >= p.depth
      {
        if |reqs.src[l]| < p.depth {
          return true;
        }
        l := l + 1;
      }
    }

    method InsertReqToLink(o: Offer, link: nat) returns (ok: bool)
      requires View().Shaped() && link < |reqs.src|
      modifies this`reqs, this`table, this`taken, this`submitted
      ensures ok <==> |old(reqs.src)[link]| < p.depth
      ensures View() == if ok then PutOnLink(p, old(View()), o, link) else old(View())
    {
      if |reqs.src[link]| < p.depth {
        var src := reqs.src[link := reqs.src[link] + [RequestOf(p, o, link)]];
        reqs := reqs.(src := src, age := reqs.age[link := 1]);
        taken := taken + [Taken(o, link)];
        table := table + [ResponseOf(p, o, link)];
        submitted := submitted + [ResponseOf(p, o, link)];
        ok := true;
      } else {
        ok := false;
      }
    }

    method IterateNextLink()
      requires nextLink < |reqs.src|
      modifies this`nextLink
      ensures nextLink == Rotated(1 % |reqs.src|, |reqs.src|, old(nextLink)) < |reqs.src|
    {
      TurnIsModulo(nextLink, |reqs.src|);
      nextLink := (nextLink + 1) % |reqs.src|;
    }

    /** Try the link whose turn it is; either way the turn passes on. */
    method TryLink(o: Offer) returns (ok: bool)
      requires View().Shaped() && nextLink < |reqs.src|
      modifies this`reqs, this`table, this`taken, this`submitted, this`nextLink
      ensures var s := old(View()); var turn := Rotated(1 % |s.reqs.src|, |s.reqs.src|, s.nextLink);
        && (ok <==> |s.reqs.src[s.nextLink]| < p.depth)
        && View() == (if ok then PutOnLink(p, s, o, s.nextLink) else s).(nextLink := turn)
    {
      hide Rotated;
      ok := InsertReqToLink(o, nextLink);
      IterateNextLink();
    }

    /** Try the links in turn. */
    method PlaceInTurn(o: Offer) returns (ok: bool)
      requires View().Shaped() && nextLink < |reqs.src|
      modifies this`reqs, this`table, this`taken, this`submitted, this`nextLink
      ensures (ok, View()) == InsertRequest(p, old(View()), o)
    {
      hide PutOnLink, FreeAfter, Rotated;
      ghost var s := View();
      ghost var n := |reqs.src|;
      var start := nextLink;
      RotatedBy(start, n);
      ok := TryLink(o);
      FreeStep(s.reqs.src, p.depth, start, 0);
      if ok {
        return;
      }
      ghost var i := 1;
      TurnAdvances(start, n, 0);
      while start != nextLink
        invariant 1 <= i <= n && View() == s.(nextLink := nextLink) && nextLink < n
        invariant if i < n then nextLink == Rotated(start, n, i) != start else nextLink == start
        invariant FreeAfter(s.reqs.src, p.depth, start, 0) == FreeAfter(s.reqs.src, p.depth, start, i)
        decreases n - i
      {
        PutIgnoresTurn(p, s, o, nextLink);
        FreeStep(s.reqs.src, p.depth, start, i);
        TurnAdvances(start, n, i);
        ok := TryLink(o);
        if ok {
          return;
        }
        i := i + 1;
      }
      FreeNone(s.reqs.src, p.depth, start);
      ok := false;
    }

    /** The request goes to the first link with room, in turn; it is refused exactly when all are full. */
    method InsertHMCReq(o: Offer) returns (ok: bool)
      requires Valid()
      modifies this`reqs, this`table, this`taken, this`submitted, this`nextLink
      ensures Valid() && old(View()).Shaped() && old(nextLink) < |old(reqs.src)| == p.links
      ensures (ok, View()) == InsertRequest(p, old(View()), o)
      ensures ok <==> exists l :: 0 <= l < p.links && |old(reqs.src)[l]| < p.depth
    {
      hide Flows, ClocksOk, Params.Valid, InsertRequest;
      FlowsSizes(p, View());
      InsertKeepsInv(p, View(), o);
      ok := PlaceInTurn(o);
    }

    // ---- responses

    /** Hand the responses that have left the crossbar to the processor. */
    method AnswerLinks()
      requires View().Shaped()
      modifies this`resps, this`answered
      ensures View() == AnswerUpTo(old(View()), |old(resps.dst)|)
    {
      var i := 0;
      while i < |resps.dst|
        invariant View().Shaped() && |resps.dst| == |old(resps.dst)| && 0 <= i <= |resps.dst|
        invariant View() == AnswerUpTo(old(View()), i)
      {
        if resps.dst[i] != [] {
          var resp := resps.dst[i][0];
          if resp.exit <= logicClk {
            answered := answered + [resp];
            resps := resps.(dst := resps.dst[i := resps.dst[i][1..]]);
          }
        }
        i := i + 1;
      }
    }

    method DrainResponses()
      requires p.Valid() && Flows(p, View())
      modifies this`resps, this`answered
      ensures Flows(p, View()) && View() == Hmc.DrainResponses(p, old(View()))
    {
      hide Flows, Cross, Ok, IgnoresExit, AllGood, Params.Valid;
      ghost var s := View();
      FlowsSizes(p, s);
      ResponsesKeepFlows(p, s);
      AnswerAllKeepsFlows(p, s, p.links);
      AnswerLinks();
      GoodIgnoresExit(p);
      FlowsOk(p, View());
      resps := Transfer(resps, p.depth, logicClk, RespGood(p));
    }

    // ---- requests

    /** Let the front request of one quad enter its vault. */
    method EnterOne(quad: nat)
      requires p.Valid() && Flows(p, View()) && quad < 4
      modifies this`reqs, this`vaults, this`entered, this`enteredAt
      ensures Flows(p, View()) && old(View()).Shaped() && View() == EnterVault(p, old(View()), quad)
    {
      hide Flows, Control.AddTransaction, Control.WillAcceptTransaction, Params.Valid, ReqGood;
      ghost var t := View();
      FlowsSizes(p, t);
      EnterKeepsFlows(p, t, quad);
      if reqs.dst[quad] != [] && |resps.src[quad]| < p.depth {
        var r := reqs.dst[quad][0];
        FrontHasVault(p, t, quad);
        if r.exit <= logicClk && Control.WillAcceptTransaction(p.cfg, vaults[r.body.vault], r.body.isWrite) {
          vaults := vaults[r.body.vault := Control.AddTransaction(p.cfg, vaults[r.body.vault], r.body.addr, r.body.isWrite)];
          reqs := reqs.(dst := reqs.dst[quad := reqs.dst[quad][1..]]);
          entered := entered + [r];
          enteredAt := enteredAt + [logicClk];
        }
      }
    }

    method EnterVaults()
      requires p.Valid() && Flows(p, View())
      modifies this`reqs, this`vaults, this`entered, this`enteredAt
      ensures Flows(p, View()) && old(View()).Shaped() && View() == EnterUpTo(p, old(View()), 4)
    {
      hide Flows, EnterVault, Params.Valid;
      ghost var s := View();
      FlowsSizes(p, s);
      var i := 0;
      while i < 4
        invariant 0 <= i <= 4 && Flows(p, View()) && View() == EnterUpTo(p, s, i)
      {
        EnterOne(i);
        i := i + 1;
      }
    }

    method DrainRequests()
      requires p.Valid() && Flows(p, View())
      modifies this`reqs, this`vaults, this`entered, this`enteredAt
      ensures Flows(p, View()) && View() == Hmc.DrainRequests(p, old(View()))
    {
      hide Flows, Cross, Ok, IgnoresExit, AllGood, EnterUpTo, Params.Valid;
      ghost var s := View();
      FlowsSizes(p, s);
      RequestsKeepFlows(p, s);
      EnterVaults();
      GoodIgnoresExit(p);
      FlowsOk(p, View());
      FlowsSizes(p, View());
      reqs := Transfer(reqs, p.depth, logicClk, ReqGood(p));
    }

    // ---- the DRAM cycle

    /** The response awaited under `id` moves to its quad's queue; the look-up cannot fail. */
    method VaultCallback(id: nat)
      requires View().Shaped() && FindEntry(table, id, 0) < |table|
      requires table[FindEntry(table, id, 0)].body.quad < |resps.src|
      modifies this`table, this`resps, this`finished
      ensures View() == Hmc.VaultCallback(old(View()), id)
    {
      var i := 0;
      while table[i].body.id != id
        invariant 0 <= i < |table| && FindEntry(table, id, 0) == FindEntry(table, id, i)
        decreases |table| - i
      {
        i := i + 1;
      }
      var resp := table[i];
      table := table[..i] + table[i+1..];
      finished := finished + [resp];
      resps := resps.(src := resps.src[resp.body.quad := resps.src[resp.body.quad] + [resp]],
                      age := resps.age[resp.body.quad := 1]);
    }

    /** Collect everything vault `v` has finished. */
    method CollectFinished(v: nat)
      requires p.Valid() && Flows(p, View()) && v < p.vaults
      modifies this`table, this`resps, this`vaults, this`finished
      ensures Flows(p, View()) && v < |old(vaults)| && View() == CollectVault(old(View()), v)
    {
      hide Flows, Params.Valid, Control.ReturnDone, FindEntry;
      ghost var s := View();
      FlowsSizes(p, s);
      while true
        invariant Flows(p, View()) && |vaults| == |s.vaults| && View().Shaped()
        invariant CollectVault(View(), v) == CollectVault(s, v)
        decreases |vaults[v].ret|
      {
        var (done, vault) := Control.ReturnDone(vaults[v], clk);
        ReturnShortens(vaults[v], clk);
        if done.None? {
          return;
        }
        CallbackKeepsFlows(p, View(), v);
        LookupSucceeds(p, View(), v);
        vaults := vaults[v := vault];
        VaultCallback(done.value.addr);
      }
    }

    method TickEachVault()
      requires View().Shaped() && p.cfg.ranks > 0 && p.cfg.RefreshInterval() > 0
      modifies this`vaults
      ensures View() == TickVaults(p, old(View()))
    {
      hide Control.Tick, Config.RefreshInterval;
      ghost var before := vaults;
      var v := 0;
      while v < |vaults|
        invariant 0 <= v <= |vaults| == |before|
        invariant forall k :: 0 <= k < v ==> vaults[k] == Control.Tick(p.cfg, MakeTable(p.cfg), before[k])
        invariant forall k :: v <= k < |vaults| ==> vaults[k] == before[k]
      {
        vaults := vaults[v := Control.Tick(p.cfg, MakeTable(p.cfg), vaults[v])];
        v := v + 1;
      }
      assert vaults == TickVaults(p, old(View())).vaults;
    }

    method CollectEachVault()
      requires p.Valid() && Flows(p, View())
      modifies this`table, this`resps, this`vaults, this`finished
      ensures Flows(p, View()) && |old(vaults)| == p.vaults && View() == CollectUpTo(old(View()), p.vaults)
    {
      hide Flows, Params.Valid, CollectVault;
      ghost var s := View();
      FlowsSizes(p, s);
      var v := 0;
      while v < |vaults|
        invariant 0 <= v <= |vaults| == |s.vaults| == p.vaults && Flows(p, View()) && View() == CollectUpTo(s, v)
      {
        CollectFinished(v);
        v := v + 1;
      }
    }

    method DRAMClockTick()
      requires p.Valid() && Flows(p, View())
      modifies this`table, this`resps, this`vaults, this`finished, this`clk
      ensures Flows(p, View()) && p.cfg.ranks > 0 && p.cfg.RefreshInterval() > 0
      ensures old(View()).Shaped() && View() == DramTick(p, old(View()))
    {
      hide Flows, Params.Valid, CollectUpTo, TickVaults, Config.RefreshInterval;
      FlowsSizes(p, View());
      SoundMeansValid(p);
      DramTickKeepsFlows(p, View());
      CollectEachVault();
      TickEachVault();
      clk := clk + 1;
    }

    // ---- one tick

    /** One DRAM cycle, inside a logic cycle when both domains meet. */
    method DramCycle()
      requires p.Valid() && Flows(p, View())
      modifies this`reqs, this`resps, this`table, this`vaults, this`finished, this`clk, this`logicClk, this`logicPs, this`entered, this`enteredAt, this`answered
      ensures Flows(p, View()) && p.cfg.ranks > 0 && p.cfg.RefreshInterval() > 0
      ensures old(View()).Shaped() && View() == FirstHalf(p, old(View()))
    {
      hide Flows, Hmc.DrainResponses, Hmc.DrainRequests, DramTick, Config.RefreshInterval, Params.Valid;
      ghost var s := View();
      SoundMeansValid(p);
      FlowsSizes(p, s);
      FirstHalfKeepsFlows(p, s);
      if dramPs == logicPs {
        DrainResponses();
        DRAMClockTick();
        DrainRequests();
        logicPs := logicPs + p.psLogic;
        logicClk := logicClk + 1;
      } else {
        DRAMClockTick();
      }
    }

    /** Logic cycles up to the next DRAM cycle; the loop ends because the logic period is positive. */
    method CatchUp()
      requires p.Valid() && Flows(p, View()) && p.psLogic > 0
      modifies this`reqs, this`resps, this`table, this`vaults, this`finished, this`logicClk, this`logicPs, this`entered, this`enteredAt, this`answered
      ensures Flows(p, View()) && old(View()).Shaped()
      ensures View() == LogicCycles(p, old(View()), CyclesUntil(old(logicPs), p.psLogic, dramPs + p.psDram))
    {
      hide Flows, Params.Valid, LogicCycle;
      ghost var t := View();
      FlowsSizes(p, t);
      ghost var n := 0;
      while logicPs < dramPs + p.psDram
        invariant Flows(p, View()) && View() == LogicCycles(p, t, n) && dramPs == t.dramPs
        invariant n + CyclesUntil(logicPs, p.psLogic, dramPs + p.psDram)
               == CyclesUntil(t.logicPs, p.psLogic, dramPs + p.psDram)
        decreases dramPs + p.psDram - logicPs
      {
        RunLogicCycle();
        n := n + 1;
      }
    }

    method RunLogicCycle()
      requires p.Valid() && Flows(p, View())
      modifies this`reqs, this`resps, this`table, this`vaults, this`finished, this`logicClk, this`logicPs, this`entered, this`enteredAt, this`answered
      ensures Flows(p, View()) && old(View()).Shaped() && View() == LogicCycle(p, old(View()))
      ensures logicPs == old(logicPs) + p.psLogic
    {
      hide Flows, Hmc.DrainResponses, Hmc.DrainRequests, Params.Valid;
      FlowsSizes(p, View());
      LogicCycleKeepsFlows(p, View());
      DrainResponses();
      DrainRequests();
      logicPs := logicPs + p.psLogic;
      logicClk := logicClk + 1;
    }

    method ClockTick()
      requires Valid()
      modifies this`reqs, this`resps, this`table, this`vaults, this`finished, this`clk, this`logicClk, this`logicPs, this`dramPs, this`entered, this`enteredAt, this`answered
      ensures Valid() && p.cfg.ranks > 0 && p.cfg.RefreshInterval() > 0
      ensures old(View()).Shaped() && View() == Tick(p, old(View()))
    {
      hide Flows, LogicCycles, FirstHalf, ClocksOk, CyclesUntil, Config.RefreshInterval, ControllerRuns.Sound;
      ghost var s := View();
      TickKeepsCube(p, s);
      FirstHalfKeepsFlows(p, s);
      DramCycle();
      CatchUp();
      dramPs := dramPs + p.psDram;
    }
  }

  // ---- facts used by the methods

  lemma TurnIsModulo(link: nat, n: nat)
    requires link < n
    ensures Rotated(1 % n, n, link) == (link + 1) % n
  {
    if n > 1 {
      DivModIs(1, 0, 1, n);
      RotatedIsModulo(1, n, link);
    } else {
      assert link == 0 && n == 1;
    }
  }

  lemma RotatedBy(start: nat, n: nat)
    requires start < n
    ensures Rotated(start, n, 0) == start
  {
  }

  /** Turning to the next link is one more step of the scan. */
  lemma TurnAdvances(start: nat, n: nat, i: nat)
    requires start < n && i < n
    ensures var next := Rotated(1 % n, n, Rotated(start, n, i));
      if i + 1 < n then next == Rotated(start, n, i + 1) != start else next == start
  {
    if n > 1 {
      DivModIs(1, 0, 1, n);
    }
  }

  lemma FreeStep<B>(src: seq<seq<Packet<B>>>, depth: nat, start: nat, i: nat)
    requires start < |src| && i < |src|
    ensures FreeAfter(src, depth, start, i)
         == if |src[Rotated(start, |src|, i)]| < depth then i else FreeAfter(src, depth, start, i + 1)
  {
  }

  lemma FreeNone<B>(src: seq<seq<Packet<B>>>, depth: nat, start: nat)
    requires start < |src|
    ensures FreeAfter(src, depth, start, |src|) == |src|
  {
  }

  lemma PutIgnoresTurn(p: Params, s: Cube, o: Offer, link: nat)
    requires s.Shaped() && link < |s.reqs.src|
    ensures forall t, u :: PutOnLink(p, s.(nextLink := t), o, link).(nextLink := u)
                        == PutOnLink(p, s, o, link).(nextLink := u)
  {
  }

  lemma FrontHasVault(p: Params, s: Cube, quad: nat)
    requires Flows(p, s) && quad < |s.reqs.dst| && s.reqs.dst[quad] != []
    ensures s.reqs.dst[quad][0].body.vault < |s.vaults|
  {
    assert AllGood(s.reqs.dst[quad], ReqGood(p), 4);
    assert ReqGood(p)(s.reqs.dst[quad][0]);
  }

  /** A vault only returns addresses that are awaited. */
  lemma LookupSucceeds(p: Params, s: Cube, v: nat)
    requires p.Valid() && Flows(p, s) && v < |s.vaults| && Control.ReturnDone(s.vaults[v], s.clk).0.Some?
    ensures var i := FindEntry(s.table, Control.ReturnDone(s.vaults[v], s.clk).0.value.addr, 0);
      i < |s.table| && s.table[i].body.quad < |s.resps.src|
  {
    hide Ok, VaultsOk, Answering, Total, Control.ReturnDone, Outstanding, Keys, FindEntry, OutstandingAll;
    var (done, w) := Control.ReturnDone(s.vaults[v], s.clk);
    var a := done.value.addr;
    ReturnShrinksOutstanding(s.vaults[v], s.clk, AddrOf);
    OutstandingUpdate(s.vaults, v, w, AddrOf);
    Moved(OutstandingAll(s.vaults[v := w], AddrOf), OutstandingAll(s.vaults, AddrOf), Outstanding(w, AddrOf), multiset{a});
    assert a in Keys(s.table, RespId);
    KeyPresent(s.table, a);
    var i := FindEntry(s.table, a, 0);
    assert RespGood(p)(s.table[i]);
  }
}
