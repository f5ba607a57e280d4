/** What becomes of each request of the HMC system: it keeps its kind, its size and its place in line from the
    processor to its vault, and the response promised for it is the one it asked for. */
module HmcOffers {
  import opened Types
  import opened Timing
  import opened Crossbar
  import opened Lanes
  import opened Hmc
  import opened HmcRuns
  import Control
  import RunTheorems

  // ---- requests

  /** What a request asks of its vault, and its size. */
  datatype Asked = Asked(addr: nat, isWrite: bool, flits: nat)

  /** The requests taken on link `l` for quad `q`. */
  function TakenOn(p: Params, l: nat, q: nat): Taken -> Option<Asked> {
    (t: Taken) => if t.link == l && p.vaultOf(t.offer.addr) % 4 == q
                  then Some(Asked(t.offer.addr, t.offer.isWrite, t.offer.flits)) else None
  }

  /** The packets from link `l` to quad `q`. */
  function Lane(l: nat, q: nat): Packet<Req> -> Option<Asked> {
    (r: Packet<Req>) => if r.body.link == l && r.dest == q then Some(Asked(r.body.addr, r.body.isWrite, r.flits)) else None
  }

  /** The requests for vault `v`, as the vault gets them. */
  function ForVault(v: nat): Packet<Req> -> Option<(nat, bool)> {
    (r: Packet<Req>) => if r.body.vault == v then Some((r.body.addr, r.body.isWrite)) else None
  }

  function Received(q: seq<Transaction>): seq<(nat, bool)> {
    seq(|q|, i requires 0 <= i < |q| => (q[i].addr, q[i].isWrite))
  }

  /** The packet goes to the quad of the vault of its address. */
  predicate Routed(p: Params, r: Packet<Req>) {
    r.body.vault == p.vaultOf(r.body.addr) && r.dest == r.body.vault % 4
  }

  predicate SourcesOwn(p: Params, src: seq<seq<Packet<Req>>>) {
    forall l, i :: 0 <= l < |src| && 0 <= i < |src[l]| ==> Routed(p, src[l][i]) && src[l][i].body.link == l
  }

  predicate QuadsOwn(p: Params, dst: seq<seq<Packet<Req>>>) {
    forall q, i :: 0 <= q < |dst| && 0 <= i < |dst[q]| ==> Routed(p, dst[q][i]) && dst[q][i].dest == q
  }

  /** Between each link and each quad requests stay in the order they were taken, with kind and size. */
  predicate LanesOk(p: Params, s: Cube) {
    && |s.reqs.src| == p.links && |s.reqs.dst| == 4
    && forall l, q :: 0 <= l < p.links && 0 <= q < 4 ==>
         Selected(s.taken, TakenOn(p, l, q)) == Selected(s.entered, Lane(l, q)) + InLane(s.reqs, l, q, Lane(l, q))
  }

  /** Each vault has accepted the requests that entered it, in order. */
  predicate VaultsReceived(p: Params, s: Cube) {
    && |s.vaults| == p.vaults
    && forall v :: 0 <= v < p.vaults ==> Received(s.vaults[v].accepted) == Selected(s.entered, ForVault(v))
  }

  /** Address and kind, as the processor gives them and as requests and transactions carry them. */
  function TakenAccess(t: Taken): (nat, bool) { (t.offer.addr, t.offer.isWrite) }
  function ReqAccess(r: Packet<Req>): (nat, bool) { (r.body.addr, r.body.isWrite) }

  function TakenSeq(taken: seq<Taken>): seq<(nat, bool)> {
    seq(|taken|, i requires 0 <= i < |taken| => TakenAccess(taken[i]))
  }

  function TakenBag(taken: seq<Taken>): multiset<(nat, bool)> {
    multiset(TakenSeq(taken))
  }

  function ReceivedAll(vaults: seq<Control.State>): multiset<(nat, bool)> {
    if vaults == [] then multiset{} else multiset(Received(vaults[0].accepted)) + ReceivedAll(vaults[1..])
  }

  /** The requests taken are those on links and in quads and those the vaults have accepted. */
  predicate NoneChanged(s: Cube) {
    TakenBag(s.taken) == Load(s.reqs, ReqAccess) + ReceivedAll(s.vaults)
  }

  /** The response promised for a request: its address, its callback, its size, its link and its quad. */
  predicate Promises(p: Params, r: Packet<Resp>, t: Taken) {
    && r.body.id == t.offer.addr && r.body.isRead == t.offer.readBack && r.flits == t.offer.respFlits
    && r.dest == t.link && r.body.quad == p.vaultOf(t.offer.addr) % 4
  }

  predicate AllPromised(p: Params, s: Cube) {
    |s.submitted| == |s.taken| && forall i :: 0 <= i < |s.taken| ==> Promises(p, s.submitted[i], s.taken[i])
  }

  predicate Offered(p: Params, s: Cube) {
    && SourcesOwn(p, s.reqs.src) && QuadsOwn(p, s.reqs.dst)
    && LanesOk(p, s) && VaultsReceived(p, s) && NoneChanged(s) && AllPromised(p, s)
  }

  // ---- what leaves all this alone

  predicate SameRequests(s: Cube, t: Cube) {
    && t.reqs == s.reqs && t.taken == s.taken && t.entered == s.entered && t.submitted == s.submitted
    && |t.vaults| == |s.vaults| && forall v :: 0 <= v < |s.vaults| ==> t.vaults[v].accepted == s.vaults[v].accepted
  }

  lemma {:induction false} SameReceived(vs: seq<Control.State>, ws: seq<Control.State>)
    requires |vs| == |ws| && forall v :: 0 <= v < |vs| ==> vs[v].accepted == ws[v].accepted
    ensures ReceivedAll(vs) == ReceivedAll(ws)
  {
    if vs != [] {
      SameReceived(vs[1..], ws[1..]);
    }
  }

  lemma SameStaysOffered(p: Params, s: Cube, t: Cube)
    requires Offered(p, s) && SameRequests(s, t)
    ensures Offered(p, t)
  {
    hide SourcesOwn, QuadsOwn, InLane, Selected, Load, Promises, Received, TakenBag;
    SameReceived(s.vaults, t.vaults);
    hide ReceivedAll;
  }

  // ---- taking a request

  lemma PutKeepsOwn(p: Params, s: Cube, o: Offer, link: nat)
    requires s.Shaped() && link < |s.reqs.src| && SourcesOwn(p, s.reqs.src)
    ensures SourcesOwn(p, PutOnLink(p, s, o, link).reqs.src)
  {
  }

  lemma PutKeepsLanes(p: Params, s: Cube, o: Offer, link: nat)
    requires s.Shaped() && link < |s.reqs.src| && LanesOk(p, s)
    ensures LanesOk(p, PutOnLink(p, s, o, link))
  {
    hide Selected, Lane, TakenOn;
    var t, r := PutOnLink(p, s, o, link), RequestOf(p, o, link);
    forall l, q | 0 <= l < p.links && 0 <= q < 4
      ensures Selected(t.taken, TakenOn(p, l, q)) == Selected(t.entered, Lane(l, q)) + InLane(t.reqs, l, q, Lane(l, q))
    {
      SelectedPush(s.taken, Taken(o, link), TakenOn(p, l, q));
      SelectedPush(s.reqs.src[link], r, Lane(l, q));
      SameLane(p, o, link, l, q);
    }
  }

  lemma SameLane(p: Params, o: Offer, link: nat, l: nat, q: nat)
    ensures TakenOn(p, l, q)(Taken(o, link)) == Lane(l, q)(RequestOf(p, o, link))
    ensures Lane(l, q)(RequestOf(p, o, link)).Some? ==> l == link
  {
  }

  lemma PutKeepsBag(p: Params, s: Cube, o: Offer, link: nat)
    requires s.Shaped() && link < |s.reqs.src| && NoneChanged(s)
    ensures NoneChanged(PutOnLink(p, s, o, link))
  {
    hide Total, ReceivedAll;
    var r := RequestOf(p, o, link);
    TotalPush(s.reqs.src, link, r, ReqAccess);
    assert TakenSeq(s.taken + [Taken(o, link)]) == TakenSeq(s.taken) + [(o.addr, o.isWrite)];
  }

  lemma PutStaysOffered(p: Params, s: Cube, o: Offer, link: nat)
    requires s.Shaped() && link < |s.reqs.src| && Offered(p, s)
    ensures Offered(p, PutOnLink(p, s, o, link))
  {
    PutKeepsOwn(p, s, o, link);
    PutKeepsLanes(p, s, o, link);
    PutKeepsBag(p, s, o, link);
    hide SourcesOwn, QuadsOwn, LanesOk, NoneChanged;
  }

  // ---- crossing

  lemma LaneIgnoresExit(r: Packet<Req>, exit: nat, l: nat, q: nat)
    ensures Lane(l, q)(r.(exit := exit)) == Lane(l, q)(r)
    ensures Lane(l, q)(r).Some? <==> r.body.link == l && r.dest == q
  {
  }

  lemma CrossOneKeepsOwn(p: Params, x: Xbar<Req>, s: nat, depth: nat, clk: nat)
    requires |x.age| == |x.src| && |x.busy| == |x.dst| && SourcesOwn(p, x.src) && QuadsOwn(p, x.dst)
    ensures SourcesOwn(p, CrossOne(x, s, depth, clk).src) && QuadsOwn(p, CrossOne(x, s, depth, clk).dst)
  {
  }

  lemma {:induction false} CrossAllKeepsOwn(p: Params, x: Xbar<Req>, order: seq<nat>, depth: nat, clk: nat)
    requires |x.age| == |x.src| && |x.busy| == |x.dst| && SourcesOwn(p, x.src) && QuadsOwn(p, x.dst)
    ensures var y := CrossAll(x, order, depth, clk); SourcesOwn(p, y.src) && QuadsOwn(p, y.dst)
    decreases |order|
  {
    hide CrossOne, SourcesOwn, QuadsOwn;
    if order != [] {
      CrossOneKeepsOwn(p, x, order[0], depth, clk);
      CrossAllKeepsOwn(p, CrossOne(x, order[0], depth, clk), order[1..], depth, clk);
    }
  }

  lemma CrossKeepsLanes(p: Params, x: Xbar<Req>, depth: nat, clk: nat)
    requires |x.age| == |x.src| && |x.busy| == |x.dst| && SourcesOwn(p, x.src)
    ensures forall l, q :: 0 <= l < |x.src| && 0 <= q < |x.dst| ==>
      InLane(Cross(x, depth, clk), l, q, Lane(l, q)) == InLane(x, l, q, Lane(l, q))
  {
    hide Cross, InLane;
    var from := (b: Req) => b.link;
    assert FromOwn(x.src, from);
    forall l, q | 0 <= l < |x.src| && 0 <= q < |x.dst|
      ensures InLane(Cross(x, depth, clk), l, q, Lane(l, q)) == InLane(x, l, q, Lane(l, q))
    {
      CrossKeepsLane(x, depth, clk, l, q, Lane(l, q), from);
    }
  }

  lemma AccessIsStable()
    ensures Stable(ReqAccess)
  {
  }

  lemma CrossStaysOffered(p: Params, s: Cube, depth: nat)
    requires s.Shaped() && Offered(p, s)
    ensures Offered(p, s.(reqs := Cross(s.reqs, depth, s.logicClk)))
  {
    hide SourcesOwn, QuadsOwn, Selected, Load, Promises, Received, TakenBag, ReceivedAll, CrossAll, Stable, InLane;
    var cooled := s.reqs.(busy := Cooled(s.reqs.busy));
    CrossAllKeepsOwn(p, cooled, AgeQueue(s.reqs.age, s.logicClk), depth, s.logicClk);
    CrossKeepsLanes(p, s.reqs, depth, s.logicClk);
    AccessIsStable();
    CrossKeepsLoad(s.reqs, depth, s.logicClk, ReqAccess);
  }

  // ---- entering a vault

  lemma {:induction false} ReceivedUpdate(vs: seq<Control.State>, i: nat, v: Control.State, a: (nat, bool))
    requires i < |vs| && Received(v.accepted) == Received(vs[i].accepted) + [a]
    ensures ReceivedAll(vs[i := v]) == ReceivedAll(vs) + multiset{a}
  {
    hide Received;
    if i == 0 {
      assert vs[i := v][1..] == vs[1..];
    } else {
      ReceivedUpdate(vs[1..], i - 1, v, a);
      assert vs[i := v][1..] == vs[1..][i-1 := v] && vs[i := v][0] == vs[0];
    }
  }

  /** The front request of quad `quad` is in its vault. */
  predicate Entered(p: Params, s: Cube, t: Cube, quad: nat, r: Packet<Req>)
    requires quad < |s.reqs.dst| && s.reqs.dst[quad] != []
  {
    && r == s.reqs.dst[quad][0] && r.body.vault < |s.vaults|
    && |t.vaults| == |s.vaults| && t.reqs == s.reqs.(dst := Pop(s.reqs.dst, quad))
    && Received(t.vaults[r.body.vault].accepted) == Received(s.vaults[r.body.vault].accepted) + [(r.body.addr, r.body.isWrite)]
    && (forall v :: 0 <= v < |s.vaults| && v != r.body.vault ==> t.vaults[v] == s.vaults[v])
    && t.vaults == s.vaults[r.body.vault := t.vaults[r.body.vault]]
    && t == s.(reqs := t.reqs, vaults := t.vaults, entered := s.entered + [r], enteredAt := s.enteredAt + [s.logicClk])
  }

  lemma AddReceived(cfg: Config, c: Control.State, addr: nat, isWrite: bool)
    ensures Received(Control.AddTransaction(cfg, c, addr, isWrite).accepted) == Received(c.accepted) + [(addr, isWrite)]
  {
  }

  lemma EnterShape(p: Params, s: Cube, quad: nat)
    requires s.Shaped()
    ensures var t := EnterVault(p, s, quad);
      || SameRequests(s, t)
      || (quad < |s.reqs.dst| && s.reqs.dst[quad] != [] && Entered(p, s, t, quad, s.reqs.dst[quad][0]))
  {
    hide Control.AddTransaction, Control.WillAcceptTransaction, Received;
    if quad < |s.reqs.dst| && s.reqs.dst[quad] != [] {
      var r := s.reqs.dst[quad][0];
      if r.body.vault < |s.vaults| {
        AddReceived(p.cfg, s.vaults[r.body.vault], r.body.addr, r.body.isWrite);
      }
    }
  }

  lemma EnteredKeepsLanes(p: Params, s: Cube, t: Cube, quad: nat, r: Packet<Req>)
    requires quad < |s.reqs.dst| && s.reqs.dst[quad] != [] && Entered(p, s, t, quad, r)
    requires QuadsOwn(p, s.reqs.dst) && LanesOk(p, s)
    ensures QuadsOwn(p, t.reqs.dst) && LanesOk(p, t)
  {
    hide Selected, Lane, TakenOn, Received;
    forall l, q | 0 <= l < p.links && 0 <= q < 4
      ensures Selected(t.taken, TakenOn(p, l, q)) == Selected(t.entered, Lane(l, q)) + InLane(t.reqs, l, q, Lane(l, q))
    {
      SelectedPush(s.entered, r, Lane(l, q));
      SelectedPop(s.reqs.dst[quad], Lane(l, q));
      LaneIgnoresExit(r, 0, l, q);
    }
  }

  lemma EnteredKeepsVaults(p: Params, s: Cube, t: Cube, quad: nat, r: Packet<Req>)
    requires quad < |s.reqs.dst| && s.reqs.dst[quad] != [] && Entered(p, s, t, quad, r)
    requires VaultsReceived(p, s) && NoneChanged(s)
    ensures VaultsReceived(p, t) && NoneChanged(t)
  {
    hide Selected, Received, ReceivedAll, TakenBag, Total;
    var a := (r.body.addr, r.body.isWrite);
    forall v | 0 <= v < p.vaults ensures Received(t.vaults[v].accepted) == Selected(t.entered, ForVault(v)) {
      SelectedPush(s.entered, r, ForVault(v));
    }
    ReceivedUpdate(s.vaults, r.body.vault, t.vaults[r.body.vault], a);
    TotalPop(s.reqs.dst, quad, ReqAccess);
  }

  lemma EnterStaysOffered(p: Params, s: Cube, quad: nat)
    requires s.Shaped() && Offered(p, s)
    ensures Offered(p, EnterVault(p, s, quad))
  {
    hide Offered, EnterVault, Entered, SameRequests;
    EnterShape(p, s, quad);
    var t := EnterVault(p, s, quad);
    if SameRequests(s, t) {
      SameStaysOffered(p, s, t);
    } else {
      EnteredStaysOffered(p, s, t, quad, s.reqs.dst[quad][0]);
    }
  }

  lemma EnteredStaysOffered(p: Params, s: Cube, t: Cube, quad: nat, r: Packet<Req>)
    requires quad < |s.reqs.dst| && s.reqs.dst[quad] != [] && Entered(p, s, t, quad, r) && Offered(p, s)
    ensures Offered(p, t)
  {
    EnteredKeepsLanes(p, s, t, quad, r);
    EnteredKeepsVaults(p, s, t, quad, r);
    hide QuadsOwn, SourcesOwn, LanesOk, VaultsReceived, NoneChanged, Promises, Received;
  }

  // ---- one tick

  lemma {:induction false} EnterAllStaysOffered(p: Params, s: Cube, n: nat)
    requires s.Shaped() && Offered(p, s)
    ensures Offered(p, EnterUpTo(p, s, n))
  {
    hide Offered, EnterVault;
    if n > 0 {
      EnterAllStaysOffered(p, s, n - 1);
      EnterStaysOffered(p, EnterUpTo(p, s, n - 1), n - 1);
    }
  }

  lemma RequestsStayOffered(p: Params, s: Cube)
    requires s.Shaped() && Offered(p, s)
    ensures Offered(p, DrainRequests(p, s))
  {
    hide Offered, Cross;
    EnterAllStaysOffered(p, s, 4);
    CrossStaysOffered(p, EnterUpTo(p, s, 4), p.depth);
  }

  lemma {:induction false} AnswersLeaveRequests(s: Cube, n: nat)
    requires s.Shaped() && n <= |s.resps.dst|
    ensures SameRequests(s, AnswerUpTo(s, n))
  {
    if n > 0 {
      AnswersLeaveRequests(s, n - 1);
    }
  }

  lemma ResponsesStayOffered(p: Params, s: Cube)
    requires s.Shaped() && Offered(p, s)
    ensures Offered(p, DrainResponses(p, s))
  {
    hide Offered, AnswerUpTo, Cross;
    AnswersLeaveRequests(s, |s.resps.dst|);
    SameStaysOffered(p, s, DrainResponses(p, s));
  }

  lemma CallbackLeavesRequests(s: Cube, id: nat)
    requires s.Shaped()
    ensures SameRequests(s, VaultCallback(s, id))
  {
  }

  lemma ReturnLeavesAccepted(c: Control.State, clk: nat)
    ensures Control.ReturnDone(c, clk).1.accepted == c.accepted
  {
  }

  lemma {:induction false} CollectLeavesRequests(s: Cube, v: nat)
    requires s.Shaped() && v < |s.vaults|
    ensures SameRequests(s, CollectVault(s, v))
    decreases |s.vaults[v].ret|
  {
    hide VaultCallback;
    var (done, vault) := Control.ReturnDone(s.vaults[v], s.clk);
    if done.Some? {
      ReturnLeavesAccepted(s.vaults[v], s.clk);
      var t := s.(vaults := s.vaults[v := vault]);
      CallbackLeavesRequests(t, done.value.addr);
      CollectLeavesRequests(VaultCallback(t, done.value.addr), v);
    }
  }

  lemma {:induction false} CollectAllLeavesRequests(s: Cube, n: nat)
    requires s.Shaped() && n <= |s.vaults|
    ensures SameRequests(s, CollectUpTo(s, n))
  {
    hide CollectVault;
    if n > 0 {
      CollectAllLeavesRequests(s, n - 1);
      CollectLeavesRequests(CollectUpTo(s, n - 1), n - 1);
    }
  }

  lemma DramTickStaysOffered(p: Params, s: Cube)
    requires s.Shaped() && p.cfg.ranks > 0 && p.cfg.RefreshInterval() > 0 && Offered(p, s)
    ensures Offered(p, DramTick(p, s))
  {
    hide Offered, Control.Tick, CollectUpTo, Config.RefreshInterval;
    CollectAllLeavesRequests(s, |s.vaults|);
    var t := CollectUpTo(s, |s.vaults|);
    forall v | 0 <= v < |t.vaults| ensures Control.Tick(p.cfg, MakeTable(p.cfg), t.vaults[v]).accepted == t.vaults[v].accepted {
      RunTheorems.TickFollowsPlan(p.cfg, MakeTable(p.cfg), t.vaults[v]);
    }
    SameStaysOffered(p, s, DramTick(p, s));
  }

  lemma ClockStaysOffered(p: Params, s: Cube, t: Cube)
    requires Offered(p, s) && t == s.(clk := t.clk, logicClk := t.logicClk, logicPs := t.logicPs, dramPs := t.dramPs)
    ensures Offered(p, t)
  {
    hide Offered;
    SameStaysOffered(p, s, t);
  }

  lemma {:induction false} LogicStaysOffered(p: Params, s: Cube, n: nat)
    requires s.Shaped() && Offered(p, s)
    ensures Offered(p, LogicCycles(p, s, n))
  {
    hide Offered, DrainResponses, DrainRequests;
    if n > 0 {
      LogicStaysOffered(p, s, n - 1);
      LogicCycleStaysOffered(p, LogicCycles(p, s, n - 1));
    }
  }

  lemma LogicCycleStaysOffered(p: Params, s: Cube)
    requires s.Shaped() && Offered(p, s)
    ensures Offered(p, LogicCycle(p, s))
  {
    hide Offered, DrainResponses, DrainRequests;
    ResponsesStayOffered(p, s);
    RequestsStayOffered(p, DrainResponses(p, s));
    ClockStaysOffered(p, DrainRequests(p, DrainResponses(p, s)), LogicCycle(p, s));
  }

  lemma FirstHalfStaysOffered(p: Params, s: Cube)
    requires s.Shaped() && p.cfg.ranks > 0 && p.cfg.RefreshInterval() > 0 && Offered(p, s)
    ensures Offered(p, FirstHalf(p, s))
  {
    hide Offered, DrainResponses, DrainRequests, DramTick, Config.RefreshInterval;
    if s.dramPs == s.logicPs {
      var t := DrainResponses(p, s);
      ResponsesStayOffered(p, s);
      DramTickStaysOffered(p, t);
      RequestsStayOffered(p, DramTick(p, t));
      ClockStaysOffered(p, DrainRequests(p, DramTick(p, t)), FirstHalf(p, s));
    } else {
      DramTickStaysOffered(p, s);
    }
  }

  lemma TickStaysOffered(p: Params, s: Cube)
    requires s.Shaped() && p.psLogic > 0 && p.cfg.ranks > 0 && p.cfg.RefreshInterval() > 0 && Offered(p, s)
    ensures Offered(p, Tick(p, s))
  {
    hide Offered, FirstHalf, LogicCycles, CyclesUntil, Config.RefreshInterval;
    var t := FirstHalf(p, s);
    FirstHalfStaysOffered(p, s);
    var n := CyclesUntil(t.logicPs, p.psLogic, t.dramPs + p.psDram);
    LogicStaysOffered(p, t, n);
    ClockStaysOffered(p, LogicCycles(p, t, n), Tick(p, s));
  }

  // ---- which link takes a request

  /** The link `j` places after `start` in the circle of `n` links. */
  function Around(start: nat, n: nat, j: nat): nat
    requires n > 0
  {
    (j + start) % n
  }

  /** Link `link` is the first with room when the links are tried in a circle from `start`. */
  predicate FirstFree<B>(src: seq<seq<Packet<B>>>, depth: nat, start: nat, i: nat, link: nat) {
    && i < |src| && link == Around(start, |src|, i) < |src| && |src[link]| < depth
    && forall j :: 0 <= j < i ==> Around(start, |src|, j) < |src| && |src[Around(start, |src|, j)]| >= depth
  }

  /** The request, and nothing else, is last on the link, with its response promised and its link awake. */
  ghost predicate PutOn(p: Params, s: Cube, t: Cube, o: Offer, link: nat) {
    && link < |s.reqs.src| == |t.reqs.src| && |s.reqs.age| == |t.reqs.age| == |s.reqs.src|
    && t.taken == s.taken + [Taken(o, link)]
    && (exists r: Packet<Req> ::
          && t.reqs.src[link] == s.reqs.src[link] + [r]
          && r.body.addr == o.addr && r.body.isWrite == o.isWrite && r.flits == o.flits
          && Routed(p, r) && r.body.link == link)
    && (exists r: Packet<Resp> ::
          Promises(p, r, Taken(o, link)) && t.table == s.table + [r] && t.submitted == s.submitted + [r])
    && (forall l :: 0 <= l < |s.reqs.src| && l != link ==>
          t.reqs.src[l] == s.reqs.src[l] && t.reqs.age[l] == s.reqs.age[l])
    && t.reqs.age[link] == 1 && t.nextLink == (link + 1) % |s.reqs.src|
    && t == s.(reqs := s.reqs.(src := t.reqs.src, age := t.reqs.age), table := t.table, taken := t.taken,
               submitted := t.submitted, nextLink := t.nextLink)
  }

  /** Only a request that finds every link full is refused; it goes to the first link with room. */
  lemma InsertMeaning(p: Params, s: Cube, o: Offer) returns (i: nat, link: nat)
    requires s.Shaped() && s.nextLink < |s.reqs.src|
    ensures var (ok, t) := InsertRequest(p, s, o);
      if ok then FirstFree(s.reqs.src, p.depth, s.nextLink, i, link) && PutOn(p, s, t, o, link)
      else t == s && forall l :: 0 <= l < |s.reqs.src| ==> |s.reqs.src[l]| >= p.depth
  {
    hide PutOnLink, PutOn, Rotated, FreeAfter, Around, FirstFree;
    var n := |s.reqs.src|;
    i := FreeAfter(s.reqs.src, p.depth, s.nextLink, 0);
    link := if i < n then Rotated(s.nextLink, n, i) else 0;
    if i < n {
      FreeIsFirst(s.reqs.src, p.depth, s.nextLink, i);
      NextInTurn(link, n);
      PutShape(p, s, o, link);
    } else {
      forall l | 0 <= l < n ensures |s.reqs.src[l]| >= p.depth {
        assert Rotated(s.nextLink, n, VisitOf(s.nextLink, n, l)) == l;
      }
    }
  }

  lemma FreeIsFirst<B>(src: seq<seq<Packet<B>>>, depth: nat, start: nat, i: nat)
    requires start < |src| && i == FreeAfter(src, depth, start, 0) < |src|
    ensures FirstFree(src, depth, start, i, Rotated(start, |src|, i))
  {
    hide FreeAfter, Rotated;
    RotatedIsModulo(start, |src|, i);
    forall j | 0 <= j < i ensures Around(start, |src|, j) < |src| && |src[Around(start, |src|, j)]| >= depth {
      RotatedIsModulo(start, |src|, j);
    }
  }

  lemma NextInTurn(link: nat, n: nat)
    requires link < n
    ensures Rotated(1 % n, n, link) == (link + 1) % n
  {
    if n > 1 {
      assert 1 % n == 1;
    }
  }

  lemma PutShape(p: Params, s: Cube, o: Offer, link: nat)
    requires s.Shaped() && link < |s.reqs.src|
    ensures PutOn(p, s, PutOnLink(p, s, o, link).(nextLink := (link + 1) % |s.reqs.src|), o, link)
  {
    var req, resp := RequestOf(p, o, link), ResponseOf(p, o, link);
    assert Routed(p, req);
    assert Promises(p, resp, Taken(o, link));
  }

  lemma InsertStaysOffered(p: Params, s: Cube, o: Offer)
    requires s.Shaped() && s.nextLink < |s.reqs.src| && Offered(p, s)
    ensures Offered(p, InsertRequest(p, s, o).1)
  {
    hide Offered, PutOnLink, FreeAfter;
    var n := |s.reqs.src|;
    var i := FreeAfter(s.reqs.src, p.depth, s.nextLink, 0);
    if i < n {
      var link := Rotated(s.nextLink, n, i);
      PutStaysOffered(p, s, o, link);
      SameStaysOffered(p, PutOnLink(p, s, o, link), InsertRequest(p, s, o).1);
    }
  }

  // ---- on every run

  lemma {:induction false} NothingReceived(cfg: Config, n: nat)
    ensures ReceivedAll(seq(n, _ => Control.Initial(cfg))) == multiset{}
  {
    if n > 0 {
      NothingReceived(cfg, n - 1);
      assert seq(n, _ => Control.Initial(cfg))[1..] == seq(n - 1, _ => Control.Initial(cfg));
    }
  }

  lemma InitialOffered(p: Params)
    ensures Offered(p, Initial(p))
  {
    NothingReceived(p.cfg, p.vaults);
    TotalOfNone(Initial(p).reqs.src, ReqAccess);
    TotalOfNone(Initial(p).reqs.dst, ReqAccess);
  }

  lemma SoundShape(p: Params, s: Cube)
    requires p.Valid() && CubeInv(p, s)
    ensures s.Shaped() && s.nextLink < |s.reqs.src| && p.psLogic > 0 && p.cfg.ranks > 0 && p.cfg.RefreshInterval() > 0
  {
    hide Flows;
    FlowsSizes(p, s);
  }

  lemma {:induction false} RunOffered(p: Params, ops: seq<Op>)
    requires p.Valid()
    ensures Offered(p, After(p, ops))
    decreases |ops|
  {
    hide Offered, CubeInv, Tick, InsertRequest, Params.Valid;
    if ops == [] {
      InitialOffered(p);
    } else {
      var s, op := After(p, ops[..|ops| - 1]), ops[|ops| - 1];
      RunOffered(p, ops[..|ops| - 1]);
      SoundShape(p, s);
      match op
      case Submit(o) => InsertStaysOffered(p, s, o);
      case Cycle => TickStaysOffered(p, s);
    }
  }

  /** On every run the requests taken are, by address and kind, those on links and in quads and those the
      vaults have accepted; from each link to each quad they travel in order and with their size; each vault
      has accepted what entered it, in order; and each response promised is the one its request asked for, on
      the link its request came by. */
  lemma RequestsKeepTheirKind(p: Params, ops: seq<Op>)
    requires p.Valid()
    ensures var s := After(p, ops);
      && TakenBag(s.taken) == Load(s.reqs, ReqAccess) + ReceivedAll(s.vaults)
      && |s.reqs.src| == p.links && |s.reqs.dst| == 4 && |s.vaults| == p.vaults
      && (forall l, q :: 0 <= l < p.links && 0 <= q < 4 ==>
            Selected(s.taken, TakenOn(p, l, q)) == Selected(s.entered, Lane(l, q)) + InLane(s.reqs, l, q, Lane(l, q)))
      && (forall v :: 0 <= v < p.vaults ==> Received(s.vaults[v].accepted) == Selected(s.entered, ForVault(v)))
      && |s.submitted| == |s.taken|
      && (forall i :: 0 <= i < |s.taken| ==> Promises(p, s.submitted[i], s.taken[i]))
  {
    hide After, Selected, Load, Received, ReceivedAll, TakenBag, InLane, Promises;
    RunOffered(p, ops);
  }
}
