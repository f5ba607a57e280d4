/** The HMC memory system as a value: links, crossbar, response table, vault controllers and the two
    clock domains. */
module Hmc {
  import opened Types
  import opened Timing
  import opened Crossbar
  import Control
  import ControllerRuns

  /** `vaultOf` selects the vault of an address; `psDram` and `psLogic` are the two clock periods. */
  datatype Params = Params(
    cfg: Config, links: nat, vaults: nat, depth: nat, psDram: nat, psLogic: nat, vaultOf: nat -> nat)
  {
    ghost predicate Valid() {
      && links > 0 && 0 < psLogic <= psDram && ControllerRuns.Sound(cfg)
      && (forall a: nat :: vaultOf(a) < vaults)
    }
  }

  /** A request on its way from its link to its quad, and a response on its way to its link. */
  datatype Req = Req(addr: nat, isWrite: bool, vault: nat, link: nat)
  datatype Resp = Resp(id: nat, isRead: bool, quad: nat)

  /** What a request type amounts to: packet sizes, and which callback its response takes. */
  datatype Offer = Offer(addr: nat, isWrite: bool, flits: nat, readBack: bool, respFlits: nat)

  /** A request that was taken, and the link it was put on. */
  datatype Taken = Taken(offer: Offer, link: nat)

  /** `table` holds the responses still to come, in insertion order.  `lost` is set where the source
      would use a failed look-up.  `taken` and `answered` record the traffic with the processor, `submitted`
      the responses promised, `entered` the requests handed to the vaults with the logic cycle of each in
      `enteredAt`, and `finished` the responses the vaults have let go. */
  datatype Cube = Cube(
    reqs: Xbar<Req>, resps: Xbar<Resp>, table: seq<Packet<Resp>>, vaults: seq<Control.State>,
    clk: nat, logicClk: nat, logicPs: nat, dramPs: nat, nextLink: nat, lost: bool,
    taken: seq<Taken>, entered: seq<Packet<Req>>, enteredAt: seq<nat>, submitted: seq<Packet<Resp>>,
    finished: seq<Packet<Resp>>, answered: seq<Packet<Resp>>)
  {
    predicate Shaped() {
      && |reqs.age| == |reqs.src| && |reqs.busy| == |reqs.dst|
      && |resps.age| == |resps.src| && |resps.busy| == |resps.dst|
    }
  }

  function EmptyXbar<B>(sources: nat, dests: nat): Xbar<B> {
    Xbar(seq(sources, _ => []), seq(dests, _ => []), seq(dests, _ => 0), seq(sources, _ => 0), false)
  }

  function Initial(p: Params): Cube {
    Cube(EmptyXbar(p.links, 4), EmptyXbar(4, p.links), [], seq(p.vaults, _ => Control.Initial(p.cfg)),
         0, 0, 0, 0, 0, false, [], [], [], [], [], [])
  }

  // ---- clock ratio

  const PS_PER_DRAM: nat := 800

  /** The logic period in picoseconds for a logic speed in MHz. */
  function PsPerLogic(logicSpeed: nat): nat
    requires logicSpeed > 0
  {
    var ps := 1000000 / logicSpeed;
    if ps > PS_PER_DRAM then PS_PER_DRAM else ps
  }

  // ---- accepting requests

  /** Steps from the next link to the first link with room; the number of links if all are full. */
  function FreeAfter<B>(src: seq<seq<Packet<B>>>, depth: nat, start: nat, i: nat): (r: nat)
    requires start < |src| && i <= |src|
    ensures i <= r <= |src|
    ensures r < |src| ==> |src[Rotated(start, |src|, r)]| < depth
    ensures forall j :: i <= j < r ==> |src[Rotated(start, |src|, j)]| >= depth
    decreases |src| - i
  {
    if i == |src| || |src[Rotated(start, |src|, i)]| < depth then i else FreeAfter(src, depth, start, i + 1)
  }

  function RequestOf(p: Params, o: Offer, link: nat): Packet<Req> {
    Packet(p.vaultOf(o.addr) % 4, o.flits, 0, Req(o.addr, o.isWrite, p.vaultOf(o.addr), link))
  }

  function ResponseOf(p: Params, o: Offer, link: nat): Packet<Resp> {
    Packet(link, o.respFlits, 0, Resp(o.addr, o.readBack, p.vaultOf(o.addr) % 4))
  }

  function PutOnLink(p: Params, s: Cube, o: Offer, link: nat): Cube
    requires link < |s.reqs.src| && s.Shaped()
  {
    s.(reqs := s.reqs.(src := Push(s.reqs.src, link, RequestOf(p, o, link)), age := s.reqs.age[link := 1]),
       taken := s.taken + [Taken(o, link)],
       table := s.table + [ResponseOf(p, o, link)], submitted := s.submitted + [ResponseOf(p, o, link)])
  }

  function InsertRequest(p: Params, s: Cube, o: Offer): (bool, Cube)
    requires s.Shaped() && s.nextLink < |s.reqs.src|
  {
    var n := |s.reqs.src|;
    var i := FreeAfter(s.reqs.src, p.depth, s.nextLink, 0);
    if i == n then (false, s)
    else
      var link := Rotated(s.nextLink, n, i);
      (true, PutOnLink(p, s, o, link).(nextLink := Rotated(1 % n, n, link)))
  }

  // ---- responses

  /** The front response of a link leaves once its flits have passed. */
  function AnswerOne(s: Cube, link: nat): (t: Cube)
    requires s.Shaped() && link < |s.resps.dst|
    ensures t.Shaped() && |t.resps.dst| == |s.resps.dst|
  {
    if s.resps.dst[link] != [] && s.resps.dst[link][0].exit <= s.logicClk then
      s.(resps := s.resps.(dst := Pop(s.resps.dst, link)), answered := s.answered + [s.resps.dst[link][0]])
    else s
  }

  function AnswerUpTo(s: Cube, n: nat): (t: Cube)
    requires s.Shaped() && n <= |s.resps.dst|
    ensures t.Shaped() && |t.resps.dst| == |s.resps.dst|
  {
    if n == 0 then s else AnswerOne(AnswerUpTo(s, n - 1), n - 1)
  }

  function DrainResponses(p: Params, s: Cube): (t: Cube)
    requires s.Shaped()
    ensures t.Shaped()
  {
    var t := AnswerUpTo(s, |s.resps.dst|);
    t.(resps := Cross(t.resps, p.depth, t.logicClk))
  }

  // ---- requests

  /** The front request of a quad enters its vault when it has crossed, the vault accepts it and the
      quad has room for responses. */
  function EnterVault(p: Params, s: Cube, quad: nat): (t: Cube)
    requires s.Shaped()
    ensures t.Shaped()
  {
    if quad >= |s.reqs.dst| || quad >= |s.resps.src| || s.reqs.dst[quad] == []
       || |s.resps.src[quad]| >= p.depth then s
    else
      var r := s.reqs.dst[quad][0];
      if r.body.vault >= |s.vaults| then s.(lost := true)
      else if r.exit <= s.logicClk && Control.WillAcceptTransaction(p.cfg, s.vaults[r.body.vault], r.body.isWrite) then
        s.(vaults := s.vaults[r.body.vault :=
             Control.AddTransaction(p.cfg, s.vaults[r.body.vault], r.body.addr, r.body.isWrite)],
           reqs := s.reqs.(dst := Pop(s.reqs.dst, quad)), entered := s.entered + [r],
           enteredAt := s.enteredAt + [s.logicClk])
      else s
  }

  function EnterUpTo(p: Params, s: Cube, n: nat): (t: Cube)
    requires s.Shaped()
    ensures t.Shaped()
  {
    if n == 0 then s else EnterVault(p, EnterUpTo(p, s, n - 1), n - 1)
  }

  function DrainRequests(p: Params, s: Cube): (t: Cube)
    requires s.Shaped()
    ensures t.Shaped()
  {
    var t := EnterUpTo(p, s, 4);
    t.(reqs := Cross(t.reqs, p.depth, t.logicClk))
  }

  // ---- the DRAM cycle

  function FindEntry(table: seq<Packet<Resp>>, id: nat, i: nat): (r: nat)
    requires i <= |table|
    ensures i <= r <= |table|
    ensures r < |table| ==> table[r].body.id == id
    ensures forall j :: i <= j < r ==> table[j].body.id != id
    decreases |table| - i
  {
    if i == |table| || table[i].body.id == id then i else FindEntry(table, id, i + 1)
  }

  /** A vault has finished with `id`: its response leaves the table for its quad's queue. */
  function VaultCallback(s: Cube, id: nat): (t: Cube)
    requires s.Shaped()
    ensures t.Shaped() && t.vaults == s.vaults
  {
    var i := FindEntry(s.table, id, 0);
    if i == |s.table| || s.table[i].body.quad >= |s.resps.src| then s.(lost := true)
    else
      var q := s.table[i].body.quad;
      s.(table := s.table[..i] + s.table[i+1..], finished := s.finished + [s.table[i]],
         resps := s.resps.(src := Push(s.resps.src, q, s.table[i]), age := s.resps.age[q := 1]))
  }

  /** Collect everything vault `v` has finished. */
  function CollectVault(s: Cube, v: nat): (t: Cube)
    requires s.Shaped() && v < |s.vaults|
    ensures t.Shaped() && |t.vaults| == |s.vaults|
    decreases |s.vaults[v].ret|
  {
    var (done, vault) := Control.ReturnDone(s.vaults[v], s.clk);
    if done.None? then s
    else CollectVault(VaultCallback(s.(vaults := s.vaults[v := vault]), done.value.addr), v)
  }

  function CollectUpTo(s: Cube, n: nat): (t: Cube)
    requires s.Shaped() && n <= |s.vaults|
    ensures t.Shaped() && |t.vaults| == |s.vaults|
  {
    if n == 0 then s else CollectVault(CollectUpTo(s, n - 1), n - 1)
  }

  function TickVaults(p: Params, s: Cube): (t: Cube)
    requires s.Shaped() && p.cfg.ranks > 0 && p.cfg.RefreshInterval() > 0
    ensures t.Shaped()
  {
    s.(vaults := seq(|s.vaults|, v requires 0 <= v < |s.vaults| =>
         Control.Tick(p.cfg, MakeTable(p.cfg), s.vaults[v])))
  }

  function DramTick(p: Params, s: Cube): (t: Cube)
    requires s.Shaped() && p.cfg.ranks > 0 && p.cfg.RefreshInterval() > 0
    ensures t.Shaped()
  {
    var t := TickVaults(p, CollectUpTo(s, |s.vaults|));
    t.(clk := t.clk + 1)
  }

  // ---- one tick

  function LogicStep(p: Params, s: Cube): (t: Cube)
    requires s.Shaped()
    ensures t.Shaped()
  {
    s.(logicPs := s.logicPs + p.psLogic, logicClk := s.logicClk + 1)
  }

  /** A logic cycle without a DRAM cycle. */
  function LogicCycle(p: Params, s: Cube): (t: Cube)
    requires s.Shaped()
    ensures t.Shaped()
  {
    LogicStep(p, DrainRequests(p, DrainResponses(p, s)))
  }

  /** The logic domain runs `n` cycles. */
  function LogicCycles(p: Params, s: Cube, n: nat): (t: Cube)
    requires s.Shaped()
    ensures t.Shaped()
  {
    if n == 0 then s else LogicCycle(p, LogicCycles(p, s, n - 1))
  }

  /** Logic cycles that start before the time `until`. */
  function CyclesUntil(logicPs: nat, psLogic: nat, until: nat): nat
    requires psLogic > 0
    decreases until - logicPs
  {
    if logicPs >= until then 0 else 1 + CyclesUntil(logicPs + psLogic, psLogic, until)
  }

  /** The DRAM cycle, between response and request draining when both domains meet. */
  function FirstHalf(p: Params, s: Cube): (t: Cube)
    requires s.Shaped() && p.cfg.ranks > 0 && p.cfg.RefreshInterval() > 0
    ensures t.Shaped()
  {
    if s.dramPs == s.logicPs then LogicStep(p, DrainRequests(p, DramTick(p, DrainResponses(p, s))))
    else DramTick(p, s)
  }

  function Tick(p: Params, s: Cube): (t: Cube)
    requires s.Shaped() && p.psLogic > 0 && p.cfg.ranks > 0 && p.cfg.RefreshInterval() > 0
    ensures t.Shaped()
  {
    var t := FirstHalf(p, s);
    var u := LogicCycles(p, t, CyclesUntil(t.logicPs, p.psLogic, t.dramPs + p.psDram));
    u.(dramPs := u.dramPs + p.psDram)
  }

}
