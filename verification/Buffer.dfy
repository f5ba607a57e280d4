/** The set-associative buffer as a value: cache array, in-flight table, replacement state, edge queue. */
module Buffer {
  import opened Replacement

  /** An edge waiting for the features of column `col`; `address` is where they lie in memory. */
  datatype Edge = Edge(row: nat, col: nat, address: nat, fold: int)

  function BlockOf(e: Edge): Block { Block(e.col, e.fold) }

  datatype Params = Params(algo: Algorithm, sets: nat, ways: nat, addressOf: Block -> nat) {
    /** Addresses and (column, fold) pairs determine each other. */
    ghost predicate Valid() {
      && sets > 0 && ways > 0
      && (forall a: Block, b: Block :: addressOf(a) == addressOf(b) ==> a == b)
    }
    predicate Knows(e: Edge) { e.address == addressOf(BlockOf(e)) }
    function SetOf(b: Block): int
      requires sets > 0
    {
      b.col % sets
    }
  }

  const QUEUE_LIMIT: nat := 32

  /** `inFlight` is the set of addresses requested and not yet filled; `broken` is set where the source
      would take a victim from an empty list; `history` records what happened to blocks. */
  datatype State = State(
    cache: seq<seq<Block>>, lists: seq<seq<Block>>, predictions: seq<seq<int>>,
    asked: map<nat, Edge>, inFlight: set<nat>, waiting: seq<Edge>,
    queueEmpty: bool, canReceive: bool, canTransfer: bool, broken: bool, history: seq<Event>)
  {
    predicate Shaped(p: Params) {
      && p.sets > 0 && p.ways > 0
      && |cache| == |lists| == |predictions| == p.sets
      && (forall k :: 0 <= k < p.sets ==> |cache[k]| == |predictions[k]| == p.ways)
    }
  }

  function Initial(p: Params): State {
    State(seq(p.sets, _ => seq(p.ways, _ => UNUSED)), seq(p.sets, _ => []), seq(p.sets, _ => seq(p.ways, _ => 3)),
          map[], {}, [], true, true, false, false, [])
  }

  // ---- looking into a set

  function WayOf(row: seq<Block>, b: Block, i: nat): (w: nat)
    requires i <= |row|
    ensures i <= w <= |row|
    ensures w < |row| ==> row[w] == b
    ensures forall j :: i <= j < w ==> row[j] != b
    decreases |row| - i
  {
    if i == |row| || row[i] == b then i else WayOf(row, b, i + 1)
  }

  function FreeWay(row: seq<Block>, i: nat): (w: nat)
    requires i <= |row|
    ensures i <= w <= |row|
    ensures w < |row| ==> row[w].Unused()
    ensures forall j :: i <= j < w ==> !row[j].Unused()
    decreases |row| - i
  {
    if i == |row| || row[i].Unused() then i else FreeWay(row, i + 1)
  }

  // ---- edges come in

  function Ask(s: State, e: Edge): State {
    s.(asked := s.asked[e.address := e], inFlight := s.inFlight + {e.address},
       history := s.history + [Request(BlockOf(e))])
  }

  /** A block found in way `w` of set `k` is used. */
  function Use(p: Params, s: State, k: nat, w: nat, b: Block): (t: State)
    requires s.Shaped(p) && k < p.sets && w < p.ways
    ensures t.Shaped(p)
  {
    s.(lists := if p.algo.LRU? then s.lists[k := LruAccess(s.lists[k], b)] else s.lists,
       predictions := if p.algo.RRIP? then s.predictions[k := s.predictions[k][w := 0]] else s.predictions,
       history := s.history + [Hit(b)], canTransfer := true)
  }

  function Enqueue(s: State, e: Edge): State {
    s.(waiting := s.waiting + [e], queueEmpty := false,
       canReceive := s.canReceive && |s.waiting| + 1 != QUEUE_LIMIT)
  }

  function ReceiveEdge(p: Params, s: State, e: Edge): (t: State)
    requires s.Shaped(p)
    ensures t.Shaped(p)
  {
    var k, b := p.SetOf(BlockOf(e)), BlockOf(e);
    var w := WayOf(s.cache[k], b, 0);
    if w < p.ways then Use(p, Enqueue(s, e), k, w, b)
    else if e.address !in s.inFlight then Ask(Enqueue(s, e), e)
    else Enqueue(s, e)
  }

  // ---- data come in

  /** Block `b` takes way `w` of set `k`, in place of what it held. */
  function Place(p: Params, s: State, k: nat, w: nat, b: Block): (t: State)
    requires s.Shaped(p) && k < p.sets && w < p.ways
    ensures t.Shaped(p) && t.inFlight == s.inFlight && t.waiting == s.waiting && t.canReceive == s.canReceive
  {
    s.(cache := s.cache[k := s.cache[k][w := b]],
       history := s.history + (if s.cache[k][w].Unused() then [] else [Evict(s.cache[k][w])]) + [Fill(b)])
  }

  function FillByPrediction(p: Params, s: State, k: nat, b: Block): (t: State)
    requires s.Shaped(p) && k < p.sets
    ensures t.Shaped(p) && t.inFlight == s.inFlight && t.waiting == s.waiting && t.canReceive == s.canReceive
  {
    var (w, row) := RripReplace(s.predictions[k]);
    Place(p, s, k, w, b).(predictions := s.predictions[k := row])
  }

  function FillByList(p: Params, s: State, k: nat, b: Block): (t: State)
    requires s.Shaped(p) && k < p.sets
    ensures t.Shaped(p) && t.inFlight == s.inFlight && t.waiting == s.waiting && t.canReceive == s.canReceive
  {
    var free := FreeWay(s.cache[k], 0);
    if free < p.ways then Place(p, s, k, free, b).(lists := s.lists[k := Access(p.algo, s.lists[k], b)])
    else if s.lists[k] == [] then s.(broken := true)
    else
      var (v, rest) := Victim(p.algo, s.lists[k]);
      var w := WayOf(s.cache[k], v, 0);
      if w < p.ways then Place(p, s, k, w, b).(lists := s.lists[k := Access(p.algo, rest, b)])
      else s.(lists := s.lists[k := rest])
  }

  function FillBlock(p: Params, s: State, b: Block): (t: State)
    requires s.Shaped(p)
    ensures t.Shaped(p) && t.inFlight == s.inFlight && t.waiting == s.waiting && t.canReceive == s.canReceive
  {
    if p.algo.RRIP? then FillByPrediction(p, s, p.SetOf(b), b) else FillByList(p, s, p.SetOf(b), b)
  }

  /** The data of a requested address arrive. */
  function ReceiveBlock(p: Params, s: State, address: nat): (t: State)
    requires s.Shaped(p) && address in s.asked
    ensures t.Shaped(p)
  {
    var t := FillBlock(p, s, BlockOf(s.asked[address]));
    t.(inFlight := t.inFlight - {address},
       canTransfer := t.canTransfer || (t.waiting != [] && t.waiting[0].address == address))
  }

  // ---- edges go out

  function CheckTransfer(p: Params, s: State): (t: State)
    requires s.Shaped(p)
    ensures t.Shaped(p)
  {
    if s.queueEmpty || s.waiting == [] then s.(canTransfer := false)
    else
      var e := s.waiting[0];
      var found := WayOf(s.cache[p.SetOf(BlockOf(e))], BlockOf(e), 0) < p.ways;
      var t := if !found && e.address !in s.inFlight then Ask(s, e) else s;
      t.(canTransfer := found)
  }

  function TransferEdge(s: State): State
    requires s.waiting != []
  {
    s.(canReceive := true, waiting := s.waiting[1..], queueEmpty := s.queueEmpty || |s.waiting| == 1)
  }
}
