/** Cache, replacement state and in-flight table agree on every run of the buffer. */
module BufferRuns {
  import opened Replacement
  import opened Buffer

  // ---- one set against the history

  ghost predicate CellsOk(p: Params, k: nat, row: seq<Block>)
    requires p.sets > 0
  {
    && (forall w :: 0 <= w < |row| ==> row[w].Unused() || (row[w].col >= 0 && p.SetOf(row[w]) == k))
    && (forall v, w :: 0 <= v < w < |row| && row[v] == row[w] ==> row[v].Unused())
  }

  /** The set holds exactly the resident blocks that belong to it. */
  ghost predicate HoldsResidents(p: Params, h: seq<Event>, k: nat, row: seq<Block>)
    requires p.sets > 0
  {
    forall b: Block :: b.col >= 0 && p.SetOf(b) == k ==> (b in Resident(h) <==> b in row)
  }

  ghost predicate ListOk(algo: Algorithm, h: seq<Event>, row: seq<Block>, list: seq<Block>) {
    !algo.RRIP? ==> InAgeOrder(algo, h, list) && forall b: Block :: b in list <==> b in row && !b.Unused()
  }

  ghost predicate SetOk(p: Params, h: seq<Event>, k: nat, row: seq<Block>, list: seq<Block>)
    requires p.sets > 0
  {
    |row| == p.ways && CellsOk(p, k, row) && HoldsResidents(p, h, k, row) && ListOk(p.algo, h, row, list)
  }

  lemma EvictKeepsSet(p: Params, h: seq<Event>, k: nat, row: seq<Block>, list: seq<Block>, w: nat, rest: seq<Block>)
    requires p.sets > 0 && SetOk(p, h, k, row, list) && w < |row| && !row[w].Unused()
    requires !p.algo.RRIP? ==> InAgeOrder(p.algo, h, rest) && ToSet(rest) == ToSet(list) - {row[w]}
    ensures SetOk(p, h + [Evict(row[w])], k, row[w := UNUSED], rest)
  {
    hide Stamp, Resident;
    var v, after := row[w], row[w := UNUSED];
    ResidentNext(h, Evict(v));
    forall b: Block | !b.Unused() ensures b in after <==> b in row && b != v {
      if b in row && b != v {
        var i :| 0 <= i < |row| && row[i] == b;
        assert after[i] == b;
      }
      if b in after {
        var i :| 0 <= i < |row| && after[i] == b;
        assert i != w;
        assert row[i] == b;
      }
    }
    if !p.algo.RRIP? {
      forall b: Block ensures b in rest <==> b in after && !b.Unused() {
        assert b in rest <==> b in ToSet(rest);
        assert b in list <==> b in ToSet(list);
      }
      OrderUndisturbed(p.algo, h, rest, Evict(v));
    }
  }

  lemma FillKeepsSet(p: Params, h: seq<Event>, k: nat, row: seq<Block>, list: seq<Block>, w: nat, b: Block, list': seq<Block>)
    requires p.sets > 0 && SetOk(p, h, k, row, list) && w < |row| && row[w].Unused()
    requires b.col >= 0 && p.SetOf(b) == k && b !in row
    requires !p.algo.RRIP? ==> list' == Access(p.algo, list, b)
    ensures SetOk(p, h + [Fill(b)], k, row[w := b], list')
  {
    hide Stamp, Resident, Access, InAgeOrder;
    var after := row[w := b];
    ResidentNext(h, Fill(b));
    forall c: Block | !c.Unused() ensures c in after <==> c in row || c == b {
      if c in row {
        var i :| 0 <= i < |row| && row[i] == c;
        assert after[i] == c;
      }
      if c == b {
        assert after[w] == c;
      }
    }
    if !p.algo.RRIP? {
      AccessKeepsOrder(p.algo, h, list, Fill(b));
      forall c: Block ensures c in list' <==> c in after && !c.Unused() {
        assert c in list' <==> c in ToSet(list');
        assert c in list <==> c in ToSet(list);
      }
    }
  }

  lemma HitKeepsSet(p: Params, h: seq<Event>, k: nat, row: seq<Block>, list: seq<Block>, b: Block, list': seq<Block>)
    requires p.sets > 0 && SetOk(p, h, k, row, list) && b in row && !b.Unused()
    requires list' == if p.algo.LRU? then LruAccess(list, b) else list
    ensures SetOk(p, h + [Hit(b)], k, row, list')
  {
    hide Stamp, Resident, LruAccess;
    ResidentNext(h, Hit(b));
    if p.algo.LRU? {
      AccessKeepsOrder(p.algo, h, list, Hit(b));
      forall c: Block ensures c in list' <==> c in row && !c.Unused() {
        assert c in list' <==> c in ToSet(list');
        assert c in list <==> c in ToSet(list);
      }
    } else if p.algo.FIFO? {
      OrderUndisturbed(p.algo, h, list, Hit(b));
    }
  }

  /** Requests, and whatever happens to blocks of other sets, leave a set alone. */
  lemma OtherKeepsSet(p: Params, h: seq<Event>, k: nat, row: seq<Block>, list: seq<Block>, e: Event)
    requires p.sets > 0 && SetOk(p, h, k, row, list) && (e.Request? || p.SetOf(e.block) != k)
    ensures SetOk(p, h + [e], k, row, list)
  {
    hide Stamp, Resident;
    ResidentNext(h, e);
    if !p.algo.RRIP? {
      forall i | 0 <= i < |list| ensures !Renews(p.algo, e, list[i]) {
        assert list[i] in list && list[i] in row;
        var w :| 0 <= w < |row| && row[w] == list[i];
      }
      OrderUndisturbed(p.algo, h, list, e);
    }
  }

  // ---- the history itself

  function Requests(h: seq<Event>, b: Block): nat {
    if h == [] then 0 else Requests(h[..|h|-1], b) + (if h[|h|-1] == Request(b) then 1 else 0)
  }

  function Fills(h: seq<Event>, b: Block): nat {
    if h == [] then 0 else Fills(h[..|h|-1], b) + (if h[|h|-1] == Fill(b) then 1 else 0)
  }

  lemma CountsNext(h: seq<Event>, e: Event, b: Block)
    ensures Requests(h + [e], b) == Requests(h, b) + (if e == Request(b) then 1 else 0)
    ensures Fills(h + [e], b) == Fills(h, b) + (if e == Fill(b) then 1 else 0)
  {
    assert (h + [e])[..|h|] == h;
  }

  /** The resident blocks of set `k`. */
  function ResidentsOf(p: Params, h: seq<Event>, k: int): set<Block>
    requires p.sets > 0
  {
    set b | b in Resident(h) && p.SetOf(b) == k
  }

  /** What each event promises about the history before it: only resident blocks are hit; a block is
      requested only when it is neither resident nor requested already, and filled only when requested; a
      block is evicted only from a full set, and it is the one used (LRU) or filled (FIFO) longest ago. */
  ghost predicate EventOk(p: Params, h: seq<Event>, e: Event)
    requires p.sets > 0
  {
    match e
    case Request(b) => b !in Resident(h) && Requests(h, b) == Fills(h, b)
    case Fill(b) => b !in Resident(h) && Requests(h, b) == Fills(h, b) + 1
    case Hit(b) => b in Resident(h)
    case Evict(b) => b in Resident(h) && (!p.algo.RRIP? ==> FairEviction(p, h, b))
  }

  ghost predicate FairEviction(p: Params, h: seq<Event>, b: Block)
    requires p.sets > 0
  {
    var rivals := ResidentsOf(p, h, p.SetOf(b));
    IsOldest(p.algo, h, b, rivals) && |rivals| == p.ways
  }

  ghost predicate HistoryOk(p: Params, h: seq<Event>)
    requires p.sets > 0
  {
    forall i :: 0 <= i < |h| ==> EventOk(p, h[..i], h[i])
  }

  lemma HistoryNext(p: Params, h: seq<Event>, e: Event)
    requires p.sets > 0 && HistoryOk(p, h) && EventOk(p, h, e)
    ensures HistoryOk(p, h + [e])
  {
    hide EventOk;
    forall i | 0 <= i < |h + [e]| ensures EventOk(p, (h + [e])[..i], (h + [e])[i]) {
      assert i < |h| ==> (h + [e])[..i] == h[..i];
      assert i == |h| ==> (h + [e])[..i] == h;
    }
  }

  // ---- the invariant

  ghost predicate SetsOk(p: Params, h: seq<Event>, cache: seq<seq<Block>>, lists: seq<seq<Block>>)
    requires p.sets > 0
  {
    |cache| == |lists| == p.sets && forall k: nat :: k < p.sets ==> SetOk(p, h, k, cache[k], lists[k])
  }

  /** An address in flight was asked for by an edge that knows it, and its block is not resident. */
  ghost predicate FlightOk(p: Params, s: State) {
    forall a :: a in s.inFlight ==>
      a in s.asked && s.asked[a].address == a && p.Knows(s.asked[a]) && BlockOf(s.asked[a]) !in Resident(s.history)
  }

  /** Requests without a fill are exactly the blocks in flight. */
  ghost predicate BalanceOk(p: Params, h: seq<Event>, inFlight: set<nat>) {
    forall b: Block :: Requests(h, b) == Fills(h, b) + (if p.addressOf(b) in inFlight then 1 else 0)
  }

  ghost predicate QueueOk(p: Params, s: State) {
    (s.queueEmpty <==> s.waiting == []) && forall i :: 0 <= i < |s.waiting| ==> p.Knows(s.waiting[i])
  }

  ghost predicate PredictionsAllOk(s: State) {
    forall k :: 0 <= k < |s.predictions| ==> PredictionsOk(s.predictions[k])
  }

  ghost predicate Inv(p: Params, s: State) {
    && s.Shaped(p) && !s.broken
    && SetsOk(p, s.history, s.cache, s.lists)
    && FlightOk(p, s) && BalanceOk(p, s.history, s.inFlight) && QueueOk(p, s) && PredictionsAllOk(s)
    && HistoryOk(p, s.history) && RealBlocks(s.history)
  }

  ghost predicate RealBlocks(h: seq<Event>) {
    forall b :: b in Resident(h) ==> b.col >= 0
  }

  lemma InitialInv(p: Params)
    requires p.Valid()
    ensures Inv(p, Initial(p))
  {
  }

  // ---- looking a block up

  /** A block is found in the cache exactly when it is resident. */
  lemma FoundIffResident(p: Params, s: State, b: Block)
    requires Inv(p, s) && b.col >= 0
    ensures WayOf(s.cache[p.SetOf(b)], b, 0) < p.ways <==> b in Resident(s.history)
    ensures b in s.cache[p.SetOf(b)] <==> b in Resident(s.history)
  {
    hide Resident, WayOf, CellsOk, ListOk, HistoryOk;
    var k := p.SetOf(b);
    assert SetOk(p, s.history, k, s.cache[k], s.lists[k]);
  }

  // ---- requests and uses

  lemma RequestKeepsSets(p: Params, h: seq<Event>, cache: seq<seq<Block>>, lists: seq<seq<Block>>, b: Block)
    requires p.sets > 0 && SetsOk(p, h, cache, lists)
    ensures SetsOk(p, h + [Request(b)], cache, lists)
  {
    hide SetOk;
    forall k: nat | k < p.sets ensures SetOk(p, h + [Request(b)], k, cache[k], lists[k]) {
      OtherKeepsSet(p, h, k, cache[k], lists[k], Request(b));
    }
  }

  /** One set changes, by an event on one of its blocks. */
  lemma OneSetChanges(p: Params, h: seq<Event>, cache: seq<seq<Block>>, lists: seq<seq<Block>>, e: Event, k: nat, row: seq<Block>, list: seq<Block>)
    requires p.sets > 0 && SetsOk(p, h, cache, lists) && k < p.sets && p.SetOf(e.block) == k
    requires SetOk(p, h + [e], k, row, list)
    ensures SetsOk(p, h + [e], cache[k := row], lists[k := list])
  {
    hide SetOk, Params.SetOf;
    var cache', lists' := cache[k := row], lists[k := list];
    forall j: nat | j < p.sets ensures SetOk(p, h + [e], j, cache'[j], lists'[j]) {
      if j != k {
        OtherKeepsSet(p, h, j, cache[j], lists[j], e);
      }
    }
  }

  lemma AskKeepsBalance(p: Params, h: seq<Event>, inFlight: set<nat>, b: Block)
    requires p.Valid() && BalanceOk(p, h, inFlight) && p.addressOf(b) !in inFlight
    ensures BalanceOk(p, h + [Request(b)], inFlight + {p.addressOf(b)})
  {
    forall c: Block
      ensures Requests(h + [Request(b)], c)
           == Fills(h + [Request(b)], c) + (if p.addressOf(c) in inFlight + {p.addressOf(b)} then 1 else 0)
    {
      CountsNext(h, Request(b), c);
    }
  }

  lemma FillKeepsBalance(p: Params, h: seq<Event>, inFlight: set<nat>, b: Block)
    requires p.Valid() && BalanceOk(p, h, inFlight) && p.addressOf(b) in inFlight
    ensures BalanceOk(p, h + [Fill(b)], inFlight - {p.addressOf(b)})
  {
    forall c: Block
      ensures Requests(h + [Fill(b)], c)
           == Fills(h + [Fill(b)], c) + (if p.addressOf(c) in inFlight - {p.addressOf(b)} then 1 else 0)
    {
      CountsNext(h, Fill(b), c);
    }
  }

  lemma OtherKeepsBalance(p: Params, h: seq<Event>, inFlight: set<nat>, e: Event)
    requires BalanceOk(p, h, inFlight) && (e.Hit? || e.Evict?)
    ensures BalanceOk(p, h + [e], inFlight)
  {
    forall c: Block
      ensures Requests(h + [e], c) == Fills(h + [e], c) + (if p.addressOf(c) in inFlight then 1 else 0)
    {
      CountsNext(h, e, c);
    }
  }

  lemma AskKeepsInv(p: Params, s: State, e: Edge)
    requires p.Valid() && Inv(p, s) && p.Knows(e) && e.address !in s.inFlight && BlockOf(e) !in Resident(s.history)
    ensures Inv(p, Ask(s, e))
  {
    hide SetsOk, Resident, Requests, Fills, BalanceOk, HistoryOk, PredictionsOk;
    var b, h := BlockOf(e), s.history;
    RequestKeepsSets(p, h, s.cache, s.lists, b);
    AskKeepsBalance(p, h, s.inFlight, b);
    assert Requests(h, b) == Fills(h, b) by { BalanceAt(p, h, s.inFlight, b); }
    HistoryNext(p, h, Request(b));
    ResidentNext(h, Request(b));
  }

  lemma BalanceAt(p: Params, h: seq<Event>, inFlight: set<nat>, b: Block)
    requires BalanceOk(p, h, inFlight)
    ensures Requests(h, b) == Fills(h, b) + (if p.addressOf(b) in inFlight then 1 else 0)
  {
  }

  lemma EnqueueKeepsInv(p: Params, s: State, e: Edge)
    requires Inv(p, s) && p.Knows(e)
    ensures Inv(p, Enqueue(s, e))
  {
    hide SetsOk, Resident, BalanceOk, HistoryOk, PredictionsOk;
  }

  lemma UseKeepsInv(p: Params, s: State, k: nat, w: nat, b: Block)
    requires p.Valid() && Inv(p, s) && b.col >= 0 && k == p.SetOf(b) && w < p.ways && s.cache[k][w] == b
    ensures Inv(p, Use(p, s, k, w, b))
  {
    hide Resident, Requests, Fills, BalanceOk, HistoryOk, LruAccess, SetOk;
    var h, t := s.history, Use(p, s, k, w, b);
    HitKeepsSet(p, h, k, s.cache[k], s.lists[k], b, t.lists[k]);
    OneSetChanges(p, h, s.cache, s.lists, Hit(b), k, s.cache[k], t.lists[k]);
    assert s.cache[k := s.cache[k]] == s.cache && s.lists[k := t.lists[k]] == t.lists;
    FoundIffResident(p, s, b);
    HistoryNext(p, h, Hit(b));
    ResidentNext(h, Hit(b));
    OtherKeepsBalance(p, h, s.inFlight, Hit(b));
    hide SetsOk;
    UsePredictions(p, s, k, w, b);
  }

  lemma UsePredictions(p: Params, s: State, k: nat, w: nat, b: Block)
    requires s.Shaped(p) && PredictionsAllOk(s) && k < p.sets && w < p.ways
    ensures PredictionsAllOk(Use(p, s, k, w, b))
  {
  }

  /** An edge joins the queue; its block is used if resident, and otherwise asked for unless it is on its way. */
  lemma EdgeMeaning(p: Params, s: State, e: Edge)
    requires p.Valid() && Inv(p, s) && p.Knows(e)
    ensures s.Shaped(p)
    ensures var t := ReceiveEdge(p, s, e);
      && t.waiting == s.waiting + [e] && t.cache == s.cache && !t.queueEmpty
      && (t.canReceive <==> s.canReceive && |s.waiting| + 1 != 32)
      && if BlockOf(e) in Resident(s.history) then
           t.history == s.history + [Hit(BlockOf(e))] && t.asked == s.asked && t.inFlight == s.inFlight && t.canTransfer
         else if e.address in s.inFlight then
           t == s.(waiting := t.waiting, canReceive := t.canReceive, queueEmpty := false)
         else t == Ask(s, e).(waiting := t.waiting, canReceive := t.canReceive, queueEmpty := false)
  {
    hide Inv, Resident, WayOf;
    InvShaped(p, s);
    FoundIffResident(p, s, BlockOf(e));
  }

  /** An edge that finds its block uses it; one that does not asks for it unless it is on its way. */
  lemma ReceiveEdgeKeepsInv(p: Params, s: State, e: Edge)
    requires p.Valid() && Inv(p, s) && p.Knows(e)
    ensures Inv(p, ReceiveEdge(p, s, e))
    ensures BlockOf(e) in Resident(s.history) || e.address in ReceiveEdge(p, s, e).inFlight
  {
    hide Inv, Resident, WayOf, Use;
    assert s.Shaped(p) by { InvShaped(p, s); }
    var b := BlockOf(e);
    var k := p.SetOf(b);
    FoundIffResident(p, s, b);
    EnqueueKeepsInv(p, s, e);
    var q, w := Enqueue(s, e), WayOf(s.cache[k], b, 0);
    if w < p.ways {
      UseKeepsInv(p, q, k, w, b);
    } else if e.address !in s.inFlight {
      AskKeepsInv(p, q, e);
    }
  }

  lemma InvShaped(p: Params, s: State)
    requires Inv(p, s)
    ensures s.Shaped(p) && QueueOk(p, s)
  {
  }

  // ---- evictions and fills

  lemma {:induction false} DistinctSize(row: seq<Block>)
    requires forall v, w :: 0 <= v < w < |row| ==> row[v] != row[w]
    ensures |ToSet(row)| == |row|
  {
    if row != [] {
      DistinctSize(row[1..]);
      assert row == [row[0]] + row[1..];
      assert ToSet(row) == {row[0]} + ToSet(row[1..]);
    }
  }

  /** A set without an unused way holds as many residents as it has ways. */
  lemma FullSet(p: Params, s: State, k: nat)
    requires Inv(p, s) && k < p.sets && forall w :: 0 <= w < p.ways ==> !s.cache[k][w].Unused()
    ensures ResidentsOf(p, s.history, k) == ToSet(s.cache[k]) && |ResidentsOf(p, s.history, k)| == p.ways
    ensures !p.algo.RRIP? ==> ToSet(s.lists[k]) == ToSet(s.cache[k])
  {
    hide Resident, HistoryOk, InAgeOrder, BalanceOk;
    var row := s.cache[k];
    assert SetOk(p, s.history, k, row, s.lists[k]);
    forall b | b in ToSet(row) ensures b in ResidentsOf(p, s.history, k) && (!p.algo.RRIP? ==> b in s.lists[k]) {
      var w :| 0 <= w < |row| && row[w] == b;
    }
    DistinctSize(row);
  }

  /** Way `w` of set `k` loses its block. */
  ghost function Emptied(s: State, k: nat, w: nat, rest: seq<Block>): State
    requires k < |s.cache| == |s.lists| && w < |s.cache[k]|
  {
    s.(cache := s.cache[k := s.cache[k][w := UNUSED]], lists := s.lists[k := rest],
       history := s.history + [Evict(s.cache[k][w])])
  }

  lemma EvictKeepsInv(p: Params, s: State, k: nat, w: nat, rest: seq<Block>)
    requires p.Valid() && Inv(p, s) && k < p.sets && w < p.ways && !s.cache[k][w].Unused()
    requires !p.algo.RRIP? ==> InAgeOrder(p.algo, s.history, rest) && ToSet(rest) == ToSet(s.lists[k]) - {s.cache[k][w]}
    requires !p.algo.RRIP? ==> FairEviction(p, s.history, s.cache[k][w])
    ensures Inv(p, Emptied(s, k, w, rest))
  {
    hide Resident, Requests, Fills, BalanceOk, HistoryOk, InAgeOrder, FairEviction;
    var h, v := s.history, s.cache[k][w];
    assert SetOk(p, h, k, s.cache[k], s.lists[k]);
    EvictKeepsSet(p, h, k, s.cache[k], s.lists[k], w, rest);
    assert v.col >= 0 && p.SetOf(v) == k && v in s.cache[k];
    hide SetOk;
    OneSetChanges(p, h, s.cache, s.lists, Evict(v), k, s.cache[k][w := UNUSED], rest);
    FoundIffResident(p, s, v);
    HistoryNext(p, h, Evict(v));
    ResidentNext(h, Evict(v));
    OtherKeepsBalance(p, h, s.inFlight, Evict(v));
    hide SetsOk;
  }

  /** Block `b` comes in from memory, into an unused way. */
  ghost function Filled(p: Params, s: State, k: nat, w: nat, b: Block, list: seq<Block>): State
    requires k < |s.cache| == |s.lists| && w < |s.cache[k]|
  {
    s.(cache := s.cache[k := s.cache[k][w := b]], lists := s.lists[k := list],
       history := s.history + [Fill(b)], inFlight := s.inFlight - {p.addressOf(b)})
  }

  lemma FillKeepsInv(p: Params, s: State, k: nat, w: nat, b: Block, list: seq<Block>)
    requires p.Valid() && Inv(p, s) && b.col >= 0 && k == p.SetOf(b) && w < p.ways && s.cache[k][w].Unused()
    requires p.addressOf(b) in s.inFlight && b !in Resident(s.history)
    requires !p.algo.RRIP? ==> list == Access(p.algo, s.lists[k], b)
    ensures Inv(p, Filled(p, s, k, w, b, list)) && b in Resident(Filled(p, s, k, w, b, list).history)
  {
    hide Resident, Requests, Fills, BalanceOk, HistoryOk, InAgeOrder, Access, SetOk;
    var h := s.history;
    FoundIffResident(p, s, b);
    FillKeepsSet(p, h, k, s.cache[k], s.lists[k], w, b, list);
    OneSetChanges(p, h, s.cache, s.lists, Fill(b), k, s.cache[k][w := b], list);
    BalanceAt(p, h, s.inFlight, b);
    HistoryNext(p, h, Fill(b));
    ResidentNext(h, Fill(b));
    FillKeepsBalance(p, h, s.inFlight, b);
    hide SetsOk;
    FillKeepsFlight(p, s, Filled(p, s, k, w, b, list), b);
  }

  lemma FillKeepsFlight(p: Params, s: State, t: State, b: Block)
    requires p.Valid() && FlightOk(p, s) && t.asked == s.asked && t.inFlight == s.inFlight - {p.addressOf(b)}
    requires Resident(t.history) == Resident(s.history) + {b}
    ensures FlightOk(p, t)
  {
    hide Resident;
    forall a | a in t.inFlight ensures BlockOf(t.asked[a]) !in Resident(t.history) {
      assert a in s.inFlight;
    }
  }

  /** An address in flight names a block that is not cached. */
  lemma InFlightNotCached(p: Params, s: State, a: nat)
    requires Inv(p, s) && a in s.inFlight
    ensures a in s.asked
    ensures var b := BlockOf(s.asked[a]);
      b.col >= 0 && p.addressOf(b) == a && b !in Resident(s.history) && b !in s.cache[p.SetOf(b)]
  {
    hide Resident, HistoryOk, BalanceOk, SetsOk;
    FoundIffResident(p, s, BlockOf(s.asked[a]));
  }

  lemma FlagsKeepInv(p: Params, s: State, t: State)
    requires Inv(p, s) && t.Shaped(p) && PredictionsAllOk(t)
    requires t == s.(predictions := t.predictions, canTransfer := t.canTransfer)
    ensures Inv(p, t)
  {
    hide Resident, HistoryOk, BalanceOk, SetsOk, State.Shaped;
  }

  ghost predicate Cached(p: Params, s: State, b: Block) {
    Inv(p, s) && b in Resident(s.history)
  }

  lemma FreeFillKeepsInv(p: Params, s: State, a: nat)
    requires p.Valid() && Inv(p, s) && a in s.inFlight && !p.algo.RRIP?
    ensures a in s.asked && s.Shaped(p)
    ensures var b := BlockOf(s.asked[a]);
      FreeWay(s.cache[p.SetOf(b)], 0) < p.ways ==> Cached(p, FillByList(p, s, p.SetOf(b), b).(inFlight := s.inFlight - {a}), b)
  {
    hide Inv, Resident, Access, FreeWay;
    InvShaped(p, s);
    InFlightNotCached(p, s, a);
    var b := BlockOf(s.asked[a]);
    var k := p.SetOf(b);
    var w := FreeWay(s.cache[k], 0);
    if w < p.ways {
      var list := Access(p.algo, s.lists[k], b);
      FillKeepsInv(p, s, k, w, b, list);
      assert s.history + [] + [Fill(b)] == s.history + [Fill(b)];
      assert FillByList(p, s, k, b).(inFlight := s.inFlight - {a}) == Filled(p, s, k, w, b, list);
    }
  }

  /** A full set gives up the block renewed longest ago. */
  lemma VictimOfFullSet(p: Params, s: State, k: nat)
    requires p.Valid() && Inv(p, s) && !p.algo.RRIP? && k < p.sets && FreeWay(s.cache[k], 0) == p.ways
    ensures s.lists[k] != []
    ensures var (v, rest) := Victim(p.algo, s.lists[k]);
      var w := WayOf(s.cache[k], v, 0);
      && w < p.ways && !v.Unused() && v.col >= 0 && p.SetOf(v) == k
      && InAgeOrder(p.algo, s.history, rest) && ToSet(rest) == ToSet(s.lists[k]) - {v}
      && FairEviction(p, s.history, v)
  {
    hide Resident, HistoryOk, BalanceOk, WayOf, FreeWay, Stamp, InAgeOrder, IsOldest;
    FullSet(p, s, k);
    assert SetOk(p, s.history, k, s.cache[k], s.lists[k]);
    assert s.cache[k][0] in ToSet(s.cache[k]);
    assert s.cache[k][0] in s.lists[k];
    VictimIsOldest(p.algo, s.history, s.lists[k]);
    var (v, rest) := Victim(p.algo, s.lists[k]);
    assert v in s.lists[k] && v in s.cache[k];
    var i :| 0 <= i < |s.cache[k]| && s.cache[k][i] == v;
  }

  lemma VictimFillKeepsInv(p: Params, s: State, a: nat)
    requires p.Valid() && Inv(p, s) && a in s.inFlight && !p.algo.RRIP?
    ensures a in s.asked && s.Shaped(p)
    ensures var b := BlockOf(s.asked[a]);
      FreeWay(s.cache[p.SetOf(b)], 0) == p.ways ==> Cached(p, FillByList(p, s, p.SetOf(b), b).(inFlight := s.inFlight - {a}), b)
  {
    hide Inv, Resident, Access, FreeWay, WayOf, FairEviction, Victim, InAgeOrder;
    InvShaped(p, s);
    InFlightNotCached(p, s, a);
    var b := BlockOf(s.asked[a]);
    var k := p.SetOf(b);
    if FreeWay(s.cache[k], 0) == p.ways {
      VictimOfFullSet(p, s, k);
      var (v, rest) := Victim(p.algo, s.lists[k]);
      var w := WayOf(s.cache[k], v, 0);
      EvictKeepsInv(p, s, k, w, rest);
      var t := Emptied(s, k, w, rest);
      ResidentNext(s.history, Evict(v));
      var list := Access(p.algo, rest, b);
      FillKeepsInv(p, t, k, w, b, list);
      TwoSteps(p, s, k, w, b, rest, list);
      assert FillByList(p, s, k, b).(inFlight := s.inFlight - {a}) == Filled(p, t, k, w, b, list);
    }
  }

  /** Replacing a block is evicting it and filling its way. */
  lemma TwoSteps(p: Params, s: State, k: nat, w: nat, b: Block, rest: seq<Block>, list: seq<Block>)
    requires s.Shaped(p) && k < p.sets && w < p.ways && !s.cache[k][w].Unused()
    ensures Filled(p, Emptied(s, k, w, rest), k, w, b, list)
         == Place(p, s, k, w, b).(lists := s.lists[k := list], inFlight := s.inFlight - {p.addressOf(b)})
  {
    var row := s.cache[k];
    assert row[w := UNUSED][w := b] == row[w := b];
    var c := s.cache[k := row[w := UNUSED]];
    assert c[k := c[k][w := b]] == s.cache[k := row[w := b]];
    assert s.lists[k := rest][k := list] == s.lists[k := list];
  }

  lemma ReplaceKeepsInv(p: Params, s: State, k: nat, w: nat, b: Block)
    requires p.Valid() && Inv(p, s) && p.algo.RRIP? && b.col >= 0 && k == p.SetOf(b) && w < p.ways
    requires p.addressOf(b) in s.inFlight && b !in Resident(s.history)
    ensures s.Shaped(p) && Cached(p, Place(p, s, k, w, b).(inFlight := s.inFlight - {p.addressOf(b)}), b)
  {
    hide Inv, Resident, FairEviction;
    InvShaped(p, s);
    assert s.lists[k := s.lists[k]] == s.lists;
    if s.cache[k][w].Unused() {
      FillKeepsInv(p, s, k, w, b, s.lists[k]);
      assert s.history + [] + [Fill(b)] == s.history + [Fill(b)];
    } else {
      EvictKeepsInv(p, s, k, w, s.lists[k]);
      var t := Emptied(s, k, w, s.lists[k]);
      ResidentNext(s.history, Evict(s.cache[k][w]));
      FillKeepsInv(p, t, k, w, b, s.lists[k]);
      TwoSteps(p, s, k, w, b, s.lists[k], s.lists[k]);
    }
  }

  lemma PredictionFillKeepsInv(p: Params, s: State, a: nat)
    requires p.Valid() && Inv(p, s) && a in s.inFlight && p.algo.RRIP?
    ensures a in s.asked && s.Shaped(p)
    ensures var b := BlockOf(s.asked[a]);
      Cached(p, FillByPrediction(p, s, p.SetOf(b), b).(inFlight := s.inFlight - {a}), b)
  {
    hide Inv, Resident, RripReplace, FairEviction, PredictionsAllOk, Place;
    InvShaped(p, s);
    InFlightNotCached(p, s, a);
    var b := BlockOf(s.asked[a]);
    var k := p.SetOf(b);
    RripChoice(p, s, k);
    var w, row := RripReplace(s.predictions[k]).0, RripReplace(s.predictions[k]).1;
    ReplaceKeepsInv(p, s, k, w, b);
    var u := Place(p, s, k, w, b).(inFlight := s.inFlight - {a});
    var v := u.(predictions := s.predictions[k := row]);
    SamePredictions(s.(predictions := s.predictions[k := row]), v);
    FlagsKeepInv(p, u, v);
  }

  lemma SamePredictions(s: State, t: State)
    requires PredictionsAllOk(s) && s.predictions == t.predictions
    ensures PredictionsAllOk(t)
  {
  }

  lemma RripChoice(p: Params, s: State, k: nat)
    requires Inv(p, s) && k < p.sets
    ensures var (w, row) := RripReplace(s.predictions[k]);
      && w < p.ways && PredictionsAllOk(s.(predictions := s.predictions[k := row]))
      && s.(predictions := s.predictions[k := row]).Shaped(p)
  {
    hide SetsOk, Resident, BalanceOk, HistoryOk;
    RripReplaceKeepsRange(s.predictions[k]);
  }

  /** Data that arrive for an address in flight are cached, replacing the right block if need be. */
  lemma ReceiveBlockKeepsInv(p: Params, s: State, a: nat)
    requires p.Valid() && Inv(p, s) && a in s.inFlight
    ensures a in s.asked && s.Shaped(p) && Inv(p, ReceiveBlock(p, s, a))
    ensures BlockOf(s.asked[a]) in Resident(ReceiveBlock(p, s, a).history)
  {
    hide Inv, Resident, FillByList, FillByPrediction;
    InvShaped(p, s);
    InFlightNotCached(p, s, a);
    var b := BlockOf(s.asked[a]);
    if p.algo.RRIP? {
      PredictionFillKeepsInv(p, s, a);
    } else {
      FreeFillKeepsInv(p, s, a);
      VictimFillKeepsInv(p, s, a);
    }
    var t := FillBlock(p, s, b).(inFlight := s.inFlight - {a});
    InvPredictions(p, t);
    FlagsKeepInv(p, t, ReceiveBlock(p, s, a));
  }

  lemma InvPredictions(p: Params, s: State)
    requires Inv(p, s)
    ensures PredictionsAllOk(s) && s.Shaped(p) && !s.broken
  {
  }

  // ---- edges go out

  /** The flag is raised exactly when the block of the oldest edge is resident; a block that is neither resident
      nor on its way is asked for. */
  lemma CheckKeepsInv(p: Params, s: State)
    requires p.Valid() && Inv(p, s)
    ensures s.Shaped(p) && Inv(p, CheckTransfer(p, s))
    ensures CheckTransfer(p, s).canTransfer <==> s.waiting != [] && BlockOf(s.waiting[0]) in Resident(s.history)
    ensures var lacking := s.waiting != [] && BlockOf(s.waiting[0]) !in Resident(s.history)
                           && s.waiting[0].address !in s.inFlight;
      CheckTransfer(p, s) == (if lacking then Ask(s, s.waiting[0]) else s).(canTransfer := CheckTransfer(p, s).canTransfer)
  {
    hide Inv, Resident, WayOf, PredictionsOk;
    InvShaped(p, s);
    InvPredictions(p, s);
    var t := CheckTransfer(p, s);
    if s.waiting == [] {
      FlagsKeepInv(p, s, t);
    } else {
      var e := s.waiting[0];
      FoundIffResident(p, s, BlockOf(e));
      if !t.canTransfer && e.address !in s.inFlight {
        AskKeepsInv(p, s, e);
        FlagsKeepInv(p, Ask(s, e), t);
      } else {
        FlagsKeepInv(p, s, t);
      }
    }
  }

  lemma TransferKeepsInv(p: Params, s: State)
    requires Inv(p, s) && s.waiting != []
    ensures Inv(p, TransferEdge(s))
  {
    hide SetsOk, Resident, BalanceOk, HistoryOk, PredictionsOk;
  }

  // ---- runs

  /** What the outside does: hand over an edge, deliver the data of an address, ask whether the next edge
      can go, take it.  Deliveries of addresses nobody asked for and takes from an empty queue do not occur. */
  datatype Op = Edges(e: Edge) | Data(address: nat) | Check | Take

  predicate Enabled(p: Params, s: State, op: Op) {
    match op
    case Edges(e) => p.Knows(e)
    case Data(a) => a in s.inFlight
    case Check => true
    case Take => s.waiting != []
  }

  ghost function Step(p: Params, s: State, op: Op): (t: State)
    requires p.Valid() && Inv(p, s)
    ensures Inv(p, t)
  {
    hide Inv, Resident;
    InvShaped(p, s);
    if !Enabled(p, s, op) then s
    else match op
      case Edges(e) => ReceiveEdgeKeepsInv(p, s, e); ReceiveEdge(p, s, e)
      case Data(a) => ReceiveBlockKeepsInv(p, s, a); ReceiveBlock(p, s, a)
      case Check => CheckKeepsInv(p, s); CheckTransfer(p, s)
      case Take => TransferKeepsInv(p, s); TransferEdge(s)
  }

  ghost function After(p: Params, ops: seq<Op>): (s: State)
    requires p.Valid()
    ensures Inv(p, s)
    decreases |ops|
  {
    InitialInv(p);
    hide Inv;
    if ops == [] then Initial(p) else Step(p, After(p, ops[..|ops|-1]), ops[|ops|-1])
  }

  /** On every run: no set holds a block twice, an address in flight is not cached, the list of a set holds
      exactly its cached blocks, no victim is ever taken from an empty list, and predictions stay in 0..3. */
  lemma BufferAgrees(p: Params, ops: seq<Op>, k: nat)
    requires p.Valid() && k < p.sets
    ensures var s := After(p, ops);
      && !s.broken && s.Shaped(p)
      && (forall v, w :: 0 <= v < w < p.ways && s.cache[k][v] == s.cache[k][w] ==> s.cache[k][v].Unused())
      && (forall a :: a in s.inFlight ==> a in s.asked && BlockOf(s.asked[a]) !in s.cache[p.SetOf(BlockOf(s.asked[a]))])
      && (!p.algo.RRIP? ==> forall b: Block :: b in s.lists[k] <==> b in s.cache[k] && !b.Unused())
      && PredictionsOk(s.predictions[k])
  {
    hide After, Resident, HistoryOk, BalanceOk, InAgeOrder;
    var s := After(p, ops);
    assert SetOk(p, s.history, k, s.cache[k], s.lists[k]);
    forall a | a in s.inFlight ensures BlockOf(s.asked[a]) !in s.cache[p.SetOf(BlockOf(s.asked[a]))] {
      InFlightNotCached(p, s, a);
    }
  }

  /** On every run each evicted block was, among the blocks then in its full set, the one used (LRU) or
      filled (FIFO) longest ago. */
  lemma EvictionsAreFair(p: Params, ops: seq<Op>, i: nat)
    requires p.Valid() && !p.algo.RRIP? && i < |After(p, ops).history| && After(p, ops).history[i].Evict?
    ensures var h := After(p, ops).history;
      var rivals := ResidentsOf(p, h[..i], p.SetOf(h[i].block));
      IsOldest(p.algo, h[..i], h[i].block, rivals) && |rivals| == p.ways
  {
    hide After, Resident, SetsOk, BalanceOk, IsOldest;
    var h := After(p, ops).history;
    assert EventOk(p, h[..i], h[i]);
  }

  /** On every run a block has at most one request outstanding, exactly when its address is in flight; it is
      requested only while not cached and filled only when requested. */
  lemma RequestsAreSingle(p: Params, ops: seq<Op>, b: Block)
    requires p.Valid()
    ensures var s := After(p, ops);
      && Requests(s.history, b) == Fills(s.history, b) + (if p.addressOf(b) in s.inFlight then 1 else 0)
      && (forall i :: 0 <= i < |s.history| && s.history[i].Request? ==> s.history[i].block !in Resident(s.history[..i]))
  {
    hide After, Resident, SetsOk, Requests, Fills;
    var s := After(p, ops);
    forall i | 0 <= i < |s.history| && s.history[i].Request? ensures s.history[i].block !in Resident(s.history[..i]) {
      assert EventOk(p, s.history[..i], s.history[i]);
    }
  }

  /** The caller hands over edges only while the buffer says it can receive. */
  ghost predicate Patient(p: Params, ops: seq<Op>)
    requires p.Valid()
  {
    forall n :: 0 <= n < |ops| && ops[n].Edges? ==> After(p, ops[..n]).canReceive
  }

  predicate RoomOk(s: State) {
    |s.waiting| <= QUEUE_LIMIT && (s.canReceive <==> |s.waiting| < QUEUE_LIMIT)
  }

  lemma StepKeepsRoom(p: Params, s: State, op: Op)
    requires p.Valid() && Inv(p, s) && RoomOk(s) && (op.Edges? ==> s.canReceive)
    ensures RoomOk(Step(p, s, op))
  {
    hide Inv, Resident, FillByList, FillByPrediction, WayOf;
    InvShaped(p, s);
    if Enabled(p, s, op) {
      match op
      case Edges(e) => EdgeMeaning(p, s, e);
      case Data(a) => InFlightNotCached(p, s, a);
      case Check => CheckKeepsInv(p, s);
      case Take =>
    }
  }

  /** On every run of a patient caller the queue holds at most 32 edges, and the buffer can receive exactly while
      it holds fewer. */
  lemma {:induction false} PatienceBoundsQueue(p: Params, ops: seq<Op>)
    requires p.Valid() && Patient(p, ops)
    ensures RoomOk(After(p, ops))
    decreases |ops|
  {
    hide Inv, Step, Resident;
    if ops != [] {
      var most := ops[..|ops| - 1];
      forall n | 0 <= n < |most| && most[n].Edges? ensures After(p, most[..n]).canReceive {
        assert most[..n] == ops[..n] && most[n] == ops[n];
      }
      PatienceBoundsQueue(p, most);
      StepKeepsRoom(p, After(p, most), ops[|ops| - 1]);
    }
  }

  /** The edges handed over so far, and how many of them have been taken. */
  function Handed(p: Params, ops: seq<Op>): seq<Edge> {
    if ops == [] then []
    else
      var op := ops[|ops| - 1];
      Handed(p, ops[..|ops| - 1]) + (if op.Edges? && p.Knows(op.e) then [op.e] else [])
  }

  ghost function TakenCount(p: Params, ops: seq<Op>): nat
    requires p.Valid()
  {
    if ops == [] then 0
    else
      var most := ops[..|ops| - 1];
      TakenCount(p, most) + (if ops[|ops| - 1].Take? && After(p, most).waiting != [] then 1 else 0)
  }

  lemma StepQueue(p: Params, s: State, op: Op)
    requires p.Valid() && Inv(p, s)
    ensures Step(p, s, op).waiting
         == if op.Edges? && p.Knows(op.e) then s.waiting + [op.e]
            else if op.Take? && s.waiting != [] then s.waiting[1..] else s.waiting
  {
    hide Inv, Resident, FillByList, FillByPrediction, WayOf;
    InvShaped(p, s);
    if Enabled(p, s, op) {
      match op
      case Edges(e) => EdgeMeaning(p, s, e);
      case Data(a) => InFlightNotCached(p, s, a);
      case Check => CheckKeepsInv(p, s);
      case Take =>
    }
  }

  /** On every run the edges waiting are those handed over and not yet taken, in the order they came. */
  lemma {:induction false} EdgesLeaveInOrder(p: Params, ops: seq<Op>)
    requires p.Valid()
    ensures TakenCount(p, ops) <= |Handed(p, ops)| && After(p, ops).waiting == Handed(p, ops)[TakenCount(p, ops)..]
    decreases |ops|
  {
    hide Inv, Step;
    if ops != [] {
      EdgesLeaveInOrder(p, ops[..|ops| - 1]);
      StepQueue(p, After(p, ops[..|ops| - 1]), ops[|ops| - 1]);
    }
  }

  // ---- no transfer is missed

  /** While the flag is down the next edge cannot go: its block is not resident. */
  ghost predicate NoneMissed(s: State) {
    !s.canTransfer && s.waiting != [] ==> BlockOf(s.waiting[0]) !in Resident(s.history)
  }

  /** Arriving data raise the flag exactly if they are those of the next edge; only their block becomes resident. */
  lemma DataMeaning(p: Params, s: State, a: nat)
    requires p.Valid() && Inv(p, s) && a in s.inFlight
    ensures a in s.asked && s.Shaped(p)
    ensures var t := ReceiveBlock(p, s, a);
      && t.waiting == s.waiting && t.inFlight == s.inFlight - {a}
      && (t.canTransfer <==> s.canTransfer || (s.waiting != [] && s.waiting[0].address == a))
      && forall c :: c in Resident(t.history) ==> c in Resident(s.history) || c == BlockOf(s.asked[a])
  {
    hide Inv, Resident, FillByList, FillByPrediction;
    InvShaped(p, s);
    InFlightNotCached(p, s, a);
    var b := BlockOf(s.asked[a]);
    PredictionAdmitsOne(p, s, p.SetOf(b), b);
    ListAdmitsOne(p, s, p.SetOf(b), b);
  }

  lemma PlaceAdmitsOne(p: Params, s: State, k: nat, w: nat, b: Block)
    requires s.Shaped(p) && k < p.sets && w < p.ways
    ensures forall c :: c in Resident(Place(p, s, k, w, b).history) ==> c in Resident(s.history) || c == b
    ensures Place(p, s, k, w, b).canTransfer == s.canTransfer
  {
    hide Resident;
    var out := s.cache[k][w];
    ResidentNext(s.history, Evict(out));
    ResidentNext(s.history + [Evict(out)], Fill(b));
    ResidentNext(s.history, Fill(b));
    assert s.history + [] == s.history;
  }

  /** `t` has no new resident but `b`, and the flag of `s`. */
  ghost predicate AdmitsOnly(s: State, t: State, b: Block) {
    t.canTransfer == s.canTransfer && forall c :: c in Resident(t.history) ==> c in Resident(s.history) || c == b
  }

  lemma PredictionAdmitsOne(p: Params, s: State, k: nat, b: Block)
    requires s.Shaped(p) && k < p.sets
    ensures AdmitsOnly(s, FillByPrediction(p, s, k, b), b)
  {
    hide Resident, Place;
    var w := RripReplace(s.predictions[k]).0;
    PlaceAdmitsOne(p, s, k, w, b);
  }

  lemma ListAdmitsOne(p: Params, s: State, k: nat, b: Block)
    requires s.Shaped(p) && k < p.sets
    ensures AdmitsOnly(s, FillByList(p, s, k, b), b)
  {
    hide Resident, WayOf, FreeWay, Victim, Access, Place;
    forall w: nat | w < p.ways ensures AdmitsOnly(s, Place(p, s, k, w, b), b) {
      PlaceAdmitsOne(p, s, k, w, b);
    }
  }

  /** The caller takes an edge only while the flag is up. */
  ghost predicate Careful(p: Params, ops: seq<Op>)
    requires p.Valid()
  {
    forall n :: 0 <= n < |ops| && ops[n].Take? ==> After(p, ops[..n]).canTransfer
  }

  lemma StepMissesNone(p: Params, s: State, op: Op)
    requires p.Valid() && Inv(p, s) && NoneMissed(s) && (op.Take? ==> s.canTransfer)
    ensures NoneMissed(Step(p, s, op))
  {
    hide Inv, Resident, ReceiveEdge, ReceiveBlock, CheckTransfer;
    InvShaped(p, s);
    if Enabled(p, s, op) {
      match op
      case Edges(e) =>
        EdgeMeaning(p, s, e);
        ResidentNext(s.history, Hit(BlockOf(e)));
        ResidentNext(s.history, Request(BlockOf(e)));
      case Data(a) =>
        InFlightNotCached(p, s, a);
        DataMeaning(p, s, a);
      case Check =>
        CheckKeepsInv(p, s);
        if s.waiting != [] {
          ResidentNext(s.history, Request(BlockOf(s.waiting[0])));
        }
      case Take =>
    }
  }

  /** On every run of a careful caller no transfer is missed: whenever the next edge's block is resident the flag
      is up. */
  lemma {:induction false} NoTransferMissed(p: Params, ops: seq<Op>)
    requires p.Valid() && Careful(p, ops)
    ensures NoneMissed(After(p, ops))
    decreases |ops|
  {
    hide Inv, Step, Resident;
    if ops != [] {
      var most := ops[..|ops| - 1];
      forall n | 0 <= n < |most| && most[n].Take? ensures After(p, most[..n]).canTransfer {
        assert most[..n] == ops[..n] && most[n] == ops[n];
      }
      NoTransferMissed(p, most);
      StepMissesNone(p, After(p, most), ops[|ops| - 1]);
    }
  }
}
