/** Re-reference predictions against the history of the buffer: what a way holds is what the latest hit or
    fill of its block and the evictions since then make of it, and evictions follow it. */
module RripRuns {
  import opened Replacement
  import opened Buffer
  import opened BufferRuns

  // ---- the prediction of a block over the history

  /** How far away the next use of `b` is predicted to be: 0 after a hit, 2 after a fill, and raised by every
      eviction of another block of its set by what the victim lacked to 3. */
  function Prediction(p: Params, h: seq<Event>, b: Block): int
    requires p.sets > 0
    decreases |h|
  {
    if h == [] then 3
    else
      var most, e := h[..|h| - 1], h[|h| - 1];
      if e.Hit? && e.block == b then 0
      else if e.Fill? && e.block == b then 2
      else if e.Evict? && e.block != b && p.SetOf(e.block) == p.SetOf(b) then
        Prediction(p, most, b) + 3 - Prediction(p, most, e.block)
      else Prediction(p, most, b)
  }

  lemma PredictionNext(p: Params, h: seq<Event>, e: Event, b: Block)
    requires p.sets > 0
    ensures Prediction(p, h + [e], b)
         == if e.Hit? && e.block == b then 0
            else if e.Fill? && e.block == b then 2
            else if e.Evict? && e.block != b && p.SetOf(e.block) == p.SetOf(b) then
              Prediction(p, h, b) + 3 - Prediction(p, h, e.block)
            else Prediction(p, h, b)
  {
    assert (h + [e])[..|h|] == h;
  }

  // ---- one set

  predicate SomeUnused(row: seq<Block>) {
    exists w :: 0 <= w < |row| && row[w].Unused()
  }

  /** Unused ways hold 3, used ways the prediction of their block, which is below 3 as long as any way is
      unused. */
  predicate RowPredicted(p: Params, h: seq<Event>, row: seq<Block>, preds: seq<int>)
    requires p.sets > 0
  {
    && |preds| == |row|
    && forall w :: 0 <= w < |row| ==>
         if row[w].Unused() then preds[w] == 3
         else preds[w] == Prediction(p, h, row[w]) && (SomeUnused(row) ==> preds[w] <= 2)
  }

  /** Events that do not age the set or renew its blocks leave it alone. */
  lemma OtherKeepsRow(p: Params, h: seq<Event>, k: nat, row: seq<Block>, preds: seq<int>, e: Event)
    requires p.sets > 0 && CellsOk(p, k, row) && RowPredicted(p, h, row, preds)
    requires e.Request? || p.SetOf(e.block) != k
    ensures RowPredicted(p, h + [e], row, preds)
  {
    hide Prediction, Params.SetOf;
    forall w | 0 <= w < |row| && !row[w].Unused() ensures Prediction(p, h + [e], row[w]) == Prediction(p, h, row[w]) {
      PredictionNext(p, h, e, row[w]);
    }
  }

  lemma HitKeepsRow(p: Params, h: seq<Event>, k: nat, row: seq<Block>, preds: seq<int>, w: nat)
    requires p.sets > 0 && CellsOk(p, k, row) && RowPredicted(p, h, row, preds)
    requires w < |row| && !row[w].Unused()
    ensures RowPredicted(p, h + [Hit(row[w])], row, preds[w := 0])
  {
    hide Prediction, Params.SetOf;
    forall i | 0 <= i < |row| && !row[i].Unused()
      ensures Prediction(p, h + [Hit(row[w])], row[i]) == if i == w then 0 else preds[i]
    {
      PredictionNext(p, h, Hit(row[w]), row[i]);
    }
  }

  /** A block comes into an unused way, which is what a replacement picks while there is one. */
  lemma FillKeepsRow(p: Params, h: seq<Event>, k: nat, row: seq<Block>, preds: seq<int>, b: Block)
    requires p.sets > 0 && CellsOk(p, k, row) && RowPredicted(p, h, row, preds) && PredictionsOk(preds)
    requires row != [] && b !in row && !b.Unused() && SomeUnused(row)
    ensures var (w, preds') := RripReplace(preds);
      w < |row| && row[w].Unused() && RowPredicted(p, h + [Fill(b)], row[w := b], preds')
  {
    hide Prediction, RripReplace, Params.SetOf;
    ReplaceEntries(preds);
    var (w, preds') := RripReplace(preds);
    var u :| 0 <= u < |row| && row[u].Unused();
    assert preds[u] == 3 && preds[w] == 3;
    forall i | 0 <= i < |row| && !row[i].Unused() ensures Prediction(p, h + [Fill(b)], row[i]) == preds[i] {
      PredictionNext(p, h, Fill(b), row[i]);
    }
    PredictionNext(p, h, Fill(b), b);
    var row' := row[w := b];
    assert SomeUnused(row') ==> forall i :: 0 <= i < |row'| && !row'[i].Unused() ==> preds'[i] <= 2;
  }

  lemma ReplaceEntries(row: seq<int>)
    requires row != [] && PredictionsOk(row)
    ensures var (w, row') := RripReplace(row);
      && w < |row| == |row'| && row'[w] == 2 && PredictionsOk(row')
      && (forall i :: 0 <= i < |row| && i != w ==> row'[i] == row[i] + 3 - row[w])
      && (forall i :: 0 <= i < |row| ==> row[i] <= row[w])
      && (forall i :: 0 <= i < w ==> row[i] < row[w])
  {
    RripReplaceKeepsRange(row);
  }

  lemma EvictedRow(p: Params, h: seq<Event>, k: nat, row: seq<Block>, preds: seq<int>, w: nat, i: nat)
    requires p.sets > 0 && CellsOk(p, k, row) && RowPredicted(p, h, row, preds)
    requires w < |row| && i < |row| && i != w && !row[w].Unused() && !row[i].Unused()
    ensures Prediction(p, h + [Evict(row[w])], row[i]) == preds[i] + 3 - preds[w]
  {
    hide Prediction, Params.SetOf;
    PredictionNext(p, h, Evict(row[w]), row[i]);
    if w < i {
      assert row[w] != row[i];
    } else {
      assert row[i] != row[w];
    }
  }

  /** A full set gives up the block with the largest prediction, and the others age by what it lacked to 3. */
  lemma EvictKeepsRow(p: Params, h: seq<Event>, k: nat, row: seq<Block>, preds: seq<int>, b: Block)
    requires p.sets > 0 && CellsOk(p, k, row) && RowPredicted(p, h, row, preds) && PredictionsOk(preds)
    requires row != [] && b !in row && !b.Unused() && !SomeUnused(row)
    ensures var (w, preds') := RripReplace(preds);
      && w < |row| && !row[w].Unused()
      && RowPredicted(p, h + [Evict(row[w])] + [Fill(b)], row[w := b], preds')
      && forall c :: c in row ==> Prediction(p, h, c) <= Prediction(p, h, row[w])
  {
    hide Prediction, RripReplace, Params.SetOf, CellsOk;
    ReplaceEntries(preds);
    var (w, preds') := RripReplace(preds);
    var h1 := h + [Evict(row[w])];
    forall i | 0 <= i < |row| && i != w ensures Prediction(p, h1 + [Fill(b)], row[i]) == preds'[i] {
      EvictedRow(p, h, k, row, preds, w, i);
      PredictionNext(p, h1, Fill(b), row[i]);
    }
    PredictionNext(p, h1, Fill(b), b);
    FullStaysFull(row, w, b);
  }

  lemma FullStaysFull(row: seq<Block>, w: nat, b: Block)
    requires w < |row| && !SomeUnused(row) && !b.Unused()
    ensures !SomeUnused(row[w := b])
  {
  }

  // ---- all sets

  ghost predicate Predicted(p: Params, h: seq<Event>, cache: seq<seq<Block>>, predictions: seq<seq<int>>)
    requires p.sets > 0
  {
    |cache| == |predictions| == p.sets && forall k: nat :: k < p.sets ==> RowPredicted(p, h, cache[k], predictions[k])
  }

  /** The block evicted was resident in a full set, and no resident of the set had a larger prediction. */
  ghost predicate FarthestEvicted(p: Params, h: seq<Event>, v: Block)
    requires p.sets > 0
  {
    var rivals := ResidentsOf(p, h, p.SetOf(v));
    && v in rivals && |rivals| == p.ways && 0 <= Prediction(p, h, v) <= 3
    && forall c :: c in rivals ==> Prediction(p, h, c) <= Prediction(p, h, v)
  }

  ghost predicate EvictionsOk(p: Params, h: seq<Event>)
    requires p.sets > 0
  {
    forall i :: 0 <= i < |h| && h[i].Evict? ==> FarthestEvicted(p, h[..i], h[i].block)
  }

  lemma EvictionsNext(p: Params, h: seq<Event>, e: Event)
    requires p.sets > 0 && EvictionsOk(p, h) && (e.Evict? ==> FarthestEvicted(p, h, e.block))
    ensures EvictionsOk(p, h + [e])
  {
    hide FarthestEvicted;
    forall i | 0 <= i < |h + [e]| && (h + [e])[i].Evict? ensures FarthestEvicted(p, (h + [e])[..i], (h + [e])[i].block) {
      assert i < |h| ==> (h + [e])[..i] == h[..i];
      assert i == |h| ==> (h + [e])[..i] == h;
    }
  }

  ghost predicate RripOk(p: Params, s: State)
    requires p.sets > 0
  {
    Predicted(p, s.history, s.cache, s.predictions) && EvictionsOk(p, s.history)
  }

  lemma InvCells(p: Params, s: State, k: nat)
    requires Inv(p, s) && k < p.sets
    ensures s.Shaped(p) && CellsOk(p, k, s.cache[k]) && PredictionsOk(s.predictions[k])
  {
    hide HistoryOk, BalanceOk;
    assert SetOk(p, s.history, k, s.cache[k], s.lists[k]);
  }

  /** Set `k` changes by events of its own; the other sets do not notice. */
  lemma OneRowChanges(p: Params, s: State, e: Event, k: nat, row: seq<Block>, preds: seq<int>)
    requires p.Valid() && Inv(p, s) && Predicted(p, s.history, s.cache, s.predictions)
    requires k < p.sets && (e.Request? || p.SetOf(e.block) == k)
    requires s.Shaped(p) && RowPredicted(p, s.history + [e], row, preds)
    ensures Predicted(p, s.history + [e], s.cache[k := row], s.predictions[k := preds])
  {
    hide Inv, RowPredicted, CellsOk, PredictionsOk;
    var cache, predictions := s.cache[k := row], s.predictions[k := preds];
    forall j: nat | j < p.sets ensures RowPredicted(p, s.history + [e], cache[j], predictions[j]) {
      if j != k {
        InvCells(p, s, j);
        OtherKeepsRow(p, s.history, j, s.cache[j], s.predictions[j], e);
      }
    }
  }

  lemma AskKeepsRrip(p: Params, s: State, e: Edge)
    requires p.Valid() && Inv(p, s) && RripOk(p, s)
    ensures RripOk(p, Ask(s, e))
  {
    hide Inv, RowPredicted, CellsOk, PredictionsOk, EvictionsOk;
    var r := Request(BlockOf(e));
    InvShaped(p, s);
    forall j: nat | j < p.sets ensures RowPredicted(p, s.history + [r], s.cache[j], s.predictions[j]) {
      InvCells(p, s, j);
      OtherKeepsRow(p, s.history, j, s.cache[j], s.predictions[j], r);
    }
    EvictionsNext(p, s.history, r);
  }

  lemma UseKeepsRrip(p: Params, s: State, k: nat, w: nat, b: Block)
    requires p.Valid() && p.algo.RRIP? && Inv(p, s) && RripOk(p, s)
    requires b.col >= 0 && k == p.SetOf(b) && w < p.ways && s.Shaped(p) && s.cache[k][w] == b
    ensures RripOk(p, Use(p, s, k, w, b))
  {
    hide Inv, RowPredicted, CellsOk, PredictionsOk, EvictionsOk;
    InvCells(p, s, k);
    HitKeepsRow(p, s.history, k, s.cache[k], s.predictions[k], w);
    OneRowChanges(p, s, Hit(b), k, s.cache[k], s.predictions[k][w := 0]);
    assert s.cache[k := s.cache[k]] == s.cache;
    EvictionsNext(p, s.history, Hit(b));
  }

  lemma FillKeepsRrip(p: Params, s: State, k: nat, b: Block)
    requires p.Valid() && p.algo.RRIP? && Inv(p, s) && RripOk(p, s)
    requires b.col >= 0 && k == p.SetOf(b) && s.Shaped(p) && b !in s.cache[k] && SomeUnused(s.cache[k])
    ensures RripOk(p, FillByPrediction(p, s, k, b))
  {
    hide Inv, RowPredicted, CellsOk, PredictionsOk, EvictionsOk, RripReplace, SomeUnused;
    InvCells(p, s, k);
    FillKeepsRow(p, s.history, k, s.cache[k], s.predictions[k], b);
    var (w, row) := RripReplace(s.predictions[k]);
    OneRowChanges(p, s, Fill(b), k, s.cache[k][w := b], row);
    assert s.history + [] + [Fill(b)] == s.history + [Fill(b)];
    EvictionsNext(p, s.history, Fill(b));
  }

  lemma FullRow(p: Params, s: State, k: nat)
    requires Inv(p, s) && k < p.sets && s.Shaped(p) && !SomeUnused(s.cache[k])
    ensures ResidentsOf(p, s.history, k) == ToSet(s.cache[k]) && |ResidentsOf(p, s.history, k)| == p.ways
  {
    hide Inv;
    InvShaped(p, s);
    FullSet(p, s, k);
  }

  lemma EvictKeepsRrip(p: Params, s: State, k: nat, b: Block)
    requires p.Valid() && p.algo.RRIP? && Inv(p, s) && RripOk(p, s)
    requires b.col >= 0 && k == p.SetOf(b) && s.Shaped(p) && b !in s.cache[k] && !SomeUnused(s.cache[k])
    ensures RripOk(p, FillByPrediction(p, s, k, b))
  {
    hide Inv, RowPredicted, CellsOk, PredictionsOk, EvictionsOk, RripReplace, SomeUnused, Prediction;
    InvCells(p, s, k);
    var (w, row) := RripReplace(s.predictions[k]);
    EvictKeepsRow(p, s.history, k, s.cache[k], s.predictions[k], b);
    var v, h := s.cache[k][w], s.history;
    FullRow(p, s, k);
    VictimIsFarthest(p, s, k, w);
    EvictionsNext(p, h, Evict(v));
    EvictionsNext(p, h + [Evict(v)], Fill(b));
    OtherRows(p, s, k, v, b);
    var t := FillByPrediction(p, s, k, b);
    assert t.history == h + [Evict(v)] + [Fill(b)];
    forall j: nat | j < p.sets ensures RowPredicted(p, t.history, t.cache[j], t.predictions[j]) {
    }
  }

  lemma VictimIsFarthest(p: Params, s: State, k: nat, w: nat)
    requires Inv(p, s) && k < p.sets && s.Shaped(p) && w < p.ways && !s.cache[k][w].Unused()
    requires ResidentsOf(p, s.history, k) == ToSet(s.cache[k]) && |ResidentsOf(p, s.history, k)| == p.ways
    requires forall c :: c in s.cache[k] ==> Prediction(p, s.history, c) <= Prediction(p, s.history, s.cache[k][w])
    requires RowPredicted(p, s.history, s.cache[k], s.predictions[k])
    ensures p.SetOf(s.cache[k][w]) == k && FarthestEvicted(p, s.history, s.cache[k][w])
  {
    hide Inv, Prediction;
    InvCells(p, s, k);
  }

  lemma OtherRows(p: Params, s: State, k: nat, v: Block, b: Block)
    requires p.Valid() && Inv(p, s) && Predicted(p, s.history, s.cache, s.predictions) && s.Shaped(p)
    requires k < p.sets && p.SetOf(v) == k && p.SetOf(b) == k
    ensures forall j: nat :: j < p.sets && j != k ==>
      RowPredicted(p, s.history + [Evict(v)] + [Fill(b)], s.cache[j], s.predictions[j])
  {
    hide Inv, RowPredicted, CellsOk, PredictionsOk;
    forall j: nat | j < p.sets && j != k
      ensures RowPredicted(p, s.history + [Evict(v)] + [Fill(b)], s.cache[j], s.predictions[j])
    {
      InvCells(p, s, j);
      OtherKeepsRow(p, s.history, j, s.cache[j], s.predictions[j], Evict(v));
      OtherKeepsRow(p, s.history + [Evict(v)], j, s.cache[j], s.predictions[j], Fill(b));
    }
  }

  // ---- operations

  lemma ReceiveEdgeKeepsRrip(p: Params, s: State, e: Edge)
    requires p.Valid() && p.algo.RRIP? && Inv(p, s) && RripOk(p, s) && p.Knows(e)
    ensures s.Shaped(p) && RripOk(p, ReceiveEdge(p, s, e))
  {
    hide Inv, RripOk, WayOf, Use;
    InvShaped(p, s);
    EnqueueKeepsInv(p, s, e);
    var q := Enqueue(s, e);
    SameHistory(p, s, q);
    var b := BlockOf(e);
    var w := WayOf(s.cache[p.SetOf(b)], b, 0);
    if w < p.ways {
      UseKeepsRrip(p, q, p.SetOf(b), w, b);
    } else if e.address !in s.inFlight {
      AskKeepsRrip(p, q, e);
    }
  }

  lemma SameHistory(p: Params, s: State, t: State)
    requires p.sets > 0 && RripOk(p, s)
    requires t.history == s.history && t.cache == s.cache && t.predictions == s.predictions
    ensures RripOk(p, t)
  {
    hide Predicted, EvictionsOk;
  }

  lemma ReceiveBlockKeepsRrip(p: Params, s: State, a: nat)
    requires p.Valid() && p.algo.RRIP? && Inv(p, s) && RripOk(p, s) && a in s.inFlight
    ensures a in s.asked && s.Shaped(p) && RripOk(p, ReceiveBlock(p, s, a))
  {
    hide Inv, RripOk, FillByPrediction, SomeUnused;
    InvShaped(p, s);
    InFlightNotCached(p, s, a);
    var b := BlockOf(s.asked[a]);
    var k := p.SetOf(b);
    if SomeUnused(s.cache[k]) {
      FillKeepsRrip(p, s, k, b);
    } else {
      EvictKeepsRrip(p, s, k, b);
    }
    SameHistory(p, FillBlock(p, s, b), ReceiveBlock(p, s, a));
  }

  lemma CheckKeepsRrip(p: Params, s: State)
    requires p.Valid() && Inv(p, s) && RripOk(p, s)
    ensures s.Shaped(p) && RripOk(p, CheckTransfer(p, s))
  {
    hide Inv, RripOk, WayOf;
    InvShaped(p, s);
    if s.waiting != [] {
      AskKeepsRrip(p, s, s.waiting[0]);
      SameHistory(p, Ask(s, s.waiting[0]), Ask(s, s.waiting[0]).(canTransfer := CheckTransfer(p, s).canTransfer));
    }
    if CheckTransfer(p, s).history == s.history {
      SameHistory(p, s, CheckTransfer(p, s));
    }
  }

  lemma TransferKeepsRrip(p: Params, s: State)
    requires p.sets > 0 && RripOk(p, s) && s.waiting != []
    ensures RripOk(p, TransferEdge(s))
  {
    hide RripOk;
    SameHistory(p, s, TransferEdge(s));
  }

  lemma InitialRrip(p: Params)
    requires p.Valid()
    ensures RripOk(p, Initial(p))
  {
  }

  lemma {:induction false} RunRrip(p: Params, ops: seq<Op>)
    requires p.Valid() && p.algo.RRIP?
    ensures RripOk(p, After(p, ops))
    decreases |ops|
  {
    hide Inv, RripOk, ReceiveEdge, ReceiveBlock, CheckTransfer;
    if ops == [] {
      InitialRrip(p);
    } else {
      var s, op := After(p, ops[..|ops| - 1]), ops[|ops| - 1];
      RunRrip(p, ops[..|ops| - 1]);
      if Enabled(p, s, op) {
        match op
        case Edges(e) => ReceiveEdgeKeepsRrip(p, s, e);
        case Data(a) => ReceiveBlockKeepsRrip(p, s, a);
        case Check => CheckKeepsRrip(p, s);
        case Take => TransferKeepsRrip(p, s);
      }
    }
  }

  // ---- on every run

  /** On every run each way holds the prediction that the history makes of its block; unused ways hold 3. */
  lemma PredictionsAreHistory(p: Params, ops: seq<Op>, k: nat, w: nat)
    requires p.Valid() && p.algo.RRIP? && k < p.sets && w < p.ways
    ensures var s := After(p, ops);
      && s.Shaped(p) && 0 <= s.predictions[k][w] <= 3
      && s.predictions[k][w] == if s.cache[k][w].Unused() then 3 else Prediction(p, s.history, s.cache[k][w])
  {
    hide After, Inv, Prediction, EvictionsOk, CellsOk;
    RunRrip(p, ops);
    var s := After(p, ops);
    InvCells(p, s, k);
    assert RowPredicted(p, s.history, s.cache[k], s.predictions[k]);
  }

  /** On every run a block is evicted only from a full set, and only when no block of the set is predicted to
      be used later. */
  lemma VictimsAreFarthest(p: Params, ops: seq<Op>, i: nat)
    requires p.Valid() && p.algo.RRIP? && i < |After(p, ops).history| && After(p, ops).history[i].Evict?
    ensures var h := After(p, ops).history;
      var rivals := ResidentsOf(p, h[..i], p.SetOf(h[i].block));
      && h[i].block in rivals && |rivals| == p.ways
      && forall c :: c in rivals ==> Prediction(p, h[..i], c) <= Prediction(p, h[..i], h[i].block)
  {
    hide After, Inv, Prediction, Predicted, ResidentsOf;
    RunRrip(p, ops);
    var h := After(p, ops).history;
    assert FarthestEvicted(p, h[..i], h[i].block);
  }

  /** Nothing has been evicted from the set of `b`, and `b` has not been filled, since event `j`. */
  predicate QuietSince(p: Params, h: seq<Event>, j: nat, b: Block)
    requires p.sets > 0
  {
    forall i :: j < i < |h| ==>
      !(h[i].Evict? && p.SetOf(h[i].block) == p.SetOf(b)) && h[i] != Fill(b)
  }

  lemma {:induction false} HitIsRemembered(p: Params, h: seq<Event>, j: nat, b: Block)
    requires p.sets > 0 && j < |h| && h[j] == Hit(b) && QuietSince(p, h, j, b)
    ensures Prediction(p, h, b) == 0
    decreases |h|
  {
    hide Params.SetOf;
    if j < |h| - 1 {
      HitIsRemembered(p, h[..|h| - 1], j, b);
    }
  }

  /** On every run a block that was hit, with nothing evicted from its set since, is not the next victim while
      another block of the set has a larger prediction. */
  lemma RecentlyHitStays(p: Params, ops: seq<Op>, j: nat, i: nat, b: Block, c: Block)
    requires p.Valid() && p.algo.RRIP? && j < i < |After(p, ops).history|
    requires var h := After(p, ops).history;
      && h[j] == Hit(b) && QuietSince(p, h[..i], j, b) && h[i].Evict? && p.SetOf(h[i].block) == p.SetOf(b)
      && c in ResidentsOf(p, h[..i], p.SetOf(b)) && Prediction(p, h[..i], c) > 0
    ensures After(p, ops).history[i].block != b
  {
    hide After, Inv, Prediction, ResidentsOf;
    VictimsAreFarthest(p, ops, i);
    var h := After(p, ops).history;
    HitIsRemembered(p, h[..i], j, b);
  }

  /** Block `c` has been neither hit nor evicted since event `m`. */
  predicate UnusedSince(h: seq<Event>, m: nat, c: Block) {
    forall i :: m < i < |h| ==> h[i] != Hit(c) && h[i] != Evict(c)
  }

  lemma {:induction false} FillFadesUpwards(p: Params, h: seq<Event>, m: nat, c: Block)
    requires p.sets > 0 && m < |h| && h[m] == Fill(c) && UnusedSince(h, m, c) && EvictionsOk(p, h)
    ensures Prediction(p, h, c) >= 2
    decreases |h|
  {
    hide Params.SetOf, EvictionsOk;
    var most, e := h[..|h| - 1], h[|h| - 1];
    if m < |h| - 1 {
      EvictionsBefore(p, h);
      FillFadesUpwards(p, most, m, c);
    }
  }

  lemma EvictionsBefore(p: Params, h: seq<Event>)
    requires p.sets > 0 && h != [] && EvictionsOk(p, h)
    ensures EvictionsOk(p, h[..|h| - 1])
    ensures h[|h| - 1].Evict? ==> 0 <= Prediction(p, h[..|h| - 1], h[|h| - 1].block) <= 3
  {
    hide Prediction, ResidentsOf;
    var most := h[..|h| - 1];
    assert h[|h| - 1].Evict? ==> FarthestEvicted(p, most, h[|h| - 1].block);
    forall i | 0 <= i < |most| && most[i].Evict? ensures FarthestEvicted(p, most[..i], most[i].block) {
      assert most[..i] == h[..i] && most[i] == h[i];
    }
  }

  /** On every run a block that was hit, with nothing evicted from its set since, is not the next victim while
      the set holds a block that was filled and never used. */
  lemma HitOutlivesFill(p: Params, ops: seq<Op>, j: nat, i: nat, b: Block, m: nat, c: Block)
    requires p.Valid() && p.algo.RRIP? && j < i < |After(p, ops).history| && m < i
    requires var h := After(p, ops).history;
      && h[j] == Hit(b) && QuietSince(p, h[..i], j, b) && h[i].Evict? && p.SetOf(h[i].block) == p.SetOf(b)
      && h[m] == Fill(c) && UnusedSince(h[..i], m, c) && c in ResidentsOf(p, h[..i], p.SetOf(b))
    ensures After(p, ops).history[i].block != b
  {
    hide After, Inv, Prediction, ResidentsOf, Predicted;
    RunRrip(p, ops);
    var h := After(p, ops).history;
    EvictionsOfPrefix(p, h, i);
    FillFadesUpwards(p, h[..i], m, c);
    RecentlyHitStays(p, ops, j, i, b, c);
  }

  lemma EvictionsOfPrefix(p: Params, h: seq<Event>, i: nat)
    requires p.sets > 0 && i <= |h| && EvictionsOk(p, h)
    ensures EvictionsOk(p, h[..i])
  {
    hide FarthestEvicted;
    forall n | 0 <= n < i && h[..i][n].Evict? ensures FarthestEvicted(p, h[..i][..n], h[..i][n].block) {
      assert h[..i][..n] == h[..n];
    }
  }
}
