/** Replacement state of one cache set: the LRU and FIFO lists against the history of the set, and the
    two-bit re-reference predictions (RRIP). */
module Replacement {

  /** A block is a column of the feature matrix in one fold; `col == -1` marks an unused way. */
  datatype Block = Block(col: int, fold: int) {
    predicate Unused() { col == -1 }
  }

  const UNUSED: Block := Block(-1, -1)

  datatype Algorithm = LRU | FIFO | RRIP

  /** What happens to blocks, in order. */
  datatype Event = Request(block: Block) | Fill(block: Block) | Hit(block: Block) | Evict(block: Block)

  // ---- the history

  /** Whether an event renews a block's age. */
  predicate Renews(algo: Algorithm, e: Event, b: Block) {
    e.block == b && (e.Fill? || (algo.LRU? && e.Hit?))
  }

  /** Position of the latest event that renewed `b`: its latest use under LRU, its latest fill under FIFO. */
  function Stamp(algo: Algorithm, h: seq<Event>, b: Block): (t: int)
    ensures t < |h|
  {
    if h == [] then -1
    else if Renews(algo, h[|h|-1], b) then |h| - 1
    else Stamp(algo, h[..|h|-1], b)
  }

  /** The blocks filled and not evicted since. */
  function Resident(h: seq<Event>): set<Block> {
    if h == [] then {}
    else
      var before, e := Resident(h[..|h|-1]), h[|h|-1];
      if e.Fill? then before + {e.block} else if e.Evict? then before - {e.block} else before
  }

  function Grows(h: seq<Event>, e: Event): set<Block> {
    if e.Fill? then Resident(h) + {e.block} else if e.Evict? then Resident(h) - {e.block} else Resident(h)
  }

  lemma ResidentNext(h: seq<Event>, e: Event)
    ensures Resident(h + [e]) == Grows(h, e)
  {
    assert (h + [e])[..|h|] == h;
  }

  lemma StampNext(algo: Algorithm, h: seq<Event>, e: Event, b: Block)
    ensures Stamp(algo, h + [e], b) == if Renews(algo, e, b) then |h| else Stamp(algo, h, b)
  {
    assert (h + [e])[..|h|] == h;
  }

  /** The list runs from the youngest block to the oldest under LRU, and the other way under FIFO. */
  predicate InAgeOrder(algo: Algorithm, h: seq<Event>, l: seq<Block>) {
    forall i, j :: 0 <= i < j < |l| ==>
      if algo.LRU? then Stamp(algo, h, l[i]) > Stamp(algo, h, l[j]) else Stamp(algo, h, l[i]) < Stamp(algo, h, l[j])
  }

  /** `b` is the block of `among` renewed longest ago. */
  predicate IsOldest(algo: Algorithm, h: seq<Event>, b: Block, among: set<Block>) {
    b in among && forall c :: c in among && c != b ==> Stamp(algo, h, b) < Stamp(algo, h, c)
  }

  function ToSet(l: seq<Block>): set<Block> {
    set b | b in l
  }

  // ---- the lists

  /** The list after scanning from position `i` and erasing every match met; the entry that moves into an
      erased place is skipped. */
  function EraseScan(l: seq<Block>, b: Block, i: nat): seq<Block>
    requires i <= |l|
    decreases |l| - i
  {
    if i == |l| then l
    else if l[i] == b then
      var shorter := l[..i] + l[i+1..];
      if i == |shorter| then shorter else EraseScan(shorter, b, i + 1)
    else EraseScan(l, b, i + 1)
  }

  function LruAccess(l: seq<Block>, b: Block): seq<Block> {
    [b] + EraseScan(l, b, 0)
  }

  /** A block enters the list, or is used again. */
  function Access(algo: Algorithm, l: seq<Block>, b: Block): seq<Block> {
    if algo.LRU? then LruAccess(l, b) else l + [b]
  }

  /** The block to evict, and the list without it. */
  function Victim(algo: Algorithm, l: seq<Block>): (Block, seq<Block>)
    requires l != []
  {
    if algo.LRU? then (l[|l|-1], l[..|l|-1]) else (l[0], l[1..])
  }

  /** Scanning a list without repetitions removes the block if it is there. */
  lemma {:induction false} EraseScanMeaning(l: seq<Block>, b: Block, i: nat)
    requires i <= |l| && forall j, k :: 0 <= j < k < |l| ==> l[j] != l[k]
    requires forall j :: 0 <= j < i ==> l[j] != b
    ensures b !in l ==> EraseScan(l, b, i) == l
    ensures forall k :: i <= k < |l| && l[k] == b ==> EraseScan(l, b, i) == l[..k] + l[k+1..]
    decreases |l| - i
  {
    if i < |l| {
      if l[i] == b {
        var shorter := l[..i] + l[i+1..];
        if i < |shorter| {
          NothingToErase(shorter, b, i + 1);
        }
        assert EraseScan(l, b, i) == l[..i] + l[i+1..];
      } else {
        EraseScanMeaning(l, b, i + 1);
      }
    }
  }

  lemma {:induction false} NothingToErase(l: seq<Block>, b: Block, i: nat)
    requires i <= |l| && forall j :: 0 <= j < |l| ==> l[j] != b
    ensures EraseScan(l, b, i) == l
    decreases |l| - i
  {
    if i < |l| {
      NothingToErase(l, b, i + 1);
    }
  }

  lemma OrderIsStrict(algo: Algorithm, h: seq<Event>, l: seq<Block>)
    requires InAgeOrder(algo, h, l)
    ensures forall j, k :: 0 <= j < k < |l| ==> l[j] != l[k]
  {
  }

  lemma DropFromList(l: seq<Block>, k: nat)
    requires k < |l| && forall i, j :: 0 <= i < j < |l| ==> l[i] != l[j]
    ensures ToSet(l[..k] + l[k+1..]) == ToSet(l) - {l[k]}
  {
    var m := l[..k] + l[k+1..];
    forall c | c in l && c != l[k] ensures c in m {
      var i :| 0 <= i < |l| && l[i] == c;
      assert c == m[if i < k then i else i - 1];
    }
    forall c | c in m ensures c in l && c != l[k] {
      var i :| 0 <= i < |m| && m[i] == c;
      assert c == l[if i < k then i else i + 1];
    }
  }

  lemma DropKeepsOrder(algo: Algorithm, h: seq<Event>, l: seq<Block>, k: nat)
    requires k < |l| && InAgeOrder(algo, h, l)
    ensures InAgeOrder(algo, h, l[..k] + l[k+1..])
  {
    hide Stamp;
    var m := l[..k] + l[k+1..];
    forall i, j | 0 <= i < j < |m|
      ensures if algo.LRU? then Stamp(algo, h, m[i]) > Stamp(algo, h, m[j]) else Stamp(algo, h, m[i]) < Stamp(algo, h, m[j])
    {
      var a, b := if i < k then i else i + 1, if j < k then j else j + 1;
      assert m[i] == l[a] && m[j] == l[b] && a < b;
    }
  }

  /** Events on other blocks leave the order of a list alone. */
  lemma OrderUndisturbed(algo: Algorithm, h: seq<Event>, l: seq<Block>, e: Event)
    requires InAgeOrder(algo, h, l) && forall i :: 0 <= i < |l| ==> !Renews(algo, e, l[i])
    ensures InAgeOrder(algo, h + [e], l)
  {
    hide Stamp;
    forall i | 0 <= i < |l| ensures Stamp(algo, h + [e], l[i]) == Stamp(algo, h, l[i]) {
      StampNext(algo, h, e, l[i]);
    }
  }

  /** Using a listed block, or letting a new one in, keeps the list in age order. */
  lemma AccessKeepsOrder(algo: Algorithm, h: seq<Event>, l: seq<Block>, e: Event)
    requires !algo.RRIP? && InAgeOrder(algo, h, l) && Renews(algo, e, e.block)
    requires algo.FIFO? ==> e.block !in l
    ensures InAgeOrder(algo, h + [e], Access(algo, l, e.block))
    ensures ToSet(Access(algo, l, e.block)) == ToSet(l) + {e.block}
  {
    hide Stamp, EraseScan;
    var b := e.block;
    OrderIsStrict(algo, h, l);
    StampNext(algo, h, e, b);
    if algo.LRU? {
      EraseScanMeaning(l, b, 0);
      var rest := EraseScan(l, b, 0);
      if b in l {
        var k :| 0 <= k < |l| && l[k] == b;
        DropFromList(l, k);
        DropKeepsOrder(algo, h, l, k);
      }
      assert b !in ToSet(rest) && ToSet(rest) == ToSet(l) - {b};
      OrderUndisturbed(algo, h, rest, e);
      PutFront(algo, h + [e], rest, b);
    } else {
      OrderUndisturbed(algo, h, l, e);
      PutBack(algo, h + [e], l, b);
    }
  }

  lemma PutFront(algo: Algorithm, h: seq<Event>, l: seq<Block>, b: Block)
    requires algo.LRU? && InAgeOrder(algo, h, l) && b !in l && Stamp(algo, h, b) == |h| - 1
    requires h != [] && !exists c :: c in l && Renews(algo, h[|h|-1], c)
    ensures InAgeOrder(algo, h, [b] + l) && ToSet([b] + l) == ToSet(l) + {b}
  {
    forall i | 0 <= i < |l| ensures Stamp(algo, h, l[i]) < |h| - 1 {
      assert l[i] in l;
    }
    hide Stamp;
  }

  lemma PutBack(algo: Algorithm, h: seq<Event>, l: seq<Block>, b: Block)
    requires algo.FIFO? && InAgeOrder(algo, h, l) && b !in l && Stamp(algo, h, b) == |h| - 1
    requires h != [] && !exists c :: c in l && Renews(algo, h[|h|-1], c)
    ensures InAgeOrder(algo, h, l + [b]) && ToSet(l + [b]) == ToSet(l) + {b}
  {
    forall i | 0 <= i < |l| ensures Stamp(algo, h, l[i]) < |h| - 1 {
      assert l[i] in l;
    }
    hide Stamp;
  }

  /** The victim is the listed block renewed longest ago, over the whole history. */
  lemma VictimIsOldest(algo: Algorithm, h: seq<Event>, l: seq<Block>)
    requires !algo.RRIP? && InAgeOrder(algo, h, l) && l != []
    ensures var (v, rest) := Victim(algo, l);
      && IsOldest(algo, h, v, ToSet(l))
      && InAgeOrder(algo, h, rest) && ToSet(rest) == ToSet(l) - {v}
  {
    hide Stamp;
    var (v, rest) := Victim(algo, l);
    var k := if algo.LRU? then |l| - 1 else 0;
    OrderIsStrict(algo, h, l);
    assert rest == l[..k] + l[k+1..] && v == l[k];
    DropFromList(l, k);
    DropKeepsOrder(algo, h, l, k);
    forall c | c in ToSet(l) && c != v ensures Stamp(algo, h, v) < Stamp(algo, h, c) {
      var i :| 0 <= i < |l| && l[i] == c;
    }
  }

  /** The scanning loop of the LRU list. */
  method LruScan(l: seq<Block>, b: Block) returns (r: seq<Block>)
    ensures r == LruAccess(l, b)
  {
    r := l;
    var i := 0;
    while i < |r|
      invariant 0 <= i <= |r| + 1
      invariant (if i <= |r| then EraseScan(r, b, i) else r) == EraseScan(l, b, 0)
      decreases |r| - i
    {
      if r[i] == b {
        r := r[..i] + r[i+1..];
      }
      i := i + 1;
    }
    r := [b] + r;
  }

  // ---- re-reference predictions

  predicate PredictionsOk(row: seq<int>) {
    forall i :: 0 <= i < |row| ==> 0 <= row[i] <= 3
  }

  /** The largest prediction of a set. */
  function Largest(row: seq<int>): (m: int)
    requires row != []
    ensures m in row && forall i :: 0 <= i < |row| ==> row[i] <= m
  {
    if |row| == 1 then row[0]
    else
      var m := Largest(row[..|row|-1]);
      if row[|row|-1] > m then row[|row|-1] else m
  }

  function FirstHolding(row: seq<int>, m: int): (w: nat)
    requires m in row
    ensures w < |row| && row[w] == m && forall i :: 0 <= i < w ==> row[i] != m
  {
    if row[0] == m then 0 else 1 + FirstHolding(row[1..], m)
  }

  /** All predictions raised by `d`. */
  function Aged(row: seq<int>, d: int): seq<int> {
    seq(|row|, i requires 0 <= i < |row| => row[i] + d)
  }

  /** The victim is the first way with the largest prediction; the others age until it reaches 3. */
  function RripReplace(row: seq<int>): (nat, seq<int>)
    requires row != []
  {
    var w := FirstHolding(row, Largest(row));
    (w, Aged(row, 3 - Largest(row))[w := 2])
  }

  /** Ways that held a prediction below the largest never become the victim, and predictions stay 0..3. */
  lemma RripReplaceKeepsRange(row: seq<int>)
    requires row != [] && PredictionsOk(row)
    ensures PredictionsOk(RripReplace(row).1) && |RripReplace(row).1| == |row|
    ensures forall i :: 0 <= i < |row| ==> row[i] <= row[RripReplace(row).0]
    ensures forall i :: 0 <= i < RripReplace(row).0 ==> row[i] < row[RripReplace(row).0]
  {
  }

  /** `r` is the set after `d` rounds of ageing without a victim. */
  predicate Searching(row: seq<int>, r: seq<int>, d: nat) {
    row != [] && PredictionsOk(row) && d <= 3 - Largest(row) && r == Aged(row, d)
  }

  lemma FoundThree(row: seq<int>, r: seq<int>, d: nat, way: nat)
    requires Searching(row, r, d)
    requires way < |r| && r[way] == 3 && forall i :: 0 <= i < way ==> r[i] != 3
    ensures (way, r[way := 2]) == RripReplace(row)
  {
    var m := Largest(row);
    assert r[way] == row[way] + d <= m + d;
    var w := FirstHolding(row, m);
    assert r[w] == row[w] + d && row[way] == m;
    assert w <= way;
  }

  lemma NoThree(row: seq<int>, r: seq<int>, d: nat)
    requires Searching(row, r, d) && 3 !in r
    ensures PredictionsOk(r) && Searching(row, Aged(r, 1), d + 1)
  {
    var w := FirstHolding(row, Largest(row));
    assert r[w] in r && r[w] == Largest(row) + d;
    assert Aged(r, 1) == Aged(row, d + 1);
    forall i | 0 <= i < |r| ensures 0 <= r[i] <= 3 {
      assert r[i] == row[i] + d;
    }
  }

  /** The search of the source: look for a 3; if there is none, age all ways and look again. */
  method SearchVictim(row: seq<int>) returns (way: nat, r: seq<int>)
    requires row != [] && PredictionsOk(row)
    ensures (way, r) == RripReplace(row) && PredictionsOk(r)
  {
    hide RripReplace, Searching;
    r := row;
    way := 0;
    var found := false;
    ghost var d := 0;
    SearchStart(row);
    while !found
      invariant Searching(row, r, d) && d <= 3
      invariant found ==> way < |r| && r[way] == 3 && forall i :: 0 <= i < way ==> r[i] != 3
      decreases 3 - d, !found
    {
      found, way := FindThree(r);
      if !found {
        NoThree(row, r, d);
        SearchEnds(row, Aged(r, 1), d + 1);
        r := AgeAll(r);
        d := d + 1;
      }
    }
    FoundThree(row, r, d, way);
    RripReplaceKeepsRange(row);
    r := r[way := 2];
  }

  lemma SearchStart(row: seq<int>)
    requires row != [] && PredictionsOk(row)
    ensures Searching(row, row, 0)
  {
    assert Aged(row, 0) == row;
  }

  lemma SearchEnds(row: seq<int>, r: seq<int>, d: nat)
    requires Searching(row, r, d)
    ensures d <= 3
  {
    assert Largest(row) in row;
  }

  method FindThree(row: seq<int>) returns (found: bool, way: nat)
    ensures found ==> way < |row| && row[way] == 3 && forall i :: 0 <= i < way ==> row[i] != 3
    ensures !found ==> 3 !in row
  {
    found, way := false, 0;
    var i := 0;
    while i < |row|
      invariant 0 <= i <= |row| && !found && forall j :: 0 <= j < i ==> row[j] != 3
    {
      if row[i] == 3 {
        return true, i;
      }
      i := i + 1;
    }
  }

  /** Age every way; the complaint about a way that already holds 3 cannot be reached. */
  method AgeAll(row: seq<int>) returns (r: seq<int>)
    requires PredictionsOk(row) && 3 !in row
    ensures r == Aged(row, 1) && PredictionsOk(r)
  {
    r := row;
    var i := 0;
    while i < |r|
      invariant 0 <= i <= |r| == |row|
      invariant forall j :: 0 <= j < |row| ==> r[j] == row[j] + (if j < i then 1 else 0)
    {
      assert row[i] in row;
      var val := r[i];
      if val == 0 || val == 1 || val == 2 {
        r := r[i := r[i] + 1];
      } else {
        assert false;
      }
      i := i + 1;
    }
  }
}
