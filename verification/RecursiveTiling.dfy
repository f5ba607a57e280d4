/** Dealing the edges of a graph out to the leaves of the quadtree, and writing the result. */
module RecursiveTiling {
  import opened Csr
  import opened Quadtree

  // ---- where an edge goes

  /** The first leaf at or after `i` that contains the point. */
  function LeafOf(ls: seq<Rect>, from: int, to: int, i: nat): (l: nat)
    requires i <= |ls|
    ensures i <= l <= |ls|
    ensures l < |ls| ==> ls[l].Contains(from, to)
    ensures forall j :: i <= j < l ==> !ls[j].Contains(from, to)
    decreases |ls| - i
  {
    if i == |ls| || ls[i].Contains(from, to) then i else LeafOf(ls, from, to, i + 1)
  }

  /** Leaves have row counts and cover the square of vertices up to `v`. */
  ghost predicate GoodLeaves(ls: seq<Rect>, v: nat) {
    && (forall l :: 0 <= l < |ls| ==> ls[l].Valid())
    && (forall x: nat, y: nat :: x <= v && y <= v ==> LeafOf(ls, x, y, 0) < |ls|)
  }

  /** One list of columns per leaf and row of the leaf. */
  predicate Fit(ls: seq<Rect>, b: seq<seq<seq<nat>>>) {
    |b| == |ls| && forall l :: 0 <= l < |ls| ==> ls[l].Valid() && |b[l]| == ls[l].Rows()
  }

  function Deal(ls: seq<Rect>, b: seq<seq<seq<nat>>>, from: nat, to: nat): (c: seq<seq<seq<nat>>>)
    requires Fit(ls, b) && LeafOf(ls, from, to, 0) < |ls|
    ensures Fit(ls, c)
  {
    var l := LeafOf(ls, from, to, 0);
    var i := from - ls[l].fromStart;
    b[l := b[l][i := b[l][i] + [to]]]
  }

  ghost function DealRow(ls: seq<Rect>, v: nat, b: seq<seq<seq<nat>>>, from: nat, row: seq<nat>): (c: seq<seq<seq<nat>>>)
    requires GoodLeaves(ls, v) && Fit(ls, b) && from <= v && forall j :: 0 <= j < |row| ==> row[j] <= v
    ensures Fit(ls, c)
    decreases |row|
  {
    if row == [] then b
    else Deal(ls, DealRow(ls, v, b, from, row[..|row|-1]), from, row[|row|-1])
  }

  predicate Columns(rows: seq<seq<nat>>, v: nat) {
    forall r :: 0 <= r < |rows| ==> BelowOrAt(rows[r], v)
  }

  predicate BelowOrAt(row: seq<nat>, v: nat) {
    forall j :: 0 <= j < |row| ==> row[j] <= v
  }

  /** The first `n` rows dealt out to empty leaves. */
  ghost function DealRows(ls: seq<Rect>, v: nat, rows: seq<seq<nat>>, n: nat): (c: seq<seq<seq<nat>>>)
    requires GoodLeaves(ls, v) && n <= |rows| <= v + 1 && Columns(rows, v)
    ensures Fit(ls, c)
  {
    if n == 0 then NewLeaves(ls) else DealRow(ls, v, DealRows(ls, v, rows, n - 1), n - 1, rows[n-1])
  }

  function NewLeaves(ls: seq<Rect>): (b: seq<seq<seq<nat>>>)
    requires forall l :: 0 <= l < |ls| ==> ls[l].Valid()
    ensures Fit(ls, b)
    ensures forall l, i :: 0 <= l < |ls| && 0 <= i < ls[l].Rows() ==> b[l][i] == []
  {
    seq(|ls|, l requires 0 <= l < |ls| => seq(ls[l].Rows(), _ => []))
  }

  // ---- which vertex an output row belongs to

  function LabelRows(ls: seq<Rect>): (r: seq<seq<nat>>)
    requires forall l :: 0 <= l < |ls| ==> ls[l].Valid()
    ensures |r| == |ls| && forall l :: 0 <= l < |ls| ==> |r[l]| == ls[l].Rows()
    ensures forall l, i :: 0 <= l < |ls| && 0 <= i < ls[l].Rows() ==> r[l][i] == ls[l].fromStart + i
  {
    seq(|ls|, l requires 0 <= l < |ls| => seq(ls[l].Rows(), i requires 0 <= i => ls[l].fromStart + i))
  }

  /** The source vertex of every output row. */
  function Labels(ls: seq<Rect>): seq<nat>
    requires forall l :: 0 <= l < |ls| ==> ls[l].Valid()
  {
    Flat(LabelRows(ls))
  }

  lemma LabelsFit(ls: seq<Rect>, b: seq<seq<seq<nat>>>)
    requires Fit(ls, b)
    ensures |Labels(ls)| == |Flat(b)|
  {
    FlatLength(LabelRows(ls), b);
  }

  /** The edges held by the leaves. */
  function Held(ls: seq<Rect>, b: seq<seq<seq<nat>>>): multiset<(nat, nat)>
    requires Fit(ls, b)
  {
    LabelsFit(ls, b);
    Edges(Labels(ls), Flat(b))
  }

  // ---- dealing loses and invents no edge

  lemma DealAt(ls: seq<Rect>, b: seq<seq<seq<nat>>>, l: nat, i: nat, to: nat)
    requires Fit(ls, b) && l < |ls| && i < |b[l]| && |Labels(ls)| == |Flat(b)|
    ensures |Flat(b[l := b[l][i := b[l][i] + [to]]])| == |Flat(b)|
    ensures Edges(Labels(ls), Flat(b[l := b[l][i := b[l][i] + [to]]]))
         == Edges(Labels(ls), Flat(b)) + multiset{(ls[l].fromStart + i, to)}
  {
    hide Flat, Edges;
    var labels := LabelRows(ls);
    FlatLength(labels[..l], b[..l]);
    FlatAt(labels, l, i);
    FlatAt(b, l, i);
    FlatUpdate(b, l, i, b[l][i] + [to]);
    hide Fit, LabelRows;
    EdgesGrow(Labels(ls), Flat(b), |Flat(b[..l])| + i, to);
  }

  lemma DealAdds(ls: seq<Rect>, b: seq<seq<seq<nat>>>, from: nat, to: nat)
    requires Fit(ls, b) && LeafOf(ls, from, to, 0) < |ls|
    ensures Held(ls, Deal(ls, b, from, to)) == Held(ls, b) + multiset{(from, to)}
  {
    hide Flat, Edges, LeafOf, LabelRows;
    LabelsFit(ls, b);
    var l := LeafOf(ls, from, to, 0);
    var i := from - ls[l].fromStart;
    DealAt(ls, b, l, i, to);
  }

  lemma {:induction false} DealRowAdds(ls: seq<Rect>, v: nat, b: seq<seq<seq<nat>>>, from: nat, row: seq<nat>)
    requires GoodLeaves(ls, v) && Fit(ls, b) && from <= v && forall j :: 0 <= j < |row| ==> row[j] <= v
    ensures Held(ls, DealRow(ls, v, b, from, row)) == Held(ls, b) + RowEdges(from, row)
    decreases |row|
  {
    hide Held, RowEdges, Deal, Fit;
    if row == [] {
      RowEdgesNone(from);
    } else {
      var init, to := row[..|row|-1], row[|row|-1];
      DealRowAdds(ls, v, b, from, init);
      DealAdds(ls, DealRow(ls, v, b, from, init), from, to);
      RowEdgesPush(from, init, to);
      assert row == init + [to];
    }
  }

  lemma {:induction false} DealRowsHold(ls: seq<Rect>, v: nat, rows: seq<seq<nat>>, n: nat)
    requires GoodLeaves(ls, v) && n <= |rows| <= v + 1 && Columns(rows, v)
    ensures Held(ls, DealRows(ls, v, rows, n)) == Edges(UpTo(n), rows[..n])
  {
    hide RowEdges, DealRow, Fit, GoodLeaves;
    if n == 0 {
      NothingHeld(ls, v);
    } else {
      hide Held, Edges;
      assert BelowOrAt(rows[n-1], v);
      DealRowsHold(ls, v, rows, n - 1);
      DealRowAdds(ls, v, DealRows(ls, v, rows, n - 1), n - 1, rows[n-1]);
      EdgesPush(UpTo(n - 1), rows[..n-1], n - 1, rows[n-1]);
      assert UpTo(n) == UpTo(n - 1) + [n - 1] && rows[..n] == rows[..n-1] + [rows[n-1]];
    }
  }

  lemma NothingHeld(ls: seq<Rect>, v: nat)
    requires GoodLeaves(ls, v)
    ensures Held(ls, NewLeaves(ls)) == multiset{}
  {
    var b := NewLeaves(ls);
    LabelsFit(ls, b);
    EmptyRowsFlat(b);
    EdgesOfNone(Labels(ls), Flat(b));
  }

  lemma {:induction false} EmptyRowsFlat(b: seq<seq<seq<nat>>>)
    requires forall l, i :: 0 <= l < |b| && 0 <= i < |b[l]| ==> b[l][i] == []
    ensures forall r :: 0 <= r < |Flat(b)| ==> Flat(b)[r] == []
  {
    if b != [] {
      EmptyRowsFlat(b[..|b|-1]);
    }
  }

  // ---- what each leaf row holds

  /** The columns of a row that go to leaf `l`, in their order. */
  function Picked(ls: seq<Rect>, l: nat, from: nat, row: seq<nat>): seq<nat> {
    if row == [] then []
    else
      var init, to := Picked(ls, l, from, row[..|row|-1]), row[|row|-1];
      if LeafOf(ls, from, to, 0) == l then init + [to] else init
  }

  lemma {:induction false} DealRowPicks(
    ls: seq<Rect>, v: nat, b: seq<seq<seq<nat>>>, from: nat, row: seq<nat>, l: nat, i: nat)
    requires GoodLeaves(ls, v) && Fit(ls, b) && from <= v && forall j :: 0 <= j < |row| ==> row[j] <= v
    requires l < |ls| && i < |b[l]|
    ensures Fit(ls, DealRow(ls, v, b, from, row))
    ensures DealRow(ls, v, b, from, row)[l][i]
         == b[l][i] + if ls[l].fromStart + i == from then Picked(ls, l, from, row) else []
    decreases |row|
  {
    hide LeafOf, GoodLeaves;
    if row != [] {
      assert GoodLeaves(ls, v);
      DealRowPicks(ls, v, b, from, row[..|row|-1], l, i);
    }
  }

  /** Row `i` of leaf `l` ends up with exactly the columns of its vertex that belong to the leaf, in order. */
  lemma {:induction false} DealRowsPick(ls: seq<Rect>, v: nat, rows: seq<seq<nat>>, n: nat, l: nat, i: nat)
    requires GoodLeaves(ls, v) && n <= |rows| <= v + 1 && Columns(rows, v)
    requires l < |ls| && ls[l].Valid() && i < ls[l].Rows()
    ensures Fit(ls, DealRows(ls, v, rows, n))
    ensures var from := ls[l].fromStart + i;
      DealRows(ls, v, rows, n)[l][i] == if from < n then Picked(ls, l, from, rows[from]) else []
  {
    hide Picked, DealRow, GoodLeaves;
    if n > 0 {
      assert BelowOrAt(rows[n-1], v);
      DealRowsPick(ls, v, rows, n - 1, l, i);
      DealRowPicks(ls, v, DealRows(ls, v, rows, n - 1), n - 1, rows[n-1], l, i);
    }
  }

  // ---- the tree's leaves are good

  lemma TreeLeavesGood(v: nat, first: seq<int>, second: seq<seq<int>>)
    requires |first| == |second| == 4
    ensures GoodLeaves(Leaves(Tree(v, first, second)), v)
  {
    hide Leaves, Tree;
    var ls := Leaves(Tree(v, first, second));
    EveryPointInSomeLeaf(v, first, second, 0, 0);
    forall x: nat, y: nat | x <= v && y <= v ensures LeafOf(ls, x, y, 0) < |ls| {
      EveryPointInSomeLeaf(v, first, second, x, y);
      var i :| 0 <= i < |ls| && ls[i].Contains(x, y);
    }
  }

  /** Reading the emitted graph back, with each row credited to its vertex, gives the original edges. */
  lemma TilingPreservesEdges(v: nat, first: seq<int>, second: seq<seq<int>>, rows: seq<seq<nat>>)
    requires |first| == |second| == 4 && |rows| == v && Columns(rows, v)
    ensures GoodLeaves(Leaves(Tree(v, first, second)), v)
    ensures var ls := Leaves(Tree(v, first, second));
      var out := Flat(DealRows(ls, v, rows, v));
      && IsCsr(Prefix(out), Flat(out)) && |Labels(ls)| == |Decode(Prefix(out), Flat(out))|
      && Edges(Labels(ls), Decode(Prefix(out), Flat(out))) == Edges(UpTo(v), rows)
  {
    hide Leaves, Tree, GoodLeaves, Decode, IsCsr, Prefix, Flat, Edges, DealRows;
    TreeLeavesGood(v, first, second);
    var ls := Leaves(Tree(v, first, second));
    assert (forall l :: 0 <= l < |ls| ==> ls[l].Valid()) by { GoodAreValid(ls, v); }
    var b := DealRows(ls, v, rows, v);
    DealRowsHold(ls, v, rows, v);
    assert rows[..v] == rows;
    LabelsFit(ls, b);
    DecodeOfEmit(Flat(b));
  }

  lemma GoodAreValid(ls: seq<Rect>, v: nat)
    requires GoodLeaves(ls, v)
    ensures forall l :: 0 <= l < |ls| ==> ls[l].Valid()
  {
  }

  // ---- the program

  method FindLeaf(ls: seq<Rect>, from: nat, to: nat) returns (l: nat)
    requires LeafOf(ls, from, to, 0) < |ls|
    ensures l == LeafOf(ls, from, to, 0)
  {
    l := 0;
    while l < |ls|
      invariant 0 <= l <= |ls| && LeafOf(ls, from, to, 0) == LeafOf(ls, from, to, l)
    {
      if ls[l].fromStart <= from <= ls[l].fromEnd {
        if ls[l].toStart <= to <= ls[l].toEnd {
          return;
        }
      }
      l := l + 1;
    }
  }

  /** Read the columns in file order and deal each to its leaf. */
  method Distribute(ls: seq<Rect>, v: nat, prefix: seq<nat>, cols: seq<nat>) returns (b: seq<seq<seq<nat>>>)
    requires GoodLeaves(ls, v) && IsCsr(prefix, cols) && |prefix| == v + 1 && BelowOrAt(cols, v)
    ensures Columns(Decode(prefix, cols), v) && b == DealRows(ls, v, Decode(prefix, cols), v)
  {
    hide GoodLeaves, LeafOf, Fit, Deal;
    ghost var rows := Decode(prefix, cols);
    DecodedColumns(prefix, cols, v);
    GoodAreValid(ls, v);
    b := NewLeaves(ls);
    var next := 0;
    var from := 0;
    while from < v
      invariant 0 <= from <= v && next == prefix[from]
      invariant b == DealRows(ls, v, rows, from)
    {
      assert BelowOrAt(rows[from], v) && rows[from] == cols[prefix[from]..prefix[from+1]];
      ghost var before, row := b, rows[from];
      var count := prefix[from+1] - prefix[from];
      var j := 0;
      while j < count
        invariant 0 <= j <= count == |row| && next == prefix[from] + j
        invariant Fit(ls, b) && BelowOrAt(row[..j], v) && b == DealRow(ls, v, before, from, row[..j])
      {
        var to := cols[next];
        next := next + 1;
        assert to == row[j] && row[..j+1][..j] == row[..j] && BelowOrAt(row[..j+1], v);
        LeafExists(ls, v, from, to);
        b := DealOne(ls, b, from, to);
        j := j + 1;
      }
      assert row[..j] == row;
      from := from + 1;
    }
  }

  lemma LeafExists(ls: seq<Rect>, v: nat, from: nat, to: nat)
    requires GoodLeaves(ls, v) && from <= v && to <= v
    ensures LeafOf(ls, from, to, 0) < |ls|
  {
  }

  lemma DecodedColumns(prefix: seq<nat>, cols: seq<nat>, v: nat)
    requires IsCsr(prefix, cols) && BelowOrAt(cols, v)
    ensures Columns(Decode(prefix, cols), v)
  {
  }

  method DealOne(ls: seq<Rect>, b: seq<seq<seq<nat>>>, from: nat, to: nat) returns (c: seq<seq<seq<nat>>>)
    requires Fit(ls, b) && LeafOf(ls, from, to, 0) < |ls|
    ensures Fit(ls, c) && c == Deal(ls, b, from, to)
  {
    var l := FindLeaf(ls, from, to);
    var index := from - ls[l].fromStart;
    c := b[l := b[l][index := b[l][index] + [to]]];
  }

  /** The leaves' rows one after the other. */
  method Gather(b: seq<seq<seq<nat>>>) returns (rows: seq<seq<nat>>)
    ensures rows == Flat(b)
  {
    hide Flat, Prefix;
    rows := [];
    var l := 0;
    NothingYet(b);
    while l < |b|
      invariant 0 <= l <= |b| && rows == Flat(b[..l])
    {
      TakeRow(b, l);
      ghost var before, leaf := rows, b[l];
      var i := 0;
      while i < |b[l]|
        invariant 0 <= i <= |leaf| && rows == before + leaf[..i]
      {
        assert leaf[..i+1] == leaf[..i] + [leaf[i]];
        rows := rows + [b[l][i]];
        i := i + 1;
      }
      assert leaf[..i] == leaf;
      l := l + 1;
    }
    assert b[..l] == b;
  }

  /** The whole program: the file it writes stands for the same edges, for every configuration. */
  method Tile(v: nat, first: seq<int>, second: seq<seq<int>>, prefix: seq<nat>, cols: seq<nat>)
    returns (ls: seq<Rect>, outPrefix: seq<nat>, outCols: seq<nat>)
    requires |first| == |second| == 4 && IsCsr(prefix, cols) && |prefix| == v + 1 && BelowOrAt(cols, v)
    ensures ls == Leaves(Tree(v, first, second)) && GoodLeaves(ls, v)
    ensures IsCsr(outPrefix, outCols) && |Labels(ls)| == |outPrefix| - 1
    ensures Edges(Labels(ls), Decode(outPrefix, outCols)) == Edges(UpTo(v), Decode(prefix, cols))
    ensures Columns(Decode(prefix, cols), v)
         && Decode(outPrefix, outCols) == Flat(DealRows(ls, v, Decode(prefix, cols), v))
  {
    hide Leaves, Tree, GoodLeaves, IsCsr, Prefix, Flat, Edges, DealRows, Columns;
    var root := BuildTree(v, first, second);
    ls := CollectLeaves(root, []);
    assert [] + Leaves(root) == Leaves(root);
    TreeLeavesGood(v, first, second);
    DecodedColumns(prefix, cols, v);
    TilingPreservesEdges(v, first, second, Decode(prefix, cols));
    var b := Distribute(ls, v, prefix, cols);
    var rows := Gather(b);
    DecodeOfEmit(rows);
    outPrefix, outCols := Emit(rows);
  }
}
