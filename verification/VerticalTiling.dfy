/** Vertical tiling: every row is cut into one piece per tile of destination vertices. */
module VerticalTiling {
  import opened Csr
  import opened Digits

  /** Vertices per tile, rounded up. */
  function TileWidth(v: nat, tiles: nat): nat
    requires tiles > 0
  {
    (v + tiles - 1) / tiles
  }

  /** The tile of a destination vertex. */
  function TileOf(v: nat, tiles: nat, edge: nat): nat
    requires tiles > 0 && TileWidth(v, tiles) > 0
  {
    var index := edge / TileWidth(v, tiles);
    if index == tiles then tiles - 1 else index
  }

  lemma WidthCovers(v: nat, tiles: nat)
    requires tiles > 0
    ensures v <= tiles * TileWidth(v, tiles)
    ensures v > 0 ==> TileWidth(v, tiles) > 0
  {
    Recompose(v + tiles - 1, tiles);
    if v > 0 && TileWidth(v, tiles) <= 0 {
      MulMono(tiles, TileWidth(v, tiles), 0);
    }
  }

  /** The width is the least with which the tiles reach all vertices. */
  lemma WidthIsLeast(v: nat, tiles: nat, w: nat)
    requires tiles > 0
    ensures v <= tiles * w <==> TileWidth(v, tiles) <= w
  {
    WidthCovers(v, tiles);
    var t := TileWidth(v, tiles);
    Recompose(v + tiles - 1, tiles);
    if t <= w {
      MulMono(tiles, t, w);
    } else {
      MulMono(tiles, w + 1, t);
      MulSucc(tiles, w);
    }
  }

  /** Vertices up to `v` have a tile, and tiles follow the vertex order. */
  lemma TileInRange(v: nat, tiles: nat, edge: nat)
    requires tiles > 0 && v > 0 && edge <= v && TileWidth(v, tiles) > 0
    ensures TileOf(v, tiles, edge) < tiles
  {
    WidthCovers(v, tiles);
    var w := TileWidth(v, tiles);
    Recompose(edge, w);
    assert w * tiles == tiles * w;
    if edge / w > tiles {
      MulMono(w, tiles + 1, edge / w);
      MulSucc(w, tiles);
    }
  }

  lemma TilesFollowVertices(v: nat, tiles: nat, a: nat, b: nat)
    requires tiles > 0 && v > 0 && a <= b <= v && TileWidth(v, tiles) > 0
    ensures TileOf(v, tiles, a) <= TileOf(v, tiles, b)
  {
    var w := TileWidth(v, tiles);
    TileInRange(v, tiles, a);
    Recompose(a, w);
    Recompose(b, w);
    if a / w > b / w {
      MulMono(w, b / w + 1, a / w);
      MulSucc(w, b / w);
    }
  }

  // ---- cutting one row

  /** The columns of a row that belong to tile `k`, in their order; `tileOf` gives each column's tile. */
  function Piece(row: seq<nat>, tileOf: nat -> nat, k: nat): seq<nat> {
    if row == [] then []
    else
      var init, to := Piece(row[..|row|-1], tileOf, k), row[|row|-1];
      if tileOf(to) == k then init + [to] else init
  }

  /** The pieces of the first `n` tiles one after the other. */
  function Joined(row: seq<nat>, tileOf: nat -> nat, n: nat): seq<nat> {
    if n == 0 then [] else Joined(row, tileOf, n - 1) + Piece(row, tileOf, n - 1)
  }

  predicate InTileOrder(row: seq<nat>, tileOf: nat -> nat) {
    forall i, j :: 0 <= i < j < |row| ==> tileOf(row[i]) <= tileOf(row[j])
  }

  lemma {:induction false} PieceTiles(row: seq<nat>, tileOf: nat -> nat, k: nat)
    ensures forall i :: 0 <= i < |Piece(row, tileOf, k)| ==> tileOf(Piece(row, tileOf, k)[i]) == k
  {
    if row != [] {
      PieceTiles(row[..|row|-1], tileOf, k);
    }
  }

  /** Pieces put together are in tile order, whatever the row. */
  lemma {:induction false} JoinedInOrder(row: seq<nat>, tileOf: nat -> nat, n: nat)
    ensures InTileOrder(Joined(row, tileOf, n), tileOf)
    ensures forall i :: 0 <= i < |Joined(row, tileOf, n)| ==> tileOf(Joined(row, tileOf, n)[i]) < n
  {
    if n > 0 {
      JoinedInOrder(row, tileOf, n - 1);
      PieceTiles(row, tileOf, n - 1);
    }
  }

  /** A column past all others joins at the end. */
  lemma {:induction false} JoinedLast(row: seq<nat>, tileOf: nat -> nat, to: nat, n: nat)
    requires forall i :: 0 <= i < |row| ==> tileOf(row[i]) <= tileOf(to)
    ensures Joined(row + [to], tileOf, n) == Joined(row, tileOf, n) + if tileOf(to) < n then [to] else []
  {
    if n > 0 {
      JoinedLast(row, tileOf, to, n - 1);
      assert (row + [to])[..|row|] == row;
      if tileOf(to) < n - 1 {
        NoPiece(row, tileOf, n - 1);
      }
    }
  }

  lemma {:induction false} NoPiece(row: seq<nat>, tileOf: nat -> nat, k: nat)
    requires forall i :: 0 <= i < |row| ==> tileOf(row[i]) != k
    ensures Piece(row, tileOf, k) == []
  {
    if row != [] {
      NoPiece(row[..|row|-1], tileOf, k);
    }
  }

  lemma {:induction false} JoinedIsRow(row: seq<nat>, tileOf: nat -> nat, n: nat)
    requires InTileOrder(row, tileOf) && forall i :: 0 <= i < |row| ==> tileOf(row[i]) < n
    ensures Joined(row, tileOf, n) == row
    decreases |row|
  {
    if row == [] {
      NothingJoined(tileOf, n);
    } else {
      var init, to := row[..|row|-1], row[|row|-1];
      JoinedIsRow(init, tileOf, n);
      JoinedLast(init, tileOf, to, n);
      assert row == init + [to];
    }
  }

  lemma {:induction false} NothingJoined(tileOf: nat -> nat, n: nat)
    ensures Joined([], tileOf, n) == []
  {
    if n > 0 {
      NothingJoined(tileOf, n - 1);
    }
  }

  /** Concatenating the pieces of a row gives the row back exactly when its columns come in tile order. */
  lemma JoinedIffInOrder(row: seq<nat>, tileOf: nat -> nat, n: nat)
    requires forall i :: 0 <= i < |row| ==> tileOf(row[i]) < n
    ensures Joined(row, tileOf, n) == row <==> InTileOrder(row, tileOf)
  {
    JoinedInOrder(row, tileOf, n);
    if InTileOrder(row, tileOf) {
      JoinedIsRow(row, tileOf, n);
    }
  }

  /** How often `x` occurs. */
  function Times(s: seq<nat>, x: nat): nat {
    multiset(s)[x]
  }

  lemma TimesAppend(a: seq<nat>, b: seq<nat>, x: nat)
    ensures Times(a + b, x) == Times(a, x) + Times(b, x)
  {
  }

  /** In any order, no column is lost or repeated. */
  lemma JoinedKeepsColumns(row: seq<nat>, tileOf: nat -> nat, n: nat)
    requires forall i :: 0 <= i < |row| ==> tileOf(row[i]) < n
    ensures multiset(Joined(row, tileOf, n)) == multiset(row)
  {
    forall x: nat ensures multiset(Joined(row, tileOf, n))[x] == multiset(row)[x] {
      JoinedTimes(row, tileOf, n, x);
    }
  }

  lemma {:induction false} JoinedTimes(row: seq<nat>, tileOf: nat -> nat, n: nat, x: nat)
    requires forall i :: 0 <= i < |row| ==> tileOf(row[i]) < n
    ensures Times(Joined(row, tileOf, n), x) == Times(row, x)
    decreases |row|
  {
    hide *;
    if row == [] {
      NothingJoined(tileOf, n);
    } else {
      var init, to := row[..|row|-1], row[|row|-1];
      assert row == init + [to] && tileOf(to) < n;
      JoinedTimes(init, tileOf, n, x);
      JoinedGains(init, tileOf, to, n, x);
      TimesAppend(init, [to], x);
    }
  }

  lemma {:induction false} JoinedGains(row: seq<nat>, tileOf: nat -> nat, to: nat, n: nat, x: nat)
    ensures Times(Joined(row + [to], tileOf, n), x)
         == Times(Joined(row, tileOf, n), x) + if tileOf(to) < n then Times([to], x) else 0
  {
    hide *;
    if n == 0 {
      JoinedNone(row, tileOf);
      JoinedNone(row + [to], tileOf);
    } else {
      JoinedGains(row, tileOf, to, n - 1, x);
      JoinedNext(row, tileOf, n, x);
      JoinedNext(row + [to], tileOf, n, x);
      PieceGains(row, tileOf, n - 1, to, x);
    }
  }

  lemma JoinedNone(row: seq<nat>, tileOf: nat -> nat)
    ensures Joined(row, tileOf, 0) == []
  {
  }

  lemma JoinedNext(row: seq<nat>, tileOf: nat -> nat, n: nat, x: nat)
    requires n > 0
    ensures Times(Joined(row, tileOf, n), x) == Times(Joined(row, tileOf, n - 1), x) + Times(Piece(row, tileOf, n - 1), x)
  {
    TimesAppend(Joined(row, tileOf, n - 1), Piece(row, tileOf, n - 1), x);
    hide Times, Piece;
  }

  lemma PieceGains(row: seq<nat>, tileOf: nat -> nat, k: nat, to: nat, x: nat)
    ensures Times(Piece(row + [to], tileOf, k), x)
         == Times(Piece(row, tileOf, k), x) + if tileOf(to) == k then Times([to], x) else 0
  {
    PieceNext(row, tileOf, k, to);
    TimesAppend(Piece(row, tileOf, k), [to], x);
    hide Times, Piece;
  }

  // ---- the tiled graph

  /** Where the output keeps the piece of row `i` in tile `k`. */
  function Slot(v: nat, i: nat, k: nat): nat {
    i + v * k
  }

  lemma SlotBelow(v: nat, n: nat, i: nat, k: nat)
    requires i < v && k < n
    ensures Slot(v, i, k) < v * n && v * k <= v * n
  {
    MulMono(v, k + 1, n);
    MulSucc(v, k);
    MulMono(v, 0, k);
  }

  lemma SlotsDiffer(v: nat, i: nat, k: nat, j: nat, l: nat)
    requires i < v && j < v
    ensures Slot(v, i, k) == Slot(v, j, l) ==> i == j && k == l
  {
    if Slot(v, i, k) == Slot(v, j, l) {
      DigitsUnique(k, l, v, i, j);
    }
  }

  /** The output is made of the pieces of all rows. */
  predicate IsTiled(v: nat, tiles: nat, rows: seq<seq<nat>>, out: seq<seq<nat>>)
    requires tiles > 0 && (v > 0 ==> TileWidth(v, tiles) > 0) && |rows| == v
  {
    && |out| == v * tiles
    && (forall i, k :: 0 <= i < v && 0 <= k < tiles ==> HasPiece(out, Slot(v, i, k), Piece(rows[i], TileMap(v, tiles), k)))
  }

  predicate HasPiece(out: seq<seq<nat>>, at: nat, piece: seq<nat>) {
    at < |out| && out[at] == piece
  }

  function TileMap(v: nat, tiles: nat): nat -> nat
    requires tiles > 0 && (v > 0 ==> TileWidth(v, tiles) > 0)
  {
    (e: nat) => if v > 0 then TileOf(v, tiles, e) else 0
  }

  /** Row `i` collected from all tiles of a tiled graph. */
  function Collected(v: nat, out: seq<seq<nat>>, i: nat, n: nat): seq<nat>
    requires i < v && v * n <= |out|
  {
    if n == 0 then []
    else
      SlotBelow(v, n, i, n - 1);
      Collected(v, out, i, n - 1) + out[Slot(v, i, n - 1)]
  }

  lemma {:induction false} CollectedIsJoined(v: nat, tiles: nat, rows: seq<seq<nat>>, out: seq<seq<nat>>, i: nat, n: nat)
    requires tiles > 0 && (v > 0 ==> TileWidth(v, tiles) > 0) && |rows| == v && IsTiled(v, tiles, rows, out)
    requires i < v && n <= tiles
    ensures v * n <= |out| && Collected(v, out, i, n) == Joined(rows[i], TileMap(v, tiles), n)
  {
    MulMono(v, n, tiles);
    if n > 0 {
      SlotBelow(v, n, i, n - 1);
      CollectedIsJoined(v, tiles, rows, out, i, n - 1);
    }
  }

  predicate Sorted(row: seq<nat>) {
    forall i, j :: 0 <= i < j < |row| ==> row[i] <= row[j]
  }

  lemma RowTiles(v: nat, tiles: nat, row: seq<nat>)
    requires v > 0 && tiles > 0 && TileWidth(v, tiles) > 0 && forall j :: 0 <= j < |row| ==> row[j] <= v
    ensures forall j :: 0 <= j < |row| ==> TileMap(v, tiles)(row[j]) < tiles
    ensures Sorted(row) ==> InTileOrder(row, TileMap(v, tiles))
  {
    hide TileOf;
    forall j | 0 <= j < |row| ensures TileMap(v, tiles)(row[j]) < tiles {
      TileInRange(v, tiles, row[j]);
    }
    if Sorted(row) {
      forall i, j | 0 <= i < j < |row| ensures TileMap(v, tiles)(row[i]) <= TileMap(v, tiles)(row[j]) {
        TilesFollowVertices(v, tiles, row[i], row[j]);
      }
    }
  }

  /** Putting row `i` together from all tiles gives back row `i` exactly when its columns come in tile
      order, in particular when they are sorted; in any order no column is lost or repeated. */
  lemma TilesGiveBackRow(v: nat, tiles: nat, rows: seq<seq<nat>>, out: seq<seq<nat>>, i: nat)
    requires tiles > 0 && (v > 0 ==> TileWidth(v, tiles) > 0) && |rows| == v && IsTiled(v, tiles, rows, out)
    requires i < v && forall j :: 0 <= j < |rows[i]| ==> rows[i][j] <= v
    ensures Collected(v, out, i, tiles) == rows[i] <==> InTileOrder(rows[i], TileMap(v, tiles))
    ensures Sorted(rows[i]) ==> Collected(v, out, i, tiles) == rows[i]
    ensures multiset(Collected(v, out, i, tiles)) == multiset(rows[i])
  {
    hide TileOf, TileMap, IsTiled, Joined, Collected;
    CollectedIsJoined(v, tiles, rows, out, i, tiles);
    RowTiles(v, tiles, rows[i]);
    JoinedIffInOrder(rows[i], TileMap(v, tiles), tiles);
    JoinedKeepsColumns(rows[i], TileMap(v, tiles), tiles);
  }

  // ---- the program

  lemma TiledStart(v: nat, tiles: nat, rows: seq<seq<nat>>, out: seq<seq<nat>>)
    requires tiles > 0 && (v > 0 ==> TileWidth(v, tiles) > 0)
    requires |rows| == v && forall i :: 0 <= i < v ==> rows[i] == []
    requires |out| == v * tiles && forall i :: 0 <= i < |out| ==> out[i] == []
    ensures IsTiled(v, tiles, rows, out)
  {
    hide Slot, TileMap;
    forall i, k | 0 <= i < v && 0 <= k < tiles
      ensures HasPiece(out, Slot(v, i, k), Piece(rows[i], TileMap(v, tiles), k))
    {
      SlotBelow(v, tiles, i, k);
    }
  }

  /** One more column at the end of row `n` goes to the end of one piece. */
  lemma TiledNext(v: nat, tiles: nat, rows: seq<seq<nat>>, out: seq<seq<nat>>, n: nat, to: nat)
    requires v > 0 && tiles > 0 && TileWidth(v, tiles) > 0 && |rows| == v && n < v && to <= v
    requires IsTiled(v, tiles, rows, out)
    ensures var at := Slot(v, n, TileOf(v, tiles, to));
      at < |out| && IsTiled(v, tiles, rows[n := rows[n] + [to]], out[at := out[at] + [to]])
  {
    hide TileOf, Slot, TileWidth;
    TileInRange(v, tiles, to);
    var t, m := TileOf(v, tiles, to), TileMap(v, tiles);
    var at := Slot(v, n, t);
    SlotBelow(v, tiles, n, t);
    var next, rows' := out[at := out[at] + [to]], rows[n := rows[n] + [to]];
    forall i, k | 0 <= i < v && 0 <= k < tiles ensures HasPiece(next, Slot(v, i, k), Piece(rows'[i], m, k)) {
      assert HasPiece(out, Slot(v, i, k), Piece(rows[i], m, k));
      SlotsDiffer(v, i, k, n, t);
      PieceNext(rows[i], m, k, to);
    }
  }

  lemma PieceNext(row: seq<nat>, tileOf: nat -> nat, k: nat, to: nat)
    ensures Piece(row + [to], tileOf, k) == if tileOf(to) == k then Piece(row, tileOf, k) + [to] else Piece(row, tileOf, k)
  {
    assert (row + [to])[..|row|] == row;
  }

  /** The reading loop. */
  method Cut(v: nat, tiles: nat, prefix: seq<nat>, cols: seq<nat>) returns (out: seq<seq<nat>>)
    requires tiles > 0 && IsCsr(prefix, cols) && |prefix| == v + 1 && forall j :: 0 <= j < |cols| ==> cols[j] <= v
    ensures v > 0 ==> TileWidth(v, tiles) > 0
    ensures IsTiled(v, tiles, Decode(prefix, cols), out)
  {
    hide IsTiled, TileWidth, TileOf, Slot;
    WidthCovers(v, tiles);
    ghost var rows, done := Decode(prefix, cols), seq(v, _ => []);
    out := seq(v * tiles, _ => []);
    TiledStart(v, tiles, done, out);
    var width := TileWidth(v, tiles);
    var next := 0;
    var i := 0;
    while i < v
      invariant 0 <= i <= v && next == prefix[i] && |done| == v && IsTiled(v, tiles, done, out)
      invariant (forall k :: 0 <= k < i ==> done[k] == rows[k]) && forall k :: i <= k < v ==> done[k] == []
    {
      var count := prefix[i+1] - prefix[i];
      ghost var row := rows[i];
      assert row == cols[prefix[i]..prefix[i+1]] && row[..0] == [];
      var j := 0;
      while j < count
        invariant 0 <= j <= count == |row| && next == prefix[i] + j && |done| == v && IsTiled(v, tiles, done, out)
        invariant forall k :: 0 <= k < i ==> done[k] == rows[k]
        invariant done[i] == row[..j] && forall k :: i < k < v ==> done[k] == []
      {
        var edge := cols[next];
        next := next + 1;
        assert edge == row[j] && row[..j+1] == row[..j] + [edge];
        TiledNext(v, tiles, done, out, i, edge);
        done := done[i := done[i] + [edge]];
        out := Drop(v, tiles, width, out, i, edge);
        j := j + 1;
      }
      assert row[..j] == row;
      i := i + 1;
    }
    assert done == rows;
  }

  method Drop(v: nat, tiles: nat, width: nat, out: seq<seq<nat>>, i: nat, edge: nat) returns (r: seq<seq<nat>>)
    requires tiles > 0 && width == TileWidth(v, tiles) > 0
    requires Slot(v, i, TileOf(v, tiles, edge)) < |out|
    ensures var at := Slot(v, i, TileOf(v, tiles, edge)); r == out[at := out[at] + [edge]]
  {
    var index := edge / width;
    if index == tiles {
      index := index - 1;
    }
    r := out[i + v * index := out[i + v * index] + [edge]];
  }

  /** The whole program: what it writes reads back as the tiled graph. */
  method Tile(v: nat, tiles: nat, prefix: seq<nat>, cols: seq<nat>) returns (outPrefix: seq<nat>, outCols: seq<nat>)
    requires tiles > 0 && IsCsr(prefix, cols) && |prefix| == v + 1 && forall j :: 0 <= j < |cols| ==> cols[j] <= v
    ensures v > 0 ==> TileWidth(v, tiles) > 0
    ensures IsCsr(outPrefix, outCols) && IsTiled(v, tiles, Decode(prefix, cols), Decode(outPrefix, outCols))
  {
    hide IsTiled, TileWidth;
    var out := Cut(v, tiles, prefix, cols);
    outPrefix, outCols := Emit(out);
  }
}
