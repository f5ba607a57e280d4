/** Compressed sparse rows: prefix sums and a column list, and the rows they stand for. */
module Csr {

  /** All rows one after the other. */
  function Flat<T>(rows: seq<seq<T>>): seq<T> {
    if rows == [] then [] else Flat(rows[..|rows|-1]) + rows[|rows|-1]
  }

  /** Running totals of the row lengths, starting with 0. */
  function Prefix<T>(rows: seq<seq<T>>): (p: seq<nat>)
    ensures |p| == |rows| + 1 && p[0] == 0 && p[|rows|] == |Flat(rows)|
  {
    if rows == [] then [0]
    else Prefix(rows[..|rows|-1]) + [|Flat(rows)|]
  }

  predicate IsCsr<T>(prefix: seq<nat>, cols: seq<T>) {
    && prefix != [] && prefix[0] == 0
    && (forall i, j :: 0 <= i <= j < |prefix| ==> prefix[i] <= prefix[j])
    && prefix[|prefix|-1] == |cols|
  }

  function Decode<T>(prefix: seq<nat>, cols: seq<T>): seq<seq<T>>
    requires IsCsr(prefix, cols)
  {
    seq(|prefix| - 1, i requires 0 <= i < |prefix| - 1 => cols[prefix[i]..prefix[i+1]])
  }

  lemma FlatPush<T>(rows: seq<seq<T>>, row: seq<T>)
    ensures Flat(rows + [row]) == Flat(rows) + row && Prefix(rows + [row]) == Prefix(rows) + [|Flat(rows)| + |row|]
  {
    assert (rows + [row])[..|rows|] == rows;
  }

  /** Where entry `i` of row `l` ends up. */
  lemma {:induction false} FlatAt<T>(rows: seq<seq<T>>, l: nat, i: nat)
    requires l < |rows| && i < |rows[l]|
    ensures |Flat(rows[..l])| + i < |Flat(rows)| && Flat(rows)[|Flat(rows[..l])| + i] == rows[l][i]
    decreases |rows|
  {
    var n := |rows| - 1;
    if l < n {
      FlatAt(rows[..n], l, i);
      assert rows[..n][..l] == rows[..l];
    }
  }

  /** Changing one entry of one row changes one entry of the whole. */
  lemma {:induction false} FlatUpdate<T>(rows: seq<seq<T>>, l: nat, i: nat, x: T)
    requires l < |rows| && i < |rows[l]|
    ensures |Flat(rows[..l])| + i < |Flat(rows)|
    ensures Flat(rows[l := rows[l][i := x]]) == Flat(rows)[|Flat(rows[..l])| + i := x]
    decreases |rows|
  {
    FlatAt(rows, l, i);
    var n, changed := |rows| - 1, rows[l := rows[l][i := x]];
    if l < n {
      FlatUpdate(rows[..n], l, i, x);
      assert rows[..n][..l] == rows[..l];
      assert changed[..n] == rows[..n][l := rows[l][i := x]];
    } else {
      assert changed[..n] == rows[..n];
    }
  }

  lemma {:induction false} FlatLength<A, B>(a: seq<seq<A>>, b: seq<seq<B>>)
    requires |a| == |b| && forall i :: 0 <= i < |a| ==> |a[i]| == |b[i]|
    ensures |Flat(a)| == |Flat(b)|
  {
    if a != [] {
      FlatLength(a[..|a|-1], b[..|b|-1]);
    }
  }

  lemma SliceOfStart<T>(a: seq<T>, b: seq<T>, i: nat, j: nat)
    requires i <= j <= |a|
    ensures (a + b)[i..j] == a[i..j]
  {
  }

  /** One more row. */
  lemma DecodePush<T>(prefix: seq<nat>, cols: seq<T>, row: seq<T>)
    requires IsCsr(prefix, cols)
    ensures IsCsr(prefix + [|cols| + |row|], cols + row)
    ensures Decode(prefix + [|cols| + |row|], cols + row) == Decode(prefix, cols) + [row]
  {
    var p, c, n := prefix + [|cols| + |row|], cols + row, |prefix| - 1;
    forall i | 0 <= i < n ensures c[p[i]..p[i+1]] == cols[prefix[i]..prefix[i+1]] {
      assert prefix[i] <= prefix[i+1] <= prefix[n];
      SliceOfStart(cols, row, prefix[i], prefix[i+1]);
    }
    assert c[p[n]..p[n+1]] == row;
  }

  /** Reading back what was emitted gives the rows. */
  lemma {:induction false} DecodeOfEmit<T>(rows: seq<seq<T>>)
    ensures IsCsr(Prefix(rows), Flat(rows)) && Decode(Prefix(rows), Flat(rows)) == rows
  {
    if rows != [] {
      hide Decode, IsCsr, Flat, Prefix;
      var n := |rows| - 1;
      var init := rows[..n];
      DecodeOfEmit(init);
      DecodePush(Prefix(init), Flat(init), rows[n]);
      TakeRow(rows, n);
      assert rows[..n+1] == rows;
    }
  }

  /** Emitting what was read gives the file back. */
  lemma {:induction false} EmitOfDecode<T>(prefix: seq<nat>, cols: seq<T>)
    requires IsCsr(prefix, cols)
    ensures Prefix(Decode(prefix, cols)) == prefix && Flat(Decode(prefix, cols)) == cols
    decreases |prefix|
  {
    var n := |prefix| - 1;
    CsrBounds(prefix, cols);
    hide *;
    if n > 0 {
      var before, some, row := prefix[..n], cols[..prefix[n-1]], cols[prefix[n-1]..];
      EmitOfDecode(before, some);
      DecodePush(before, some, row);
      FlatPush(Decode(before, some), row);
      assert prefix == before + [|some| + |row|] && cols == some + row;
    } else {
      NoRows(prefix, cols);
    }
  }

  lemma CsrBounds<T>(prefix: seq<nat>, cols: seq<T>)
    requires IsCsr(prefix, cols)
    ensures prefix != [] && prefix[|prefix|-1] == |cols|
    ensures |prefix| > 1 ==> prefix[|prefix|-2] <= |cols| && IsCsr(prefix[..|prefix|-1], cols[..prefix[|prefix|-2]])
  {
  }

  lemma NoRows<T>(prefix: seq<nat>, cols: seq<T>)
    requires IsCsr(prefix, cols) && |prefix| == 1
    ensures Prefix(Decode(prefix, cols)) == prefix && Flat(Decode(prefix, cols)) == cols
  {
    assert prefix == [0] && cols == [] && Decode(prefix, cols) == [];
  }

  /** The first line of the output: running totals of the row lengths. */
  method EmitTotals(rows: seq<seq<nat>>) returns (prefix: seq<nat>)
    ensures prefix == Prefix(rows)
  {
    hide Flat, Prefix;
    prefix := [0];
    var total := 0;
    var i := 0;
    NothingYet(rows);
    while i < |rows|
      invariant 0 <= i <= |rows| && prefix == Prefix(rows[..i]) && total == |Flat(rows[..i])|
    {
      TakeRow(rows, i);
      total := total + |rows[i]|;
      prefix := prefix + [total];
      i := i + 1;
    }
    assert rows[..i] == rows;
  }

  /** The second line: all columns, row after row. */
  method EmitColumns(rows: seq<seq<nat>>) returns (cols: seq<nat>)
    ensures cols == Flat(rows)
  {
    hide Flat, Prefix;
    cols := [];
    var i := 0;
    NothingYet(rows);
    while i < |rows|
      invariant 0 <= i <= |rows| && cols == Flat(rows[..i])
    {
      TakeRow(rows, i);
      ghost var before, row := cols, rows[i];
      var j := 0;
      while j < |rows[i]|
        invariant 0 <= j <= |row| && cols == before + row[..j]
      {
        assert row[..j+1] == row[..j] + [row[j]];
        cols := cols + [rows[i][j]];
        j := j + 1;
      }
      assert row[..j] == row;
      i := i + 1;
    }
    assert rows[..i] == rows;
  }

  lemma NothingYet<T>(rows: seq<seq<T>>)
    ensures Flat(rows[..0]) == [] && Prefix(rows[..0]) == [0]
  {
  }

  lemma TakeRow<T>(rows: seq<seq<T>>, i: nat)
    requires i < |rows|
    ensures Flat(rows[..i+1]) == Flat(rows[..i]) + rows[i]
    ensures Prefix(rows[..i+1]) == Prefix(rows[..i]) + [|Flat(rows[..i])| + |rows[i]|]
  {
    assert rows[..i+1] == rows[..i] + [rows[i]];
    FlatPush(rows[..i], rows[i]);
  }

  /** What is written reads back as the rows. */
  method Emit(rows: seq<seq<nat>>) returns (prefix: seq<nat>, cols: seq<nat>)
    ensures IsCsr(prefix, cols) && Decode(prefix, cols) == rows
  {
    DecodeOfEmit(rows);
    prefix := EmitTotals(rows);
    cols := EmitColumns(rows);
  }

  // ---- edges

  /** The edges from `from` to each column of its row. */
  function RowEdges(from: nat, row: seq<nat>): multiset<(nat, nat)> {
    multiset(seq(|row|, i requires 0 <= i < |row| => (from, row[i])))
  }

  /** The edges of rows whose sources are listed in `labels`. */
  function Edges(labels: seq<nat>, rows: seq<seq<nat>>): multiset<(nat, nat)>
    requires |labels| == |rows|
  {
    if rows == [] then multiset{}
    else Edges(labels[..|rows|-1], rows[..|rows|-1]) + RowEdges(labels[|rows|-1], rows[|rows|-1])
  }

  function UpTo(n: nat): (s: seq<nat>)
    ensures |s| == n && forall i :: 0 <= i < n ==> s[i] == i
  {
    seq(n, i => i)
  }

  lemma RowEdgesPush(from: nat, row: seq<nat>, to: nat)
    ensures RowEdges(from, row + [to]) == RowEdges(from, row) + multiset{(from, to)}
  {
    assert seq(|row + [to]|, i requires 0 <= i < |row + [to]| => (from, (row + [to])[i]))
        == seq(|row|, i requires 0 <= i < |row| => (from, row[i])) + [(from, to)];
  }

  lemma RowEdgesNone(from: nat)
    ensures RowEdges(from, []) == multiset{}
  {
  }

  lemma EdgesPush(labels: seq<nat>, rows: seq<seq<nat>>, from: nat, row: seq<nat>)
    requires |labels| == |rows|
    ensures Edges(labels + [from], rows + [row]) == Edges(labels, rows) + RowEdges(from, row)
  {
    assert (labels + [from])[..|rows|] == labels && (rows + [row])[..|rows|] == rows;
  }

  /** One more column in one row is one more edge. */
  lemma {:induction false} EdgesGrow(labels: seq<nat>, rows: seq<seq<nat>>, k: nat, to: nat)
    requires |labels| == |rows| && k < |rows|
    ensures Edges(labels, rows[k := rows[k] + [to]]) == Edges(labels, rows) + multiset{(labels[k], to)}
  {
    hide RowEdges;
    var n := |rows| - 1;
    var grown := rows[k := rows[k] + [to]];
    if k == n {
      assert grown[..n] == rows[..n];
      RowEdgesPush(labels[n], rows[n], to);
    } else {
      EdgesGrow(labels[..n], rows[..n], k, to);
      assert grown[..n] == rows[..n][k := rows[..n][k] + [to]];
    }
  }

  lemma {:induction false} EdgesOfNone(labels: seq<nat>, rows: seq<seq<nat>>)
    requires |labels| == |rows| && forall i :: 0 <= i < |rows| ==> rows[i] == []
    ensures Edges(labels, rows) == multiset{}
  {
    if rows != [] {
      EdgesOfNone(labels[..|rows|-1], rows[..|rows|-1]);
    }
  }
}
