/** Recursive tiling: the adjacency square is cut into quarters up to three levels deep, and every edge goes
    to the first leaf, in tree order, that contains it. */
module Quadtree {

  /** Inclusive ranges of source and destination vertices; a range may be empty (`end == start - 1`). */
  datatype Rect = Rect(fromStart: nat, fromEnd: nat, toStart: nat, toEnd: nat) {
    predicate Valid() { fromStart <= fromEnd + 1 && toStart <= toEnd + 1 }
    predicate Contains(from: int, to: int) { fromStart <= from <= fromEnd && toStart <= to <= toEnd }
    function Rows(): nat
      requires Valid()
    {
      fromEnd + 1 - fromStart
    }
  }

  datatype Node = Node(r: Rect, child: seq<Node>)

  // ---- building the tree

  /** Top left, then the lower rows, then the right columns, then both; the middle rounds down. */
  function Quarters(r: Rect): (q: seq<Rect>)
    ensures |q| == 4
  {
    var f, t := (r.fromStart + r.fromEnd) / 2, (r.toStart + r.toEnd) / 2;
    [Rect(r.fromStart, f, r.toStart, t), Rect(f + 1, r.fromEnd, r.toStart, t),
     Rect(r.fromStart, f, t + 1, r.toEnd), Rect(f + 1, r.fromEnd, t + 1, r.toEnd)]
  }

  function LeavesOfQuarters(r: Rect): seq<Node> {
    var q := Quarters(r);
    [Node(q[0], []), Node(q[1], []), Node(q[2], []), Node(q[3], [])]
  }

  /** Four new leaves for every mark that is 1. */
  function ThirdLevel(r: Rect, marks: seq<int>): seq<Node> {
    if marks == [] then []
    else ThirdLevel(r, marks[..|marks|-1]) + (if marks[|marks|-1] == 1 then LeavesOfQuarters(r) else [])
  }

  /** Quarter `i` of the root, cut once more; whatever the marks select, it is its own quarter `i` that
      receives the third level. */
  function SecondLevel(r: Rect, i: nat, marks: seq<int>): Node
    requires i < 4
  {
    Node(r, LeavesOfQuarters(r)[i := Node(Quarters(r)[i], ThirdLevel(Quarters(r)[i], marks))])
  }

  /** `first` holds the four marks of the first line, `second[i]` the line read for quarter `i`. */
  function FirstLevel(r: Rect, first: seq<int>, second: seq<seq<int>>): seq<Node>
    requires |first| == |second| == 4
  {
    seq(4, i requires 0 <= i < 4 =>
      if first[i] == 1 then SecondLevel(Quarters(r)[i], i, second[i]) else Node(Quarters(r)[i], []))
  }

  function Tree(v: nat, first: seq<int>, second: seq<seq<int>>): Node
    requires |first| == |second| == 4
  {
    var root := Rect(0, v, 0, v);
    Node(root, if 1 in first then FirstLevel(root, first, second) else [])
  }

  // ---- leaves

  function Leaves(n: Node): seq<Rect>
    decreases n, |n.child| + 1
  {
    if n.child == [] then [n.r] else LeavesOf(n, |n.child|)
  }

  /** The leaves under the first `k` children. */
  function LeavesOf(n: Node, k: nat): seq<Rect>
    requires k <= |n.child|
    decreases n, k
  {
    if k == 0 then [] else LeavesOf(n, k - 1) + Leaves(n.child[k-1])
  }

  /** Every point of an inner node is in one of its children, and so on down; ranges are never inverted by
      more than one, so the row count of a node is not negative. */
  ghost predicate Covered(n: Node) {
    && n.r.Valid()
    && (n.child != [] ==> forall x, y :: n.r.Contains(x, y) ==> InSome(n.child, x, y))
    && (forall i :: 0 <= i < |n.child| ==> Covered(n.child[i]))
  }

  predicate InSome(ns: seq<Node>, x: int, y: int) {
    exists i :: 0 <= i < |ns| && ns[i].r.Contains(x, y)
  }

  predicate InLeaf(ls: seq<Rect>, x: int, y: int) {
    exists i :: 0 <= i < |ls| && ls[i].Contains(x, y)
  }

  lemma {:induction false} LeafFound(n: Node, x: int, y: int)
    requires Covered(n) && n.r.Contains(x, y)
    ensures InLeaf(Leaves(n), x, y)
    decreases n
  {
    if n.child == [] {
      assert Leaves(n)[0].Contains(x, y);
    } else {
      assert InSome(n.child, x, y);
      var i :| 0 <= i < |n.child| && n.child[i].r.Contains(x, y);
      LeafFound(n.child[i], x, y);
      LeafKept(n, i, |n.child|, x, y);
    }
  }

  lemma {:induction false} LeafKept(n: Node, i: nat, k: nat, x: int, y: int)
    requires i < k <= |n.child| && InLeaf(Leaves(n.child[i]), x, y)
    ensures InLeaf(LeavesOf(n, k), x, y)
    decreases k
  {
    hide Leaves;
    var rest, last := LeavesOf(n, k - 1), Leaves(n.child[k-1]);
    if i == k - 1 {
      var j :| 0 <= j < |last| && last[j].Contains(x, y);
      assert (rest + last)[|rest| + j].Contains(x, y);
    } else {
      LeafKept(n, i, k - 1, x, y);
      var j :| 0 <= j < |rest| && rest[j].Contains(x, y);
      assert (rest + last)[j].Contains(x, y);
    }
  }

  lemma {:induction false} LeavesValid(n: Node)
    requires Covered(n)
    ensures Leaves(n) != [] && forall i :: 0 <= i < |Leaves(n)| ==> Leaves(n)[i].Valid()
    decreases n, |n.child| + 1
  {
    if n.child != [] {
      LeavesOfValid(n, |n.child|);
    }
  }

  lemma {:induction false} LeavesOfValid(n: Node, k: nat)
    requires Covered(n) && k <= |n.child|
    ensures (k > 0 ==> LeavesOf(n, k) != []) && forall i :: 0 <= i < |LeavesOf(n, k)| ==> LeavesOf(n, k)[i].Valid()
    decreases n, k
  {
    if k > 0 {
      LeavesOfValid(n, k - 1);
      LeavesValid(n.child[k-1]);
    }
  }

  // ---- the tree is covered, for every configuration

  lemma QuartersValid(r: Rect)
    requires r.Valid()
    ensures forall i :: 0 <= i < 4 ==> Quarters(r)[i].Valid()
  {
  }

  lemma QuartersCover(r: Rect, x: int, y: int) returns (i: nat)
    requires r.Valid() && r.Contains(x, y)
    ensures i < 4 && Quarters(r)[i].Contains(x, y)
  {
    var f, t := (r.fromStart + r.fromEnd) / 2, (r.toStart + r.toEnd) / 2;
    i := (if x <= f then 0 else 1) + (if y <= t then 0 else 2);
  }

  /** Children that start with the four quarters and are covered themselves make a covered node. */
  lemma QuarteredIsCovered(n: Node)
    requires n.r.Valid() && |n.child| >= 4
    requires forall i :: 0 <= i < 4 ==> n.child[i].r == Quarters(n.r)[i]
    requires forall i :: 0 <= i < |n.child| ==> Covered(n.child[i])
    ensures Covered(n)
  {
    hide Quarters;
    forall x, y | n.r.Contains(x, y) ensures InSome(n.child, x, y) {
      var i := QuartersCover(n.r, x, y);
      assert n.child[i].r.Contains(x, y);
    }
  }

  lemma LeafIsCovered(r: Rect)
    requires r.Valid()
    ensures Covered(Node(r, []))
  {
  }

  lemma {:induction false} ThirdLevelShape(r: Rect, marks: seq<int>)
    requires r.Valid()
    ensures var c := ThirdLevel(r, marks);
      && (c == [] || (|c| >= 4 && forall i :: 0 <= i < 4 ==> c[i].r == Quarters(r)[i]))
      && (forall i :: 0 <= i < |c| ==> Covered(c[i]))
  {
    hide Quarters, Covered;
    if marks != [] {
      ThirdLevelShape(r, marks[..|marks|-1]);
      QuartersValid(r);
      forall i | 0 <= i < 4 ensures Covered(LeavesOfQuarters(r)[i]) {
        LeafIsCovered(Quarters(r)[i]);
      }
    }
  }

  lemma SecondLevelCovered(r: Rect, i: nat, marks: seq<int>)
    requires r.Valid() && i < 4
    ensures Covered(SecondLevel(r, i, marks))
  {
    hide Quarters, Covered, ThirdLevel;
    QuartersValid(r);
    var q := Quarters(r)[i];
    ThirdLevelShape(q, marks);
    var inner := Node(q, ThirdLevel(q, marks));
    if inner.child == [] {
      LeafIsCovered(q);
    } else {
      QuarteredIsCovered(inner);
    }
    forall j | 0 <= j < 4 ensures Covered(Node(Quarters(r)[j], [])) {
      LeafIsCovered(Quarters(r)[j]);
    }
    QuarteredIsCovered(SecondLevel(r, i, marks));
  }

  lemma TreeCovered(v: nat, first: seq<int>, second: seq<seq<int>>)
    requires |first| == |second| == 4
    ensures Covered(Tree(v, first, second))
  {
    hide Quarters, Covered, SecondLevel;
    var root := Rect(0, v, 0, v);
    QuartersValid(root);
    LeafIsCovered(root);
    var children := FirstLevel(root, first, second);
    forall i | 0 <= i < 4 ensures Covered(children[i]) && children[i].r == Quarters(root)[i] {
      SecondLevelCovered(Quarters(root)[i], i, second[i]);
      LeafIsCovered(Quarters(root)[i]);
      SecondLevelRect(Quarters(root)[i], i, second[i]);
    }
    QuarteredIsCovered(Node(root, children));
  }

  lemma SecondLevelRect(r: Rect, i: nat, marks: seq<int>)
    requires i < 4
    ensures SecondLevel(r, i, marks).r == r
  {
  }

  /** For every configuration, every point of the square lies in some leaf, and leaves have a row count. */
  lemma EveryPointInSomeLeaf(v: nat, first: seq<int>, second: seq<seq<int>>, x: nat, y: nat)
    requires |first| == |second| == 4 && x <= v && y <= v
    ensures InLeaf(Leaves(Tree(v, first, second)), x, y)
    ensures forall i :: 0 <= i < |Leaves(Tree(v, first, second))| ==> Leaves(Tree(v, first, second))[i].Valid()
  {
    hide Covered, Leaves, FirstLevel;
    TreeCovered(v, first, second);
    LeafFound(Tree(v, first, second), x, y);
    LeavesValid(Tree(v, first, second));
  }

  // ---- which quarter, and in which order

  /** The quarters share the rectangle out: the middle belongs to the lower half, columns count double. */
  lemma QuartersDivide(r: Rect, x: int, y: int, i: nat)
    requires r.Valid() && i < 4
    ensures Quarters(r)[i].Contains(x, y)
       <==> r.Contains(x, y)
            && i == (if 2 * x <= r.fromStart + r.fromEnd then 0 else 1) + (if 2 * y <= r.toStart + r.toEnd then 0 else 2)
  {
  }

  function Ones(marks: seq<int>): nat {
    if marks == [] then 0 else Ones(marks[..|marks| - 1]) + (if marks[|marks| - 1] == 1 then 1 else 0)
  }

  function Copies(q: seq<Rect>, n: nat): seq<Rect> {
    if n == 0 then [] else Copies(q, n - 1) + q
  }

  lemma {:induction false} LeavesOfPrefix(n: Node, m: Node, k: nat)
    requires k <= |n.child| && k <= |m.child| && n.child[..k] == m.child[..k]
    ensures LeavesOf(n, k) == LeavesOf(m, k)
    decreases k
  {
    hide Leaves;
    if k > 0 {
      assert n.child[..k-1] == n.child[..k][..k-1] && m.child[..k-1] == m.child[..k][..k-1];
      assert n.child[k-1] == n.child[..k][k-1] && m.child[k-1] == m.child[..k][k-1];
      LeavesOfPrefix(n, m, k - 1);
    }
  }

  /** Four children from position `k` on. */
  lemma LeavesOfFour(n: Node, k: nat)
    requires k + 4 <= |n.child|
    ensures LeavesOf(n, k + 4)
         == LeavesOf(n, k) + Leaves(n.child[k]) + Leaves(n.child[k+1]) + Leaves(n.child[k+2]) + Leaves(n.child[k+3])
  {
    hide Leaves;
    assert LeavesOf(n, k + 1) == LeavesOf(n, k) + Leaves(n.child[k]);
    assert LeavesOf(n, k + 2) == LeavesOf(n, k + 1) + Leaves(n.child[k+1]);
    assert LeavesOf(n, k + 3) == LeavesOf(n, k + 2) + Leaves(n.child[k+2]);
  }

  lemma LeafItself(r: Rect)
    ensures Leaves(Node(r, [])) == [r]
  {
  }

  /** Every mark that is 1 adds the four quarters once more. */
  lemma {:induction false} ThirdLevelLeaves(r: Rect, marks: seq<int>)
    ensures var n := Node(r, ThirdLevel(r, marks));
      LeavesOf(n, |n.child|) == Copies(Quarters(r), Ones(marks))
    ensures ThirdLevel(r, marks) == [] <==> Ones(marks) == 0
  {
    hide Quarters, Leaves, LeavesOf, Copies;
    if marks == [] {
      InnerLeaves(Node(r, []));
      assert Copies(Quarters(r), 0) == [] by { NoCopies(Quarters(r)); }
    } else {
      var most := marks[..|marks| - 1];
      ThirdLevelLeaves(r, most);
      var n, m := Node(r, ThirdLevel(r, marks)), Node(r, ThirdLevel(r, most));
      LeavesOfPrefix(n, m, |m.child|);
      if marks[|marks| - 1] == 1 {
        FourLeaves(n, |m.child|, Quarters(r));
        OneMoreCopy(Quarters(r), Ones(most));
      }
    }
  }

  lemma NoCopies(q: seq<Rect>)
    ensures Copies(q, 0) == []
  {
  }

  lemma OneMoreCopy(q: seq<Rect>, n: nat)
    ensures Copies(q, n + 1) == Copies(q, n) + q
  {
  }

  lemma FourLeaves(n: Node, k: nat, q: seq<Rect>)
    requires k + 4 <= |n.child| && |q| == 4 && forall i :: 0 <= i < 4 ==> n.child[k + i] == Node(q[i], [])
    ensures LeavesOf(n, k + 4) == LeavesOf(n, k) + q
  {
    hide Leaves, LeavesOf;
    LeavesOfFour(n, k);
    LeafItself(q[0]);
    LeafItself(q[1]);
    LeafItself(q[2]);
    LeafItself(q[3]);
    assert n.child[k + 0] == Node(q[0], []);
    assert q == [q[0]] + [q[1]] + [q[2]] + [q[3]];
    assert LeavesOf(n, k) + [q[0]] + [q[1]] + [q[2]] + [q[3]] == LeavesOf(n, k) + q;
  }

  /** What stands for quarter `j` of a rectangle whose quarter `i` receives the third level. */
  function Cut(r: Rect, i: nat, j: nat, marks: seq<int>): seq<Rect>
    requires i < 4 && j < 4
  {
    if j == i && Ones(marks) > 0 then Copies(Quarters(Quarters(r)[i]), Ones(marks)) else [Quarters(r)[j]]
  }

  lemma SecondLevelLeaves(r: Rect, i: nat, marks: seq<int>)
    requires i < 4
    ensures Leaves(SecondLevel(r, i, marks)) == Cut(r, i, 0, marks) + Cut(r, i, 1, marks) + Cut(r, i, 2, marks) + Cut(r, i, 3, marks)
  {
    hide Quarters, Leaves, ThirdLevel, Copies;
    var n := SecondLevel(r, i, marks);
    InnerLeaves(n);
    LeavesOfFour(n, 0);
    forall j: nat | j < 4 ensures Leaves(n.child[j]) == Cut(r, i, j, marks) {
      var q := Quarters(r)[j];
      LeafItself(q);
      if j == i {
        ThirdLevelLeaves(q, marks);
        InnerLeaves(Node(q, ThirdLevel(q, marks)));
      }
    }
  }

  lemma InnerLeaves(n: Node)
    ensures n.child != [] ==> Leaves(n) == LeavesOf(n, |n.child|)
    ensures LeavesOf(n, 0) == []
  {
  }

  /** The leaves under quarter `i` of the root. */
  function Branch(r: Rect, i: nat, mark: int, marks: seq<int>): seq<Rect>
    requires i < 4
  {
    if mark != 1 then [r]
    else Cut(r, i, 0, marks) + Cut(r, i, 1, marks) + Cut(r, i, 2, marks) + Cut(r, i, 3, marks)
  }

  /** The leaves of the tree in order: the square itself if no mark of the first line is 1; otherwise its
      quarters in turn, each marked one given by its own quarters, of which only the one of the same number
      is cut once more, four leaves for each mark of its line. */
  lemma LeavesInOrder(v: nat, first: seq<int>, second: seq<seq<int>>)
    requires |first| == |second| == 4
    ensures var (root, leaves) := (Rect(0, v, 0, v), Leaves(Tree(v, first, second)));
      var q := Quarters(root);
      if 1 !in first then leaves == [root]
      else leaves == Branch(q[0], 0, first[0], second[0]) + Branch(q[1], 1, first[1], second[1])
                     + Branch(q[2], 2, first[2], second[2]) + Branch(q[3], 3, first[3], second[3])
  {
    hide Quarters, Leaves, LeavesOf, Branch, FirstLevel;
    var n := Tree(v, first, second);
    LeafItself(n.r);
    if 1 in first {
      FirstLevelBranches(n.r, first, second);
      InnerLeaves(n);
      LeavesOfFour(n, 0);
    }
  }

  lemma FirstLevelBranches(r: Rect, first: seq<int>, second: seq<seq<int>>)
    requires |first| == |second| == 4
    ensures var c := FirstLevel(r, first, second);
      |c| == 4 && forall i: nat :: i < 4 ==> Leaves(c[i]) == Branch(Quarters(r)[i], i, first[i], second[i])
  {
    hide Quarters, Leaves, LeavesOf, Cut, SecondLevel;
    forall i: nat | i < 4 ensures Leaves(FirstLevel(r, first, second)[i]) == Branch(Quarters(r)[i], i, first[i], second[i]) {
      LeafItself(Quarters(r)[i]);
      SecondLevelLeaves(Quarters(r)[i], i, second[i]);
    }
  }

  // ---- the loops that build the tree and collect its leaves

  method AddQuarters(r: Rect, child: seq<Node>) returns (grown: seq<Node>)
    ensures grown == child + LeavesOfQuarters(r)
  {
    var f, t := (r.fromStart + r.fromEnd) / 2, (r.toStart + r.toEnd) / 2;
    grown := child + [Node(Rect(r.fromStart, f, r.toStart, t), [])];
    grown := grown + [Node(Rect(f + 1, r.fromEnd, r.toStart, t), [])];
    grown := grown + [Node(Rect(r.fromStart, f, t + 1, r.toEnd), [])];
    grown := grown + [Node(Rect(f + 1, r.fromEnd, t + 1, r.toEnd), [])];
  }

  lemma ThirdLevelNext(r: Rect, marks: seq<int>, k: nat)
    requires k < |marks|
    ensures ThirdLevel(r, marks[..k+1])
         == if marks[k] == 1 then ThirdLevel(r, marks[..k]) + LeavesOfQuarters(r) else ThirdLevel(r, marks[..k])
  {
    assert marks[..k+1][..k] == marks[..k];
  }

  method CutSecond(parent: Node, i: nat, marks: seq<int>) returns (n: Node)
    requires i < 4 && parent.child == []
    ensures n == SecondLevel(parent.r, i, marks)
  {
    hide Quarters;
    var nodes := AddQuarters(parent.r, []);
    assert [] + LeavesOfQuarters(parent.r) == LeavesOfQuarters(parent.r);
    ghost var q := Quarters(parent.r)[i];
    var read := 0;
    while read < |marks|
      invariant 0 <= read <= |marks| && |nodes| == 4
      invariant nodes == LeavesOfQuarters(parent.r)[i := Node(q, ThirdLevel(q, marks[..read]))]
    {
      ThirdLevelNext(q, marks, read);
      if marks[read] == 1 {
        var grown := AddQuarters(nodes[i].r, nodes[i].child);
        nodes := nodes[i := Node(nodes[i].r, grown)];
      }
      read := read + 1;
    }
    assert marks[..read] == marks;
    n := Node(parent.r, nodes);
  }

  /** The first `depth` quarters are finished, the others are still leaves. */
  predicate CutUpTo(r: Rect, first: seq<int>, second: seq<seq<int>>, depth: nat, children: seq<Node>)
    requires |first| == |second| == 4
  {
    && |children| == 4 && depth <= 4
    && (forall j :: 0 <= j < depth ==> children[j] == FirstLevel(r, first, second)[j])
    && (forall j :: depth <= j < 4 ==> children[j] == Node(Quarters(r)[j], []))
  }

  lemma CutStart(r: Rect, first: seq<int>, second: seq<seq<int>>)
    requires |first| == |second| == 4
    ensures |LeavesOfQuarters(r)| == 4 && CutUpTo(r, first, second, 0, LeavesOfQuarters(r))
  {
    hide Quarters, FirstLevel;
  }

  lemma CutNext(r: Rect, first: seq<int>, second: seq<seq<int>>, depth: nat, children: seq<Node>)
    requires |first| == |second| == 4 && depth < 4 && CutUpTo(r, first, second, depth, children)
    ensures children[depth] == Node(Quarters(r)[depth], [])
    ensures first[depth] == 1 ==>
      CutUpTo(r, first, second, depth + 1, children[depth := SecondLevel(Quarters(r)[depth], depth, second[depth])])
    ensures first[depth] != 1 ==> CutUpTo(r, first, second, depth + 1, children)
  {
    hide Quarters, SecondLevel;
  }

  lemma CutEnd(r: Rect, first: seq<int>, second: seq<seq<int>>, children: seq<Node>)
    requires |first| == |second| == 4 && CutUpTo(r, first, second, 4, children)
    ensures children == FirstLevel(r, first, second)
  {
    hide Quarters, SecondLevel;
  }

  lemma NothingBefore(nodes: seq<Node>)
    ensures [] + nodes == nodes
  {
  }

  lemma TreeIs(v: nat, first: seq<int>, second: seq<seq<int>>)
    requires |first| == |second| == 4
    ensures var root := Rect(0, v, 0, v);
      Tree(v, first, second) == Node(root, if 1 in first then FirstLevel(root, first, second) else [])
  {
  }

  /** The whole tree, as the configuration file describes it. */
  method BuildTree(v: nat, first: seq<int>, second: seq<seq<int>>) returns (root: Node)
    requires |first| == |second| == 4
    ensures root == Tree(v, first, second)
    ensures Covered(root) && root.r == Rect(0, v, 0, v)
  {
    hide *;
    TreeCovered(v, first, second);
    TreeIs(v, first, second);
    var r := Rect(0, v, 0, v);
    root := Node(r, []);
    var split := 1 in first;
    if split {
      var children := AddQuarters(r, []);
      NothingBefore(LeavesOfQuarters(r));
      CutStart(r, first, second);
      var depth := 0;
      while depth < 4
        invariant 0 <= depth <= 4 && |children| == 4 && CutUpTo(r, first, second, depth, children)
      {
        CutNext(r, first, second, depth, children);
        if first[depth] == 1 {
          var cut := CutSecond(children[depth], depth, second[depth]);
          children := children[depth := cut];
        }
        depth := depth + 1;
      }
      CutEnd(r, first, second, children);
      root := Node(r, children);
    }
  }

  /** Append the leaves below `n`, in order. */
  method CollectLeaves(n: Node, found: seq<Rect>) returns (all: seq<Rect>)
    ensures all == found + Leaves(n)
    decreases n
  {
    if n.child == [] {
      return found + [n.r];
    }
    all := found;
    var i := 0;
    while i < |n.child|
      invariant 0 <= i <= |n.child| && all == found + LeavesOf(n, i)
    {
      all := CollectLeaves(n.child[i], all);
      i := i + 1;
    }
  }
}
