/** The address mapper: field positions computed from a permutation string, then shift and mask. */
module AddressMapping {
  import opened Types
  import opened Digits

  // ---- powers of two

  function Pow2(n: nat): (p: nat)
    ensures p > 0
  {
    if n == 0 then 1 else 2 * Pow2(n - 1)
  }

  lemma {:induction false} Pow2Sum(a: nat, b: nat)
    ensures Pow2(a + b) == Pow2(a) * Pow2(b)
  {
    if a > 0 {
      Pow2Sum(a - 1, b);
      TwiceProduct(Pow2(a - 1), Pow2(b));
    }
  }

  lemma TwiceProduct(x: nat, y: nat)
    ensures 2 * x * y == 2 * (x * y)
  {
  }

  /** The largest exponent whose power does not exceed `n`, found by halving; 0 for n <= 1. */
  method LogBase2(n: int) returns (i: nat)
    ensures n >= 1 ==> Pow2(i) <= n < Pow2(i + 1)
    ensures n < 1 ==> i == 0
  {
    i := 0;
    var p := n;
    ghost var low := 0;
    while p > 1
      invariant n < 1 ==> i == 0 && p == n
      invariant n >= 1 ==> p >= 1 && n == Pow2(i) * p + low && 0 <= low < Pow2(i)
      decreases p
    {
      low := low + Pow2(i) * (p % 2);
      HalvingStep(n, i, p, low - Pow2(i) * (p % 2));
      p := p / 2;
      i := i + 1;
    }
  }

  lemma HalvingStep(n: int, i: nat, p: int, low: int)
    requires p > 1 && n == Pow2(i) * p + low && 0 <= low < Pow2(i)
    ensures n == Pow2(i + 1) * (p / 2) + (low + Pow2(i) * (p % 2))
    ensures 0 <= low + Pow2(i) * (p % 2) < Pow2(i + 1)
  {
    var h, r := p / 2, p % 2;
    assert p == 2 * h + r;
    assert Pow2(i) * p == Pow2(i) * (2 * h) + Pow2(i) * r;
    assert Pow2(i) * (2 * h) == Pow2(i + 1) * h;
  }

  // ---- shift and mask

  /** `n >> w` */
  function Shift(n: nat, w: nat): nat {
    Quotient(n, Pow2(w))
  }

  function Quotient(n: nat, m: nat): nat
    requires m > 0
  {
    n / m
  }

  /** `n & ((1 << w) - 1)` */
  function Mask(n: nat, w: nat): nat {
    n % Pow2(w)
  }

  lemma ShiftAndMask(n: nat, w: nat)
    ensures n == Pow2(w) * Shift(n, w) + Mask(n, w) && Mask(n, w) < Pow2(w)
  {
    Recompose(n, Pow2(w));
  }

  lemma ShiftAndMaskAre(n: nat, w: nat, high: nat, low: nat)
    requires n == Pow2(w) * high + low && low < Pow2(w)
    ensures Shift(n, w) == high && Mask(n, w) == low
  {
    DivModIs(n, high, low, Pow2(w));
  }

  lemma ShiftTwice(n: nat, a: nat, b: nat)
    ensures Shift(Shift(n, a), b) == Shift(n, a + b)
  {
    Pow2Sum(a, b);
    DivDiv(n, Pow2(a), Pow2(b));
  }

  lemma DivDiv(n: nat, a: nat, b: nat)
    requires a > 0 && b > 0
    ensures a * b > 0 && n / a / b == n / (a * b)
  {
    Recompose(n, a);
    Recompose(n / a, b);
    var q, r2, r1 := n / a / b, n / a % b, n % a;
    assert n == a * (b * q + r2) + r1;
    assert a * (b * q + r2) == (a * b) * q + a * r2;
    DigitsBelow(r2, b, r1, a);
    assert r2 * a == a * r2 && b * a == a * b;
    DivModIs(n, q, a * r2 + r1, a * b);
  }

  lemma ShiftBelow(n: nat, a: nat, b: nat)
    requires n < Pow2(a + b)
    ensures Shift(n, a) < Pow2(b)
  {
    Pow2Sum(a, b);
    ShiftAndMask(n, a);
    hide Shift, Mask;
    if Shift(n, a) >= Pow2(b) {
      MulMono(Pow2(a), Pow2(b), Shift(n, a));
    }
  }

  // ---- consecutive bit fields

  function Sum(ws: seq<nat>): nat {
    if ws == [] then 0 else ws[0] + Sum(ws[1..])
  }

  /** The fields of `n`, lowest first, with the given widths. */
  function Split(n: nat, ws: seq<nat>): (ds: seq<nat>)
    ensures |ds| == |ws|
    decreases |ws|
  {
    hide Shift, Mask;
    if ws == [] then [] else [Mask(n, ws[0])] + Split(Shift(n, ws[0]), ws[1..])
  }

  function Join(ds: seq<nat>, ws: seq<nat>): nat
    requires |ds| == |ws|
  {
    if ws == [] then 0 else ds[0] + Pow2(ws[0]) * Join(ds[1..], ws[1..])
  }

  predicate FitsIn(ds: seq<nat>, ws: seq<nat>) {
    |ds| == |ws| && forall i :: 0 <= i < |ds| ==> ds[i] < Pow2(ws[i])
  }

  lemma {:induction false} JoinOfSplit(n: nat, ws: seq<nat>)
    ensures FitsIn(Split(n, ws), ws)
    ensures n < Pow2(Sum(ws)) ==> Join(Split(n, ws), ws) == n
  {
    if ws != [] {
      var w, rest := ws[0], ws[1..];
      hide Shift, Mask, Pow2;
      ShiftAndMask(n, w);
      JoinOfSplit(Shift(n, w), rest);
      if n < Pow2(Sum(ws)) {
        ShiftBelow(n, w, Sum(rest));
      }
      assert Split(n, ws)[1..] == Split(Shift(n, w), rest);
    } else {
      assert Pow2(0) == 1;
    }
  }

  lemma {:induction false} SplitOfJoin(ds: seq<nat>, ws: seq<nat>)
    requires FitsIn(ds, ws)
    ensures Join(ds, ws) < Pow2(Sum(ws))
    ensures Split(Join(ds, ws), ws) == ds
  {
    if ws != [] {
      var w, rest := ws[0], Join(ds[1..], ws[1..]);
      hide Shift, Mask, Pow2;
      SplitOfJoin(ds[1..], ws[1..]);
      ShiftAndMaskAre(Join(ds, ws), w, rest, ds[0]);
      Pow2Sum(w, Sum(ws[1..]));
      DigitsBelow(rest, Pow2(Sum(ws[1..])), ds[0], Pow2(w));
    }
  }

  /** Field `i` is what shifting by the widths below it and masking gives. */
  lemma {:induction false} SplitIsShiftAndMask(n: nat, ws: seq<nat>, i: nat)
    requires i < |ws|
    ensures Split(n, ws)[i] == Mask(Shift(n, Sum(ws[..i])), ws[i])
    decreases i
  {
    if i == 0 {
      assert Sum(ws[..i]) == 0 && Pow2(0) == 1 && Shift(n, 0) == n;
    } else {
      hide Shift, Mask, Pow2;
      SplitIsShiftAndMask(Shift(n, ws[0]), ws[1..], i - 1);
      assert ws[..i][1..] == ws[1..][..i-1] && ws[..i][0] == ws[0];
      ShiftTwice(n, ws[0], Sum(ws[1..][..i-1]));
    }
  }

  // ---- the mapping string

  datatype MappingError = BadLength | UnknownField(token: string) | MissingField
  datatype Result<T> = Ok(value: T) | Err(error: MappingError)

  function Fields(): set<string> {
    {"ch", "ra", "bg", "ba", "ro", "co"}
  }

  /** The two-character fields of a mapping, lowest bits (last field) first. */
  function Order(mapping: string): seq<string> {
    if |mapping| < 2 then [] else [mapping[|mapping|-2..]] + Order(mapping[..|mapping|-2])
  }

  function ToSet(s: seq<string>): set<string> {
    set x | x in s
  }

  /** Each field exactly once. */
  predicate IsOrder(order: seq<string>) {
    |order| == 6 && ToSet(order) == Fields()
  }

  function WidthsOf(order: seq<string>, widths: map<string, nat>): seq<nat>
    requires forall i :: 0 <= i < |order| ==> order[i] in widths
  {
    seq(|order|, i requires 0 <= i < |order| => widths[order[i]])
  }

  lemma {:induction false} SetSize(s: seq<string>)
    ensures |ToSet(s)| <= |s|
    ensures |ToSet(s)| == |s| ==> forall i, j :: 0 <= i < j < |s| ==> s[i] != s[j]
  {
    if s != [] {
      SetSize(s[1..]);
      assert s == [s[0]] + s[1..];
      assert ToSet(s) == {s[0]} + ToSet(s[1..]);
      if |ToSet(s)| == |s| {
        assert s[0] !in ToSet(s[1..]);
        forall i, j | 0 <= i < j < |s| ensures s[i] != s[j] {
          if i == 0 {
            assert s[j] in s[1..];
          } else {
            assert s[i] == s[1..][i-1] && s[j] == s[1..][j-1];
          }
        }
      }
    }
  }

  lemma OrderDistinct(order: seq<string>)
    requires IsOrder(order)
    ensures forall i, j :: 0 <= i < j < |order| ==> order[i] != order[j]
  {
    assert |Fields()| == 6;
    SetSize(order);
  }

  lemma {:induction false} SumNext(ws: seq<nat>, k: nat)
    requires k < |ws|
    ensures Sum(ws[..k+1]) == Sum(ws[..k]) + ws[k]
  {
    if k > 0 {
      SumNext(ws[1..], k - 1);
      assert ws[..k+1][1..] == ws[1..][..k] && ws[..k][1..] == ws[1..][..k-1];
    } else {
      assert ws[..1] == [ws[0]] && ws[..0] == [] && ws[..1][1..] == [];
    }
  }

  /** Where each field starts: the total width of the fields below it. */
  predicate PositionsOk(order: seq<string>, widths: map<string, nat>, pos: map<string, nat>)
    requires forall i :: 0 <= i < |order| ==> order[i] in widths
  {
    forall i :: 0 <= i < |order| ==> order[i] in pos && pos[order[i]] == Sum(WidthsOf(order, widths)[..i])
  }

  /** Cut the mapping into its fields, in the order written. */
  method CutFields(mapping: string) returns (fields: seq<string>)
    requires |mapping| % 2 == 0
    ensures 2 * |fields| == |mapping|
    ensures forall i :: 0 <= i < |fields| ==> fields[i] == mapping[2*i..2*i+2]
  {
    fields := [];
    var i := 0;
    while i < |mapping|
      invariant 0 <= i <= |mapping| && i == 2 * |fields|
      invariant forall j :: 0 <= j < |fields| ==> fields[j] == mapping[2*j..2*j+2]
    {
      fields := fields + [mapping[i..i+2]];
      i := i + 2;
    }
  }

  lemma {:induction false} OrderIsReverse(mapping: string, fields: seq<string>)
    requires 2 * |fields| == |mapping| && forall i :: 0 <= i < |fields| ==> fields[i] == mapping[2*i..2*i+2]
    ensures |Order(mapping)| == |fields|
    ensures forall i :: 0 <= i < |fields| ==> Order(mapping)[i] == fields[|fields|-1-i]
    decreases |fields|
  {
    if fields != [] {
      var n := |fields| - 1;
      var shorter := mapping[..|mapping|-2];
      forall i | 0 <= i < n ensures fields[..n][i] == shorter[2*i..2*i+2] {
      }
      OrderIsReverse(shorter, fields[..n]);
    }
  }

  /** The lowest `k` fields have been placed, a repeated field where it was met last. */
  predicate Placed(order: seq<string>, widths: map<string, nat>, k: nat, pos: map<string, nat>, p: nat) {
    && k <= |order| && (forall i :: 0 <= i < k ==> order[i] in widths)
    && pos.Keys == ToSet(order[..k])
    && p == Sum(WidthsOf(order[..k], widths))
    && (forall i :: 0 <= i < k && (forall j :: i < j < k ==> order[j] != order[i]) ==>
          order[i] in pos && pos[order[i]] == Sum(WidthsOf(order[..i], widths)))
  }

  lemma PlaceStep(order: seq<string>, widths: map<string, nat>, k: nat, pos: map<string, nat>, p: nat)
    requires Placed(order, widths, k, pos, p) && k < |order| && order[k] in widths
    ensures Placed(order, widths, k + 1, pos[order[k] := p], p + widths[order[k]])
  {
    hide Sum;
    var ws := WidthsOf(order[..k+1], widths);
    assert order[..k+1] == order[..k] + [order[k]];
    assert ws[..k] == WidthsOf(order[..k], widths) && ws[..k+1] == ws;
    SumNext(ws, k);
  }

  lemma PlaceEnd(order: seq<string>, widths: map<string, nat>, pos: map<string, nat>, p: nat)
    requires |order| == 6 && widths.Keys == Fields() && Placed(order, widths, 6, pos, p)
    ensures pos.Keys == Fields() <==> IsOrder(order)
    ensures forall i :: 0 <= i < |order| ==> order[i] in widths
    ensures IsOrder(order) ==> PositionsOk(order, widths, pos)
  {
    hide Sum, Fields;
    assert order[..6] == order;
    if IsOrder(order) {
      OrderDistinct(order);
      forall i | 0 <= i < |order| ensures order[i] in pos && pos[order[i]] == Sum(WidthsOf(order, widths)[..i]) {
        assert WidthsOf(order, widths)[..i] == WidthsOf(order[..i], widths);
      }
    }
  }

  lemma UnknownToken(order: seq<string>, k: nat)
    requires k < |order| && order[k] !in Fields()
    ensures !IsOrder(order)
  {
    hide Fields;
    assert order[k] in ToSet(order);
  }

  /** The mapping is accepted exactly when it is a permutation of the six fields, and then every field
      starts where the fields written after it end. */
  method SetAddressMapping(mapping: string, widths: map<string, nat>) returns (r: Result<map<string, nat>>)
    requires widths.Keys == Fields()
    ensures r.Ok? <==> |mapping| == 12 && IsOrder(Order(mapping))
    ensures r.Ok? ==> r.value.Keys == Fields()
    ensures r.Ok? ==> (forall i :: 0 <= i < 6 ==> Order(mapping)[i] in widths) && PositionsOk(Order(mapping), widths, r.value)
  {
    hide Placed, IsOrder, Order, PositionsOk, Sum;
    if |mapping| != 12 {
      return Err(BadLength);
    }
    var fields := CutFields(mapping);
    ghost var order := Order(mapping);
    OrderIsReverse(mapping, fields);
    var pos: map<string, nat> := map[];
    var p := 0;
    ghost var k := 0;
    PlaceStart(order, widths);
    while fields != []
      invariant k + |fields| == 6 == |order|
      invariant forall i :: 0 <= i < |fields| ==> fields[i] == order[5-i]
      invariant Placed(order, widths, k, pos, p)
      decreases |fields|
    {
      var token := fields[|fields|-1];
      fields := fields[..|fields|-1];
      if token !in widths {
        UnknownToken(order, k);
        return Err(UnknownField(token));
      }
      PlaceStep(order, widths, k, pos, p);
      pos := pos[token := p];
      p := p + widths[token];
      k := k + 1;
    }
    PlaceEnd(order, widths, pos, p);
    PlacedKnown(order, widths, pos, p);
    if "ch" in pos && "ra" in pos && "bg" in pos && "ba" in pos && "ro" in pos && "co" in pos {
      r := Ok(pos);
    } else {
      r := Err(MissingField);
    }
  }

  lemma PlaceStart(order: seq<string>, widths: map<string, nat>)
    ensures Placed(order, widths, 0, map[], 0)
  {
  }

  lemma PlacedKnown(order: seq<string>, widths: map<string, nat>, pos: map<string, nat>, p: nat)
    requires |order| == 6 && widths.Keys == Fields() && Placed(order, widths, 6, pos, p)
    ensures pos.Keys <= Fields() && forall i :: 0 <= i < 6 ==> order[i] in widths
  {
    hide Sum;
    forall x | x in pos.Keys ensures x in Fields() {
      assert x in order[..6];
    }
  }

  // ---- decoding

  /** What the configuration keeps of a mapping. */
  datatype Layout = Layout(order: seq<string>, widths: map<string, nat>, pos: map<string, nat>, shift: nat) {
    predicate Valid() {
      && IsOrder(order) && widths.Keys == Fields() && pos.Keys == Fields()
      && (forall i :: 0 <= i < |order| ==> order[i] in widths)
      && PositionsOk(order, widths, pos)
    }
  }

  function Widths(l: Layout): seq<nat>
    requires l.Valid()
  {
    WidthsOf(l.order, l.widths)
  }

  function Field(l: Layout, line: nat, f: string): nat
    requires l.Valid() && f in Fields()
  {
    Mask(Shift(line, l.pos[f]), l.widths[f])
  }

  /** The coordinates of a line number. */
  function DecodeLine(l: Layout, line: nat): Address
    requires l.Valid()
  {
    Address(Field(l, line, "ch"), Field(l, line, "ra"), Field(l, line, "bg"), Field(l, line, "ba"),
            Field(l, line, "ro"), Field(l, line, "co"))
  }

  function Decode(l: Layout, hex: nat): Address
    requires l.Valid()
  {
    DecodeLine(l, Shift(hex, l.shift))
  }

  function Coordinate(a: Address, f: string): int {
    if f == "ch" then a.channel else if f == "ra" then a.rank else if f == "bg" then a.bankgroup
    else if f == "ba" then a.bank else if f == "ro" then a.row else a.column
  }

  /** Every coordinate is representable in its field. */
  predicate Representable(l: Layout, a: Address)
    requires l.Valid()
  {
    forall f :: f in Fields() ==> 0 <= Coordinate(a, f) < Pow2(l.widths[f])
  }

  lemma InOrder(l: Layout, i: nat)
    requires l.Valid() && i < 6
    ensures l.order[i] in Fields()
  {
    hide Fields;
    assert l.order[i] in ToSet(l.order);
  }

  function Coordinates(l: Layout, a: Address): (ds: seq<nat>)
    requires l.Valid() && Representable(l, a)
    ensures FitsIn(ds, Widths(l))
  {
    hide Fields;
    assert forall i :: 0 <= i < 6 ==> l.order[i] in Fields() by {
      forall i | 0 <= i < 6 ensures l.order[i] in Fields() { InOrder(l, i); }
    }
    seq(6, i requires 0 <= i < 6 => Coordinate(a, l.order[i]) as nat)
  }

  /** The line number of a representable address. */
  function EncodeLine(l: Layout, a: Address): nat
    requires l.Valid() && Representable(l, a)
  {
    Join(Coordinates(l, a), Widths(l))
  }

  lemma FieldIsSplit(l: Layout, line: nat, i: nat)
    requires l.Valid() && i < 6
    ensures l.order[i] in Fields() && Field(l, line, l.order[i]) == Split(line, Widths(l))[i]
  {
    hide Mask, Shift, Sum, Split, Fields;
    InOrder(l, i);
    SplitIsShiftAndMask(line, Widths(l), i);
  }

  lemma DecodedCoordinate(l: Layout, line: nat, f: string)
    requires l.Valid() && f in Fields()
    ensures Coordinate(DecodeLine(l, line), f) == Field(l, line, f)
  {
    hide Field;
  }

  /** Every decoded coordinate fits its field. */
  lemma DecodedIsRepresentable(l: Layout, line: nat)
    requires l.Valid()
    ensures Representable(l, DecodeLine(l, line))
  {
    hide DecodeLine, Fields;
    forall f | f in Fields() ensures 0 <= Coordinate(DecodeLine(l, line), f) < Pow2(l.widths[f]) {
      DecodedCoordinate(l, line, f);
      ShiftAndMask(Shift(line, l.pos[f]), l.widths[f]);
    }
  }

  /** Line numbers below 2^W survive decoding and encoding. */
  lemma LineRoundTrip(l: Layout, line: nat)
    requires l.Valid() && line < Pow2(Sum(Widths(l)))
    ensures Representable(l, DecodeLine(l, line)) && EncodeLine(l, DecodeLine(l, line)) == line
  {
    hide DecodeLine, Fields, Representable, Field, Split, Join, Layout.Valid;
    DecodedIsRepresentable(l, line);
    SixWidths(l);
    var a := DecodeLine(l, line);
    forall i | 0 <= i < 6 ensures Coordinates(l, a)[i] == Split(line, Widths(l))[i] {
      FieldIsSplit(l, line, i);
      DecodedCoordinate(l, line, l.order[i]);
    }
    assert Coordinates(l, a) == Split(line, Widths(l));
    JoinOfSplit(line, Widths(l));
  }

  lemma SixWidths(l: Layout)
    requires l.Valid()
    ensures |Widths(l)| == 6 == |l.order|
  {
  }

  lemma PlaceOf(l: Layout, f: string) returns (i: nat)
    requires l.Valid() && f in Fields()
    ensures i < 6 && l.order[i] == f
  {
    hide Fields;
    assert f in ToSet(l.order);
    i :| 0 <= i < 6 && l.order[i] == f;
  }

  /** Addresses survive encoding and decoding, and their line number is below 2^W. */
  lemma AddressRoundTrip(l: Layout, a: Address)
    requires l.Valid() && Representable(l, a)
    ensures EncodeLine(l, a) < Pow2(Sum(Widths(l)))
    ensures DecodeLine(l, EncodeLine(l, a)) == a
  {
    var line := EncodeLine(l, a);
    SplitOfJoin(Coordinates(l, a), Widths(l));
    assert Split(line, Widths(l)) == Coordinates(l, a);
    RecoveredField(l, a, "ch");
    RecoveredField(l, a, "ra");
    RecoveredField(l, a, "bg");
    RecoveredField(l, a, "ba");
    RecoveredField(l, a, "ro");
    RecoveredField(l, a, "co");
    hide Field, EncodeLine;
  }

  lemma RecoveredField(l: Layout, a: Address, f: string)
    requires l.Valid() && Representable(l, a) && f in Fields()
    ensures Field(l, EncodeLine(l, a), f) == Coordinate(a, f)
  {
    hide Fields, Field, Split, Join, Representable, Layout.Valid;
    var i := PlaceOf(l, f);
    FieldIsSplit(l, EncodeLine(l, a), i);
    SplitOfJoin(Coordinates(l, a), Widths(l));
  }

  /** The fields tile the low bits: each starts where the one below it ends. */
  lemma FieldsTile(l: Layout, i: nat)
    requires l.Valid() && i < 6
    ensures l.order[i] in Fields()
    ensures l.pos[l.order[i]] + l.widths[l.order[i]]
         == if i < 5 then l.pos[l.order[i+1]] else Sum(Widths(l))
    ensures l.pos[l.order[0]] == 0
  {
    hide Fields, Sum;
    InOrder(l, i);
    SumNext(Widths(l), i);
    assert Widths(l)[..6] == Widths(l) && Widths(l)[..0] == [];
    SumOfNone();
  }

  lemma SumOfNone()
    ensures Sum([]) == 0
  {
  }

  /** The channel selected before decoding is the channel decoded. */
  function GetChannel(l: Layout, hex: nat): nat
    requires l.Valid()
  {
    Mask(Shift(Shift(hex, l.shift), l.pos["ch"]), l.widths["ch"])
  }

  /** Decoded coordinates are within the geometry even when the counts are not powers of two, because the
      field widths round down; so the mapping meets what a configuration asks of `decode`. */
  lemma DecodeMeetsConfig(cfg: Config, l: Layout, channels: nat, hex: nat)
    requires l.Valid()
    requires Pow2(l.widths["ra"]) <= cfg.ranks && Pow2(l.widths["bg"]) <= cfg.bankgroups
    requires Pow2(l.widths["ba"]) <= cfg.banksPerGroup && Pow2(l.widths["ch"]) <= channels
    ensures cfg.InRange(Command(Read, Decode(l, hex), hex).Target()) && Decode(l, hex).row >= 0
    ensures 0 <= Decode(l, hex).channel == GetChannel(l, hex) < channels
  {
    hide Mask, Shift;
    var line := Shift(hex, l.shift);
    ShiftAndMask(Shift(line, l.pos["ch"]), l.widths["ch"]);
    ShiftAndMask(Shift(line, l.pos["ra"]), l.widths["ra"]);
    ShiftAndMask(Shift(line, l.pos["bg"]), l.widths["bg"]);
    ShiftAndMask(Shift(line, l.pos["ba"]), l.widths["ba"]);
  }

  // ---- the mapping of a configuration

  /** Counts of a memory system, as the configuration file gives them. */
  datatype Geometry = Geometry(
    channels: nat, ranks: nat, bankgroups: nat, banksPerGroup: nat, rows: nat, columns: nat, burstLength: nat, busWidth: nat)
  {
    predicate Valid() {
      && channels > 0 && ranks > 0 && bankgroups > 0 && banksPerGroup > 0 && rows > 0
      && 0 < burstLength <= columns
    }
  }

  lemma {:induction false} Pow2Mono(a: nat, b: nat)
    requires a <= b
    ensures Pow2(a) <= Pow2(b)
  {
    if a < b {
      Pow2Mono(a, b - 1);
    }
  }

  /** Field widths follow the counts, rounded down to powers of two. */
  predicate WidthsFollow(g: Geometry, widths: map<string, nat>)
    requires widths.Keys == Fields()
  {
    && Pow2(widths["ch"]) <= g.channels < Pow2(widths["ch"] + 1)
    && Pow2(widths["ra"]) <= g.ranks < Pow2(widths["ra"] + 1)
    && Pow2(widths["bg"]) <= g.bankgroups < Pow2(widths["bg"] + 1)
    && Pow2(widths["ba"]) <= g.banksPerGroup < Pow2(widths["ba"] + 1)
    && Pow2(widths["ro"]) <= g.rows < Pow2(widths["ro"] + 1)
    && Pow2(widths["co"]) <= g.columns
  }

  /** The controller configuration uses the layout and has the geometry. */
  ghost predicate Uses(cfg: Config, g: Geometry, l: Layout)
    requires l.Valid()
  {
    && cfg.ranks == g.ranks && cfg.bankgroups == g.bankgroups && cfg.banksPerGroup == g.banksPerGroup
    && (forall hex: nat :: cfg.decode(hex) == Decode(l, hex))
  }

  lemma LayoutDecodesInto(cfg: Config, g: Geometry, l: Layout)
    requires l.Valid() && WidthsFollow(g, l.widths) && Uses(cfg, g, l)
    ensures cfg.DecodesInto()
    ensures forall hex: nat :: GetChannel(l, hex) == cfg.decode(hex).channel < g.channels
  {
    hide Layout.Valid, Decode, GetChannel, Pow2;
    forall hex: nat
      ensures cfg.InRange(Command(Read, cfg.decode(hex), hex).Target()) && 0 <= cfg.decode(hex).row
      ensures GetChannel(l, hex) == cfg.decode(hex).channel < g.channels
    {
      DecodeMeetsConfig(cfg, l, g.channels, hex);
    }
  }

  method ColumnWidth(g: Geometry) returns (w: nat)
    requires g.Valid()
    ensures Pow2(w) <= g.columns
  {
    var low := LogBase2(g.burstLength);
    var all := LogBase2(g.columns);
    if all < low {
      Pow2Mono(all + 1, low);
    }
    w := all - low;
    Pow2Mono(w, all);
  }

  /** The whole set-up: widths from the counts, positions from the string.  A permutation of the fields gives
      a layout under which every address decodes into the geometry, whatever the counts; anything else is an
      error. */
  method ConfigureMapping(mapping: string, g: Geometry) returns (r: Result<Layout>)
    requires g.Valid()
    ensures r.Ok? <==> |mapping| == 12 && IsOrder(Order(mapping))
    ensures r.Ok? ==> r.value.Valid() && r.value.order == Order(mapping) && WidthsFollow(g, r.value.widths)
    ensures r.Ok? ==> forall cfg: Config :: Uses(cfg, g, r.value) ==> cfg.DecodesInto()
  {
    hide IsOrder, Order, PositionsOk, Pow2;
    var shift := LogBase2(g.busWidth / 8 * g.burstLength);
    var ch := LogBase2(g.channels);
    var ra := LogBase2(g.ranks);
    var bg := LogBase2(g.bankgroups);
    var ba := LogBase2(g.banksPerGroup);
    var ro := LogBase2(g.rows);
    var co := ColumnWidth(g);
    var widths: map<string, nat> := map["ch" := ch, "ra" := ra, "bg" := bg, "ba" := ba, "ro" := ro, "co" := co];
    var pos := SetAddressMapping(mapping, widths);
    if pos.Err? {
      return Err(pos.error);
    }
    var l := Layout(Order(mapping), widths, pos.value, shift);
    OrderLength(l.order);
    forall cfg: Config | Uses(cfg, g, l) ensures cfg.DecodesInto() {
      LayoutDecodesInto(cfg, g, l);
    }
    r := Ok(l);
  }

  lemma OrderLength(order: seq<string>)
    requires IsOrder(order)
    ensures |order| == 6
  {
  }
}
