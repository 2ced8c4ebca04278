/** The procedurally drawn record: on a 32 x 32 grid, the dark outer ring and
    the sheen highlight on it; on a 64 x 64 grid, the centre label with its
    spindle hole. A cell belongs to a layer according to the Euclidean
    distance from the cell's centre (index + 0.5) to the grid's centre.

    The distances are never computed here. With the doubled offsets
    ax = 2x + 1 - 2c and ay = 2y + 1 - 2c (twice the offsets dx and dy of the
    drawing) and s = ax * ax + ay * ay = 4 * (dx * dx + dy * dy), each test on
    dist = sqrt(dx * dx + dy * dy) is an integer test on s:
      dist <= r        iff  s <= 4 * r * r
      dist > 5.5       iff  s > 121
      floor(dist) == k iff  4 * k * k <= s < 4 * (k + 1) * (k + 1)
      dx < 0           iff  ax < 0  iff  x < c
    The lemmas at the end state these equivalences against the real squared
    distance dx * dx + dy * dy. */
module Disc {

  /** One 1 x 1 rectangle of the drawing: its cell and its fill colour. */
  datatype Pixel = Pixel(x: int, y: int, fill: string)

  const OuterSize: nat := 32
  const OuterCenter: nat := 16
  const OuterRadius: nat := 16
  const InnerSize: nat := 64
  const InnerCenter: nat := 32
  const LabelRadius: nat := 11
  const HoleRadius: nat := 4
  /** (2 * 5.5)^2: the doubled squared radius of the plain gap around the label. */
  const SpindleGapQuad: nat := 121

  const RecordFill: string := "#111"
  const SheenFill: string := "rgba(255,255,255,0.15)"
  const HoleFill: string := "#EEE"
  const LabelFill: string := "#FF0055"

  /** Twice the offset of cell `i`'s centre from centre `c`: 2 * (i + 0.5 - c). */
  function Doubled(i: int, c: int): int {
    2 * i + 1 - 2 * c
  }

  /** Four times the squared distance from cell (x, y)'s centre to (c, c). */
  function QuadDistSq(x: int, y: int, c: int): nat {
    Doubled(x, c) * Doubled(x, c) + Doubled(y, c) * Doubled(y, c)
  }

  /** "dist <= r", stated on the quadrupled squared distance `s`. */
  predicate WithinRadius(s: nat, r: nat) {
    s <= 4 * r * r
  }

  /** floor(sqrt(s) / 2), that is floor(dist) when s is the quadrupled squared
      distance, found by counting up from `k`. */
  function FloorHalfRootFrom(s: nat, k: nat): (r: nat)
    requires 4 * k * k <= s
    ensures 4 * r * r <= s < 4 * (r + 1) * (r + 1)
    decreases s - 4 * k * k
  {
    if s < 4 * (k + 1) * (k + 1) then k
    else
      assert 4 * (k + 1) * (k + 1) == 4 * k * k + 8 * k + 4;
      FloorHalfRootFrom(s, k + 1)
  }

  /** floor(dist) for the quadrupled squared distance `s`. */
  function FloorHalfRoot(s: nat): (k: nat)
    ensures 4 * k * k <= s < 4 * (k + 1) * (k + 1)
  {
    FloorHalfRootFrom(s, 0)
  }

  /** Proof helper: squares of naturals grow with their roots. */
  lemma {:induction false} SquareMonotone(a: nat, b: nat)
    requires a < b
    ensures a * a < b * b
  {
    if a + 1 < b {
      SquareMonotone(a, b - 1);
    }
    assert b * b == (b - 1) * (b - 1) + 2 * b - 1;
  }

  /** The floor is the only natural `k` with 4k^2 <= s < 4(k+1)^2. */
  lemma FloorHalfRootUnique(s: nat, k: nat)
    requires 4 * k * k <= s < 4 * (k + 1) * (k + 1)
    ensures FloorHalfRoot(s) == k
  {
    var f := FloorHalfRoot(s);
    if f < k {
      QuadSquareMonotone(f + 1, k);
      assert false;
    } else if k < f {
      QuadSquareMonotone(k + 1, f);
      assert false;
    }
  }

  /** Proof helper: the same, scaled by four as the distance tests are. */
  lemma QuadSquareMonotone(a: nat, b: nat)
    ensures a <= b ==> 4 * a * a <= 4 * b * b
  {
    if a < b {
      SquareMonotone(a, b);
    }
  }

  /** The dark ring: cells with 5.5 < dist <= 16 from (16, 16). */
  predicate InOuterRing(x: int, y: int) {
    var s := QuadDistSq(x, y, OuterCenter);
    WithinRadius(s, OuterRadius) && s > SpindleGapQuad
  }

  /** The upper-left quadrant: both offsets negative. */
  predicate UpperLeft(x: int, y: int) {
    Doubled(x, OuterCenter) < 0 && Doubled(y, OuterCenter) < 0
  }

  /** The sheen: ring cells in the upper-left quadrant whose distance has a
      floor divisible by four. */
  predicate InSheen(x: int, y: int) {
    InOuterRing(x, y) && UpperLeft(x, y)
      && FloorHalfRoot(QuadDistSq(x, y, OuterCenter)) % 4 == 0
  }

  /** The label: cells with dist <= 11 from (32, 32). */
  predicate InLabel(x: int, y: int) {
    WithinRadius(QuadDistSq(x, y, InnerCenter), LabelRadius)
  }

  /** The spindle hole: cells with dist <= 4 from (32, 32). */
  predicate InHole(x: int, y: int) {
    WithinRadius(QuadDistSq(x, y, InnerCenter), HoleRadius)
  }

  predicate OnGrid(p: Pixel, size: nat) {
    0 <= p.x < size && 0 <= p.y < size
  }

  /** A pixel of the outer-ring layer. */
  predicate OuterRingPixel(p: Pixel) {
    OnGrid(p, OuterSize) && InOuterRing(p.x, p.y) && p.fill == RecordFill
  }

  /** A pixel of the sheen layer. */
  predicate SheenPixel(p: Pixel) {
    OnGrid(p, OuterSize) && InSheen(p.x, p.y) && p.fill == SheenFill
  }

  /** A pixel of the label layer, coloured as hole or as label. */
  predicate LabelPixel(p: Pixel) {
    OnGrid(p, InnerSize) && InLabel(p.x, p.y)
      && p.fill == (if InHole(p.x, p.y) then HoleFill else LabelFill)
  }

  /** Row-major order: by row, then by column within a row. */
  predicate RowMajorBefore(p: Pixel, x: int, y: int) {
    p.y < y || (p.y == y && p.x < x)
  }

  /** Strictly increasing in row-major order, hence no cell twice. */
  predicate RowMajorSorted(ps: seq<Pixel>) {
    forall i, j :: 0 <= i < j < |ps| ==> RowMajorBefore(ps[i], ps[j].x, ps[j].y)
  }

  /** The first loop nest: scan the 32 x 32 grid row by row and emit the ring
      and sheen pixels. Each layer holds exactly its pixels, each cell once,
      in row-major order. */
  method OuterLayers() returns (outer: seq<Pixel>, sheen: seq<Pixel>)
    ensures forall p :: p in outer <==> OuterRingPixel(p)
    ensures forall p :: p in sheen <==> SheenPixel(p)
    ensures RowMajorSorted(outer) && RowMajorSorted(sheen)
  {
    outer, sheen := [], [];
    var y := 0;
    while y < OuterSize
      invariant 0 <= y <= OuterSize
      invariant forall p :: p in outer <==> OuterRingPixel(p) && p.y < y
      invariant forall p :: p in sheen <==> SheenPixel(p) && p.y < y
      invariant RowMajorSorted(outer) && RowMajorSorted(sheen)
    {
      var x := 0;
      while x < OuterSize
        invariant 0 <= x <= OuterSize
        invariant forall p :: p in outer <==> OuterRingPixel(p) && RowMajorBefore(p, x, y)
        invariant forall p :: p in sheen <==> SheenPixel(p) && RowMajorBefore(p, x, y)
        invariant RowMajorSorted(outer) && RowMajorSorted(sheen)
      {
        var s := QuadDistSq(x, y, OuterCenter);
        if WithinRadius(s, OuterRadius) {
          if s > SpindleGapQuad {
            outer := outer + [Pixel(x, y, RecordFill)];
          }
          if s > SpindleGapQuad && Doubled(x, OuterCenter) < 0 && Doubled(y, OuterCenter) < 0 {
            if FloorHalfRoot(s) % 4 == 0 {
              sheen := sheen + [Pixel(x, y, SheenFill)];
            }
          }
        }
        x := x + 1;
      }
      y := y + 1;
    }
  }

  /** The second loop nest: scan the 64 x 64 grid row by row and emit the
      label pixels, hole-coloured near the centre. */
  method LabelLayer() returns (inner: seq<Pixel>)
    ensures forall p :: p in inner <==> LabelPixel(p)
    ensures RowMajorSorted(inner)
  {
    inner := [];
    var y := 0;
    while y < InnerSize
      invariant 0 <= y <= InnerSize
      invariant forall p :: p in inner <==> LabelPixel(p) && p.y < y
      invariant RowMajorSorted(inner)
    {
      var x := 0;
      while x < InnerSize
        invariant 0 <= x <= InnerSize
        invariant forall p :: p in inner <==> LabelPixel(p) && RowMajorBefore(p, x, y)
        invariant RowMajorSorted(inner)
      {
        var s := QuadDistSq(x, y, InnerCenter);
        if WithinRadius(s, LabelRadius) {
          var color := LabelFill;
          if WithinRadius(s, HoleRadius) {
            color := HoleFill;
          }
          inner := inner + [Pixel(x, y, color)];
        }
        x := x + 1;
      }
      y := y + 1;
    }
  }

  /** The squared distance the drawing computes, dx * dx + dy * dy, from the
      centre of cell (x, y) to (c, c); the drawing's distance is its root. */
  function DistSq(x: int, y: int, c: int): real {
    var dx := x as real + 0.5 - c as real;
    var dy := y as real + 0.5 - c as real;
    dx * dx + dy * dy
  }

  /** One doubled offset, squared, is four times the squared real offset. */
  lemma DoubledSquare(i: int, c: int)
    ensures var d := i as real + 0.5 - c as real;
            (Doubled(i, c) * Doubled(i, c)) as real == 4.0 * (d * d)
  {
    var d := i as real + 0.5 - c as real;
    var a := Doubled(i, c);
    assert a as real == 2.0 * d;
    assert (a * a) as real == (a as real) * (a as real);
    assert (2.0 * d) * (2.0 * d) == 4.0 * (d * d);
  }

  /** The integer form is exact: s is four times the real squared distance. */
  lemma QuadDistSqExact(x: int, y: int, c: int)
    ensures QuadDistSq(x, y, c) as real == 4.0 * DistSq(x, y, c)
  {
    DoubledSquare(x, c);
    DoubledSquare(y, c);
  }

  /** A cell is in the ring iff 5.5 < dist <= 16, that is
      5.5^2 < dist^2 <= 16^2, measured from (16, 16). */
  lemma OuterRingMeaning(x: int, y: int)
    ensures InOuterRing(x, y) <==> 5.5 * 5.5 < DistSq(x, y, OuterCenter) <= 16.0 * 16.0
  {
    QuadDistSqExact(x, y, OuterCenter);
  }

  /** A cell is in the label iff dist <= 11 from (32, 32), and in its hole iff dist <= 4. */
  lemma LabelMeaning(x: int, y: int)
    ensures InLabel(x, y) <==> DistSq(x, y, InnerCenter) <= 11.0 * 11.0
    ensures InHole(x, y) <==> DistSq(x, y, InnerCenter) <= 4.0 * 4.0
  {
    QuadDistSqExact(x, y, InnerCenter);
  }

  /** The floor the sheen tests is floor(dist): k^2 <= dist^2 < (k + 1)^2. */
  lemma FloorMeaning(x: int, y: int, c: int)
    ensures var k := FloorHalfRoot(QuadDistSq(x, y, c));
            (k * k) as real <= DistSq(x, y, c) < ((k + 1) * (k + 1)) as real
  {
    QuadDistSqExact(x, y, c);
  }

  /** "Both offsets negative" is the upper-left quadrant x < 16 and y < 16. */
  lemma UpperLeftMeaning(x: int, y: int)
    ensures UpperLeft(x, y) <==> x as real + 0.5 - 16.0 < 0.0 && y as real + 0.5 - 16.0 < 0.0
    ensures UpperLeft(x, y) <==> x < OuterCenter && y < OuterCenter
  {
  }

  /** Hole cells are label cells, and sheen cells are ring cells in the
      upper-left quadrant with a floor distance divisible by four. */
  lemma LayersNest(x: int, y: int)
    ensures InHole(x, y) ==> InLabel(x, y)
    ensures InSheen(x, y) ==> InOuterRing(x, y) && x < OuterCenter && y < OuterCenter
    ensures InSheen(x, y) ==> FloorHalfRoot(QuadDistSq(x, y, OuterCenter)) % 4 == 0
  {
  }

  /** The square of an odd number is one more than a multiple of eight. */
  lemma OddSquare(a: int)
    ensures (2 * a + 1) * (2 * a + 1) % 8 == 1
  {
    var b := a / 2;
    var q: int;
    if a % 2 == 0 {
      assert 2 * a + 1 == 4 * b + 1;
      q := 2 * b * b + b;
    } else {
      assert 2 * a + 1 == 4 * b + 3;
      q := 2 * b * b + 3 * b + 1;
    }
    assert (2 * a + 1) * (2 * a + 1) == 8 * q + 1;
  }

  /** The quadrupled squared distance of a cell centre is always 2 modulo 8,
      so it never equals 4 * r * r for an integer r: no cell centre lies
      exactly on an integer radius. */
  lemma QuadDistSqModEight(x: int, y: int, c: int)
    ensures QuadDistSq(x, y, c) % 8 == 2
  {
    OddSquare(x - c);
    OddSquare(y - c);
    assert Doubled(x, c) == 2 * (x - c) + 1;
    assert Doubled(y, c) == 2 * (y - c) + 1;
  }

  /** The sheen is drawn on exactly two arcs of the ring: floor(dist) is 8 or 12. */
  lemma SheenArcs(x: int, y: int)
    ensures InSheen(x, y) ==> FloorHalfRoot(QuadDistSq(x, y, OuterCenter)) in {8, 12}
  {
    if !InSheen(x, y) {
      return;
    }
    var s := QuadDistSq(x, y, OuterCenter);
    var k := FloorHalfRoot(s);
    QuadSquareMonotone(k + 1, 5);
    QuadSquareMonotone(17, k);
    assert 5 <= k <= 16;
    if k == 16 {
      OddSquare(x - OuterCenter);
      OddSquare(y - OuterCenter);
      assert false;
    }
  }
}
