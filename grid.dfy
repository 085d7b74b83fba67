/** The drifting holographic grid: vertical and horizontal lines every
    `GridSize` pixels, shifted by an offset that grows each frame. */
module Grid {
  import opened Canvas

  /** Spacing of the grid lines, in pixels. */
  const GridSize: real := 50.0

  /** Growth of the offset per frame, in pixels. */
  const Drift: real := 0.2

  /** Truncation toward zero, as used by the floating-point remainder. */
  function Trunc(q: real): (t: int)
    ensures q >= 0.0 ==> t as real <= q < t as real + 1.0
    ensures q < 0.0 ==> t as real - 1.0 < q <= t as real
  {
    if q >= 0.0 then q.Floor else -((-q).Floor)
  }

  /** The floating-point remainder `a % GridSize`: the sign follows the
      dividend, and the magnitude is below one cell. */
  function Rem(a: real): (r: real)
    ensures a >= 0.0 ==> 0.0 <= r < GridSize
    ensures a < 0.0 ==> -GridSize < r <= 0.0
  {
    a - 50.0 * Trunc(a / 50.0) as real
  }

  /** For a non-negative dividend the remainder lies in [0, GridSize) and
      differs from the dividend by a whole number of cells. */
  lemma RemRange(a: real)
    requires a >= 0.0
    ensures 0.0 <= Rem(a) < GridSize
    ensures Rem(a) == a - GridSize * (a / GridSize).Floor as real
  {
  }

  /** Adding one cell to a non-negative dividend does not change the remainder,
      so the grid pattern repeats every `GridSize / Drift` frames. */
  lemma RemPeriodic(a: real)
    requires a >= 0.0
    ensures Rem(a + GridSize) == Rem(a)
  {
    assert (a + 50.0) / 50.0 == a / 50.0 + 1.0;
    assert Trunc((a + 50.0) / 50.0) == Trunc(a / 50.0) + 1;
  }

  /** The positions `first, first + GridSize, ...` that lie below `bound`. */
  method LinePositions(first: real, bound: real) returns (ps: seq<real>)
    ensures forall k :: 0 <= k < |ps| ==> ps[k] == first + GridSize * k as real
    ensures forall k :: 0 <= k < |ps| ==> ps[k] < bound
    ensures first + GridSize * |ps| as real >= bound
  {
    ps := [];
    var x := first;
    while x < bound
      invariant x == first + GridSize * |ps| as real
      invariant forall k :: 0 <= k < |ps| ==> ps[k] == first + GridSize * k as real
      invariant forall k :: 0 <= k < |ps| ==> ps[k] < bound
      decreases (bound - x).Floor
    {
      ps := ps + [x];
      x := x + GridSize;
    }
  }

  /** Number of grid lines from `first` below `bound`: the least `n` with
      `first + n * GridSize >= bound`. */
  function LineCount(first: real, bound: real): nat
  {
    if first >= bound then 0 else -((first - bound) / 50.0).Floor
  }

  /** A sequence meeting the contract of `LinePositions` has exactly `LineCount` elements. */
  lemma PositionsCount(first: real, bound: real, ps: seq<real>)
    requires forall k :: 0 <= k < |ps| ==> ps[k] == first + GridSize * k as real && ps[k] < bound
    requires first + GridSize * |ps| as real >= bound
    ensures |ps| == LineCount(first, bound)
  {
    if |ps| > 0 {
      var n := |ps|;
      assert ps[n - 1] == first + GridSize * (n - 1) as real < bound;
      assert (first - bound) / 50.0 < -(n - 1) as real;
      assert (first - bound) / 50.0 >= -n as real;
    }
  }

  /** The enumeration is determined by its contract: two sequences meeting it are equal. */
  lemma PositionsUnique(first: real, bound: real, ps: seq<real>, qs: seq<real>)
    requires forall k :: 0 <= k < |ps| ==> ps[k] == first + GridSize * k as real && ps[k] < bound
    requires first + GridSize * |ps| as real >= bound
    requires forall k :: 0 <= k < |qs| ==> qs[k] == first + GridSize * k as real && qs[k] < bound
    requires first + GridSize * |qs| as real >= bound
    ensures ps == qs
  {
    PositionsCount(first, bound, ps);
    PositionsCount(first, bound, qs);
  }

  /** Consequences of the contract: strictly increasing with stride `GridSize`,
      empty exactly when the first position is already at or past the bound. */
  lemma PositionsShape(first: real, bound: real, ps: seq<real>)
    requires forall k :: 0 <= k < |ps| ==> ps[k] == first + GridSize * k as real && ps[k] < bound
    requires first + GridSize * |ps| as real >= bound
    ensures forall k :: 0 <= k < |ps| - 1 ==> ps[k + 1] - ps[k] == GridSize
    ensures forall j, k :: 0 <= j < k < |ps| ==> ps[j] < ps[k]
    ensures |ps| == 0 <==> first >= bound
  {
    if |ps| > 0 {
      assert ps[0] == first;
    }
  }

  /** The grid renderer: the canvas size, and the offset that drifts by
      `Drift` per frame and is never reduced. */
  class HolographicGrid {
    var width: nat
    var height: nat
    var offset: real
    /** Number of frames drawn so far. */
    ghost var frames: nat

    ghost predicate Valid()
      reads this
    {
      offset == Drift * frames as real
    }

    constructor (width: nat, height: nat)
      ensures Valid()
      ensures this.width == width && this.height == height
      ensures offset == 0.0 && frames == 0
    {
      this.width := width;
      this.height := height;
      offset := 0.0;
      frames := 0;
    }

    /** Store a new canvas size; the offset is not reset. */
    method Resize(width: nat, height: nat)
      modifies this
      ensures this.width == width && this.height == height
      ensures offset == old(offset) && frames == old(frames)
    {
      this.width := width;
      this.height := height;
    }

    /** One frame: vertical lines, then horizontal lines, both starting at the
        offset's remainder modulo `GridSize`; then the offset drifts. */
    method DrawGrid() returns (frame: seq<Command>, xs: seq<real>, ys: seq<real>)
      requires Valid()
      modifies this
      ensures Valid()
      ensures width == old(width) && height == old(height)
      ensures frames == old(frames) + 1 && offset == old(offset) + Drift
      ensures forall k :: 0 <= k < |xs| ==> xs[k] == Rem(old(offset)) + GridSize * k as real
      ensures forall k :: 0 <= k < |xs| ==> xs[k] < width as real
      ensures Rem(old(offset)) + GridSize * |xs| as real >= width as real
      ensures forall k :: 0 <= k < |ys| ==> ys[k] == Rem(old(offset)) + GridSize * k as real
      ensures forall k :: 0 <= k < |ys| ==> ys[k] < height as real
      ensures Rem(old(offset)) + GridSize * |ys| as real >= height as real
      ensures |frame| == |xs| + |ys|
      ensures forall k :: 0 <= k < |xs| ==> frame[k] == Segment(Point(xs[k], 0.0), Point(xs[k], height as real))
      ensures forall k :: 0 <= k < |ys| ==> frame[|xs| + k] == Segment(Point(0.0, ys[k]), Point(width as real, ys[k]))
    {
      var first := Rem(offset);
      xs := LinePositions(first, width as real);
      ys := LinePositions(first, height as real);
      var w, h := width, height;
      var verticals := seq(|xs|, k requires 0 <= k < |xs| => Segment(Point(xs[k], 0.0), Point(xs[k], h as real)));
      var horizontals := seq(|ys|, k requires 0 <= k < |ys| => Segment(Point(0.0, ys[k]), Point(w as real, ys[k])));
      frame := verticals + horizontals;
      assert forall k :: 0 <= k < |ys| ==> frame[|xs| + k] == horizontals[k];
      offset := offset + Drift;
      frames := frames + 1;
    }
  }

  /** The offset never goes negative, so the first line is always within one cell of the origin. */
  lemma FirstLineInCell(frames: nat)
    ensures 0.0 <= Rem(Drift * frames as real) < GridSize
  {
    RemRange(Drift * frames as real);
  }

  /** After 250 more frames the offset has grown by one cell, and the grid looks the same. */
  lemma GridRepeats(frames: nat)
    ensures Rem(Drift * (frames + 250) as real) == Rem(Drift * frames as real)
  {
    assert Drift * (frames + 250) as real == Drift * frames as real + GridSize;
    RemPeriodic(Drift * frames as real);
  }
}
