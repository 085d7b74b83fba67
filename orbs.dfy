/** The floating-orb particle field: a fixed set of glowing orbs that drift
    by their velocity each tick and reverse a velocity component whenever
    they land strictly outside the viewport on that axis. */
module Orbs {
  import opened Canvas

  /** Number of orbs created when the field starts. */
  const OrbCount: nat := 8

  /** The three palette entries, cycled by orb index. */
  const Palette: seq<Rgb> := [Rgb(0, 255, 255), Rgb(0, 119, 255), Rgb(157, 0, 255)]

  datatype Orb = Orb(x: real, y: real, vx: real, vy: real, radius: real, color: Rgb, glow: real)

  /** The six random numbers drawn for one orb, in the order they are drawn. */
  datatype OrbDraw = OrbDraw(x: real, y: real, vx: real, vy: real, radius: real, glow: real)

  predicate Unit(r: real) { 0.0 <= r < 1.0 }

  predicate ValidDraw(d: OrbDraw) {
    Unit(d.x) && Unit(d.y) && Unit(d.vx) && Unit(d.vy) && Unit(d.radius) && Unit(d.glow)
  }

  function Abs(r: real): (a: real)
    ensures a >= 0.0 && (a == r || a == -r)
  {
    if r < 0.0 then -r else r
  }

  /** Palette entry of orb `i`: cyan, azure, violet, cyan, ... */
  function PaletteColor(i: nat): (c: Rgb)
    ensures c in Palette
    ensures c == Palette[i % 3]
  {
    if i % 3 == 0 then Rgb(0, 255, 255)
    else if i % 3 == 1 then Rgb(0, 119, 255)
    else Rgb(157, 0, 255)
  }

  /** The orb created at index `i` in a viewport of `width` by `height`. */
  function Spawn(i: nat, width: nat, height: nat, d: OrbDraw): Orb
  {
    Orb(d.x * width as real, d.y * height as real,
        (d.vx - 0.5) * 0.5, (d.vy - 0.5) * 0.5,
        30.0 + d.radius * 40.0,
        PaletteColor(i),
        0.3 + d.glow * 0.2)
  }

  /** Product of a unit random and a viewport extent lies in [0, extent), or is 0 on an empty extent. */
  lemma ScaledUnit(r: real, extent: nat)
    requires Unit(r)
    ensures 0.0 <= r * extent as real
    ensures extent > 0 ==> r * extent as real < extent as real
    ensures extent == 0 ==> r * extent as real == 0.0
  {
    assert (1.0 - r) * extent as real >= 0.0;
    if extent > 0 {
      assert (1.0 - r) * extent as real > 0.0;
    }
  }

  /** Initial attributes fall in the ranges their formulas give. */
  lemma SpawnRanges(i: nat, width: nat, height: nat, d: OrbDraw)
    requires ValidDraw(d)
    ensures var o := Spawn(i, width, height, d);
      && 0.0 <= o.x && (width > 0 ==> o.x < width as real) && (width == 0 ==> o.x == 0.0)
      && 0.0 <= o.y && (height > 0 ==> o.y < height as real) && (height == 0 ==> o.y == 0.0)
      && -0.25 <= o.vx < 0.25 && -0.25 <= o.vy < 0.25
      && 30.0 <= o.radius < 70.0
      && 0.3 <= o.glow < 0.5
      && o.color == Palette[i % 3]
  {
    var o := Spawn(i, width, height, d);
    ScaledUnit(d.x, width);
    ScaledUnit(d.y, height);
    assert o.x == d.x * width as real && o.y == d.y * height as real;
    assert o.vx == (d.vx - 0.5) * 0.5 && o.vy == (d.vy - 0.5) * 0.5;
    assert o.radius == 30.0 + d.radius * 40.0 && o.glow == 0.3 + d.glow * 0.2;
    assert o.color == PaletteColor(i);
  }

  /** Position test of the bounce: strictly outside [0, extent]. */
  predicate Outside(p: real, extent: nat) {
    p < 0.0 || p > extent as real
  }

  /** One tick of one orb: move by the velocity, then reverse each velocity
      component whose new coordinate lies outside the viewport. */
  function StepOrb(o: Orb, width: nat, height: nat): Orb
  {
    var x := o.x + o.vx;
    var y := o.y + o.vy;
    o.(x := x, y := y,
       vx := if Outside(x, width) then -o.vx else o.vx,
       vy := if Outside(y, height) then -o.vy else o.vy)
  }

  /** A tick moves the position by the old velocity, never clamps it, and
      changes nothing but position and velocity signs. */
  lemma StepMovesAndKeeps(o: Orb, width: nat, height: nat)
    ensures var n := StepOrb(o, width, height);
      && n.x == o.x + o.vx && n.y == o.y + o.vy
      && Abs(n.vx) == Abs(o.vx) && Abs(n.vy) == Abs(o.vy)
      && n.radius == o.radius && n.color == o.color && n.glow == o.glow
  {
  }

  /** The reflection law, per axis and independently: a moving orb's velocity
      component is reversed exactly when its new coordinate is strictly outside. */
  lemma StepReflects(o: Orb, width: nat, height: nat)
    ensures var n := StepOrb(o, width, height);
      && (o.vx != 0.0 ==> (n.vx == -o.vx <==> Outside(n.x, width)))
      && (o.vx != 0.0 ==> (n.vx == o.vx <==> !Outside(n.x, width)))
      && (o.vy != 0.0 ==> (n.vy == -o.vy <==> Outside(n.y, height)))
      && (o.vy != 0.0 ==> (n.vy == o.vy <==> !Outside(n.y, height)))
  {
  }

  /** The bounce test is strict: landing exactly on an edge keeps the velocity. */
  lemma EdgeKeepsVelocity(o: Orb, width: nat, height: nat)
    ensures var n := StepOrb(o, width, height);
      && (n.x == 0.0 || n.x == width as real ==> n.vx == o.vx)
      && (n.y == 0.0 || n.y == height as real ==> n.vy == o.vy)
  {
  }

  /** The bounded-overshoot band on one axis: the coordinate is within one
      speed of [0, extent], and when it is outside the velocity points back in. */
  predicate AxisBand(p: real, v: real, extent: nat) {
    && -Abs(v) <= p <= extent as real + Abs(v)
    && (p < 0.0 ==> v > 0.0)
    && (p > extent as real ==> v < 0.0)
  }

  predicate InBand(o: Orb, width: nat, height: nat) {
    AxisBand(o.x, o.vx, width) && AxisBand(o.y, o.vy, height)
  }

  /** Speed on each axis does not exceed the viewport on that axis. */
  predicate Slow(o: Orb, width: nat, height: nat) {
    Abs(o.vx) <= width as real && Abs(o.vy) <= height as real
  }

  /** One axis of the step: the band is preserved while the speed fits the extent. */
  lemma AxisBandStep(p: real, v: real, extent: nat)
    requires AxisBand(p, v, extent) && Abs(v) <= extent as real
    ensures var q := p + v;
            AxisBand(q, if Outside(q, extent) then -v else v, extent)
  {
    var q := p + v;
    if p < 0.0 {
      assert 0.0 <= q < extent as real;
    } else if p > extent as real {
      assert 0.0 < q <= extent as real;
    }
  }

  /** With a fixed viewport no smaller than the speed, a tick keeps an orb in
      the bounded-overshoot band. */
  lemma StepKeepsBand(o: Orb, width: nat, height: nat)
    requires InBand(o, width, height) && Slow(o, width, height)
    ensures InBand(StepOrb(o, width, height), width, height)
    ensures Slow(StepOrb(o, width, height), width, height)
  {
    AxisBandStep(o.x, o.vx, width);
    AxisBandStep(o.y, o.vy, height);
  }

  /** A freshly spawned orb starts inside the viewport, hence in the band. */
  lemma SpawnInBand(i: nat, width: nat, height: nat, d: OrbDraw)
    requires ValidDraw(d)
    ensures InBand(Spawn(i, width, height, d), width, height)
  {
    SpawnRanges(i, width, height, d);
  }

  /** A fresh orb, whose speed is below 0.25 on each axis, is slow when the
      viewport is at least 1 px on each axis. */
  lemma SpawnSlow(i: nat, width: nat, height: nat, d: OrbDraw)
    requires ValidDraw(d) && width >= 1 && height >= 1
    ensures Slow(Spawn(i, width, height, d), width, height)
  {
    SpawnRanges(i, width, height, d);
  }

  /** One tick of the whole field. */
  function StepAll(orbs: seq<Orb>, width: nat, height: nat): seq<Orb>
  {
    seq(|orbs|, k requires 0 <= k < |orbs| => StepOrb(orbs[k], width, height))
  }

  /** The field after `n` ticks with a fixed viewport. */
  function Run(orbs: seq<Orb>, width: nat, height: nat, n: nat): (r: seq<Orb>)
    ensures |r| == |orbs|
    decreases n
  {
    if n == 0 then orbs else Run(StepAll(orbs, width, height), width, height, n - 1)
  }

  /** Ticks never add or remove orbs, and with a fixed viewport every orb that
      starts in the band and slow stays so after any number of ticks. */
  lemma {:induction false} RunKeepsBand(orbs: seq<Orb>, width: nat, height: nat, n: nat)
    decreases n
    requires forall k :: 0 <= k < |orbs| ==> InBand(orbs[k], width, height) && Slow(orbs[k], width, height)
    ensures |Run(orbs, width, height, n)| == |orbs|
    ensures forall k :: 0 <= k < |orbs| ==>
      InBand(Run(orbs, width, height, n)[k], width, height) && Slow(Run(orbs, width, height, n)[k], width, height)
  {
    if n > 0 {
      var next := StepAll(orbs, width, height);
      forall k | 0 <= k < |next|
        ensures InBand(next[k], width, height) && Slow(next[k], width, height)
      {
        StepKeepsBand(orbs[k], width, height);
      }
      RunKeepsBand(next, width, height, n - 1);
    }
  }

  /** The single-orb scenario with viewport 200 by 200, orb at (195, 100) moving
      (1, 0): on tick 5 it lands exactly on the right edge and keeps moving
      right; only on tick 6 (x = 201) does the velocity reverse. */
  lemma RightEdgeScenario(radius: real, color: Rgb, glow: real)
    ensures var o := Orb(195.0, 100.0, 1.0, 0.0, radius, color, glow);
      && Run([o], 200, 200, 1) == [o.(x := 196.0)]
      && Run([o], 200, 200, 5) == [o.(x := 200.0)]
      && Run([o], 200, 200, 6) == [o.(x := 201.0, vx := -1.0)]
  {
    var o := Orb(195.0, 100.0, 1.0, 0.0, radius, color, glow);
    var o1, o2, o3 := o.(x := 196.0), o.(x := 197.0), o.(x := 198.0);
    var o4, o5, o6 := o.(x := 199.0), o.(x := 200.0), o.(x := 201.0, vx := -1.0);
    assert StepAll([o], 200, 200) == [o1];
    assert StepAll([o1], 200, 200) == [o2];
    assert StepAll([o2], 200, 200) == [o3];
    assert StepAll([o3], 200, 200) == [o4];
    assert StepAll([o4], 200, 200) == [o5];
    assert StepAll([o5], 200, 200) == [o6];
    assert Run([o5], 200, 200, 1) == [o6];
    assert Run([o4], 200, 200, 1) == [o5];
    assert Run([o4], 200, 200, 2) == [o6];
    assert Run([o3], 200, 200, 2) == [o5];
    assert Run([o3], 200, 200, 3) == [o6];
    assert Run([o2], 200, 200, 3) == [o5];
    assert Run([o2], 200, 200, 4) == [o6];
    assert Run([o1], 200, 200, 4) == [o5];
    assert Run([o1], 200, 200, 5) == [o6];
  }

  /** After the viewport shrinks, an orb left further outside than its speed
      on the x axis is outside the band; each tick reverses its horizontal
      velocity while it stays outside, and two ticks bring x and vx back. */
  lemma StuckAfterShrink(o: Orb, width: nat, height: nat)
    requires o.x > width as real + Abs(o.vx) || o.x < -Abs(o.vx)
    ensures !InBand(o, width, height)
    ensures var n := StepOrb(o, width, height);
      && Outside(n.x, width) && n.vx == -o.vx
      && StepOrb(n, width, height).x == o.x && StepOrb(n, width, height).vx == o.vx
  {
  }

  /** Such an orb never gets back: after every even number of ticks it is at
      its starting x with its starting vx, whatever happens on the y axis. */
  lemma {:induction false} StuckForever(o: Orb, width: nat, height: nat, n: nat)
    requires o.x > width as real + Abs(o.vx) || o.x < -Abs(o.vx)
    ensures |Run([o], width, height, 2 * n)| == 1
    ensures Run([o], width, height, 2 * n)[0].x == o.x
    ensures Run([o], width, height, 2 * n)[0].vx == o.vx
    decreases n
  {
    if n > 0 {
      var o1 := StepOrb(o, width, height);
      var o2 := StepOrb(o1, width, height);
      StuckAfterShrink(o, width, height);
      assert StepAll([o], width, height) == [o1];
      assert StepAll([o1], width, height) == [o2];
      assert Run([o], width, height, 2 * n) == Run([o2], width, height, 2 * (n - 1));
      StuckForever(o2, width, height, n - 1);
    }
  }

  /** The orb field: a fixed array of orbs updated in place each tick, and
      the canvas size it bounces against. */
  class OrbField {
    const orbs: array<Orb>
    var width: nat
    var height: nat

    ghost predicate Valid()
      reads this
    {
      orbs.Length == OrbCount
    }

    /** Every orb is in the bounded-overshoot band and no faster than the viewport. */
    ghost predicate Settled()
      reads this, orbs
    {
      forall k :: 0 <= k < orbs.Length ==> InBand(orbs[k], width, height) && Slow(orbs[k], width, height)
    }

    /** Size the canvas, then create the orbs once, orb `i` from `draws[i]`. */
    constructor (width: nat, height: nat, draws: seq<OrbDraw>)
      requires |draws| == OrbCount
      requires forall k :: 0 <= k < |draws| ==> ValidDraw(draws[k])
      ensures Valid() && fresh(orbs)
      ensures this.width == width && this.height == height
      ensures forall k :: 0 <= k < OrbCount ==> orbs[k] == Spawn(k, width, height, draws[k])
      ensures width >= 1 && height >= 1 ==> Settled()
    {
      this.width := width;
      this.height := height;
      var a := new Orb[OrbCount];
      var i := 0;
      while i < OrbCount
        invariant 0 <= i <= OrbCount
        invariant forall k :: 0 <= k < i ==> a[k] == Spawn(k, width, height, draws[k])
      {
        a[i] := Spawn(i, width, height, draws[i]);
        i := i + 1;
      }
      orbs := a;
      new;
      forall k | 0 <= k < OrbCount
        ensures InBand(orbs[k], width, height)
        ensures width >= 1 && height >= 1 ==> Slow(orbs[k], width, height)
      {
        SpawnInBand(k, width, height, draws[k]);
        if width >= 1 && height >= 1 {
          SpawnSlow(k, width, height, draws[k]);
        }
      }
    }

    /** Store a new canvas size; the orbs are left as they are. */
    method Resize(width: nat, height: nat)
      modifies this
      ensures this.width == width && this.height == height
      ensures orbs[..] == old(orbs[..])
    {
      this.width := width;
      this.height := height;
    }

    /** One animation frame: update every orb in place and paint it. */
    method Tick() returns (frame: seq<Command>)
      requires Valid()
      modifies orbs
      ensures Valid()
      ensures orbs[..] == StepAll(old(orbs[..]), width, height)
      ensures |frame| == orbs.Length
      ensures forall k :: 0 <= k < orbs.Length ==> frame[k] == Glow(Point(orbs[k].x, orbs[k].y), orbs[k].radius, orbs[k].color, orbs[k].glow)
      ensures old(Settled()) ==> Settled()
    {
      ghost var before := orbs[..];
      frame := [];
      var i := 0;
      while i < orbs.Length
        invariant 0 <= i <= orbs.Length
        invariant forall k :: 0 <= k < i ==> orbs[k] == StepOrb(before[k], width, height)
        invariant forall k :: i <= k < orbs.Length ==> orbs[k] == before[k]
        invariant |frame| == i
        invariant forall k :: 0 <= k < i ==> frame[k] == Glow(Point(orbs[k].x, orbs[k].y), orbs[k].radius, orbs[k].color, orbs[k].glow)
      {
        orbs[i] := StepOrb(orbs[i], width, height);
        var o := orbs[i];
        frame := frame + [Glow(Point(o.x, o.y), o.radius, o.color, o.glow)];
        i := i + 1;
      }
      assert orbs[..] == StepAll(before, width, height);
      if old(Settled()) {
        forall k | 0 <= k < orbs.Length
          ensures InBand(orbs[k], width, height) && Slow(orbs[k], width, height)
        {
          StepKeepsBand(before[k], width, height);
        }
      }
    }
  }
}
