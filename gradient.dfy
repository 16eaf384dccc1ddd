/**
 * The gradient resolver of src/utils/index.ts: a list of colours becomes either a
 * flat colour or a gradient whose stops are evenly spaced over [0, 1].
 * The stop loop (`colors.forEach(... addColorStop ...)`) is also used by the
 * copies inlined in the frequency and circular visualizers.
 */
module Gradient {
  import opened Base
  import opened Canvas

  datatype GradientType = LinearType | RadialType

  /** Offset of stop `i` of `n`: `index / (colors.length - 1)`. */
  function StopOffset(i: nat, n: nat): real
    requires n >= 2
  {
    i as real / (n - 1) as real
  }

  /** Offset of stop `i` of `n` as the frequency visualizer writes it: `index * step`. */
  function SteppedOffset(i: nat, n: nat): real
    requires n >= 2
  {
    var step := 1.0 / (n - 1) as real;
    i as real * step
  }

  /** The stops a gradient over `colors` receives, one per colour, in order. */
  function EvenStops(colors: seq<Color>): seq<Stop>
    requires |colors| >= 2
  {
    seq(|colors|, i requires 0 <= i < |colors| => Stop(StopOffset(i, |colors|), colors[i]))
  }

  /** With the reals standing in for JavaScript numbers, `index * step == index / (n - 1)`. */
  lemma SteppedOffsetIsEven(i: nat, n: nat)
    requires n >= 2
    ensures SteppedOffset(i, n) == StopOffset(i, n)
  {
    var d := (n - 1) as real;
    calc {
      SteppedOffset(i, n);
      i as real * (1.0 / d);
      (i as real * 1.0) / d;
      StopOffset(i, n);
    }
  }

  /** Offsets of `n` stops lie in [0, 1], with 0 first and 1 last. */
  lemma StopOffsetBounds(i: nat, n: nat)
    requires n >= 2 && i < n
    ensures 0.0 <= StopOffset(i, n) <= 1.0
    ensures i == 0 ==> StopOffset(i, n) == 0.0
    ensures i == n - 1 ==> StopOffset(i, n) == 1.0
  {
    var d := (n - 1) as real;
    assert i as real <= d;
    assert StopOffset(i, n) * d == i as real;
  }

  /** Consecutive offsets differ by exactly `1 / (n - 1)`, so they strictly increase. */
  lemma StopOffsetStep(i: nat, n: nat)
    requires n >= 2
    ensures StopOffset(i + 1, n) - StopOffset(i, n) == 1.0 / (n - 1) as real
    ensures StopOffset(i, n) < StopOffset(i + 1, n)
  {
    var d := (n - 1) as real;
    assert StopOffset(i + 1, n) == (i as real + 1.0) / d;
    assert (i as real + 1.0) / d == i as real / d + 1.0 / d;
  }

  lemma {:induction false} StopOffsetIncreasing(i: nat, j: nat, n: nat)
    requires n >= 2 && i < j
    ensures StopOffset(i, n) < StopOffset(j, n)
    decreases j - i
  {
    StopOffsetStep(i, n);
    if i + 1 < j {
      StopOffsetIncreasing(i + 1, j, n);
    }
  }

  /**
   * The stops run from 0 to 1, strictly increase, and are spaced `1 / (n - 1)` apart.
   */
  lemma EvenStopsOrdered(colors: seq<Color>)
    requires |colors| >= 2
    ensures var stops, n := EvenStops(colors), |colors|;
      && |stops| == n
      && stops[0].offset == 0.0
      && stops[n - 1].offset == 1.0
      && (forall i :: 0 <= i < n ==> 0.0 <= stops[i].offset <= 1.0)
      && (forall i, j :: 0 <= i < j < n ==> stops[i].offset < stops[j].offset)
      && (forall i :: 0 <= i < n - 1 ==> stops[i + 1].offset - stops[i].offset == 1.0 / (n - 1) as real)
  {
    var stops, n := EvenStops(colors), |colors|;
    StopOffsetBounds(0, n);
    StopOffsetBounds(n - 1, n);
    forall i | 0 <= i < n
      ensures 0.0 <= stops[i].offset <= 1.0
    {
      StopOffsetBounds(i, n);
    }
    forall i, j | 0 <= i < j < n
      ensures stops[i].offset < stops[j].offset
    {
      StopOffsetIncreasing(i, j, n);
    }
    forall i | 0 <= i < n - 1
      ensures stops[i + 1].offset - stops[i].offset == 1.0 / (n - 1) as real
    {
      StopOffsetStep(i, n);
    }
  }

  /** The resolver's loop: one `addColorStop(index / (n - 1), color)` per colour. */
  method AddColorStops(colors: seq<Color>) returns (stops: seq<Stop>)
    requires |colors| >= 2
    ensures |stops| == |colors|
    ensures forall i :: 0 <= i < |stops| ==> stops[i].color == colors[i]
    ensures stops == EvenStops(colors)
  {
    stops := [];
    var index := 0;
    while index < |colors|
      invariant 0 <= index <= |colors|
      invariant stops == EvenStops(colors)[..index]
    {
      stops := stops + [Stop(StopOffset(index, |colors|), colors[index])];
      index := index + 1;
    }
  }

  /** The frequency visualizer's loop: one `addColorStop(index * step, color)` per colour. */
  method AddSteppedColorStops(colors: seq<Color>) returns (stops: seq<Stop>)
    requires |colors| >= 2
    ensures |stops| == |colors|
    ensures forall i :: 0 <= i < |stops| ==> stops[i].color == colors[i]
    ensures stops == EvenStops(colors)
  {
    var step := 1.0 / (|colors| - 1) as real;
    stops := [];
    var index := 0;
    while index < |colors|
      invariant 0 <= index <= |colors|
      invariant stops == EvenStops(colors)[..index]
    {
      SteppedOffsetIsEven(index, |colors|);
      assert index as real * step == SteppedOffset(index, |colors|);
      stops := stops + [Stop(index as real * step, colors[index])];
      index := index + 1;
    }
  }

  /** `radius || 0`: an absent radius becomes 0 (a radius of 0 stays 0). */
  function RadiusOrZero(radius: Option<real>): real
  {
    if radius.Some? then radius.value else 0.0
  }

  /** The geometry `createGradient` passes to the canvas for each gradient type. */
  function GeometryFor(kind: GradientType, width: real, height: real, radius: Option<real>): Geometry
  {
    match kind
    case LinearType => Linear(0.0, height, 0.0, 0.0)
    case RadialType => Radial(width / 2.0, height / 2.0, 0.0, width / 2.0, height / 2.0, RadiusOrZero(radius))
  }

  /**
   * A linear gradient runs vertically from the bottom edge (y = height) to the top
   * (y = 0) and does not depend on the width or radius; a radial one has both circles
   * centred on the surface, inner radius 0 and outer radius `radius`, or 0 without one.
   */
  lemma GeometryShape(kind: GradientType, width: real, height: real, radius: Option<real>, otherWidth: real, otherRadius: Option<real>)
    ensures var g := GeometryFor(kind, width, height, radius);
      && (kind == LinearType ==>
            g.Linear? && g.x0 == g.x1 == 0.0 && g.y0 == height && g.y1 == 0.0
            && g == GeometryFor(kind, otherWidth, height, otherRadius))
      && (kind == RadialType ==>
            g.Radial? && g.x0 == g.x1 && g.y0 == g.y1 && 2.0 * g.x0 == width && 2.0 * g.y0 == height
            && g.r0 == 0.0 && (radius.None? ==> g.r1 == 0.0) && (radius.Some? ==> g.r1 == radius.value))
  {
  }

  /**
   * `createGradient(ctx, type, colors, width, height, radius)`. `None` is the
   * `undefined` that `colors[0]` yields for an empty list.
   */
  method CreateGradient(kind: GradientType, colors: seq<Color>, width: real, height: real, radius: Option<real>)
    returns (paint: Option<Paint>)
    ensures |colors| == 0 ==> paint == None
    ensures |colors| == 1 ==> paint == Some(Solid(colors[0]))
    ensures |colors| >= 2 ==> paint.Some? && paint.value.Gradient?
    ensures |colors| >= 2 ==> paint.value.geometry == GeometryFor(kind, width, height, radius)
    ensures |colors| >= 2 ==> paint.value.stops == EvenStops(colors)
  {
    if |colors| < 2 {
      return if |colors| == 0 then None else Some(Solid(colors[0]));
    }
    var geometry := GeometryFor(kind, width, height, radius);
    var stops := AddColorStops(colors);
    paint := Some(Gradient(geometry, stops));
  }
}
