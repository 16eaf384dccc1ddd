/**
 * The circular visualizer (src/components/CircularVisualizer.tsx): up to 360 rays
 * from the centre, each as long as its bin's magnitude, the whole field rotating by
 * a phase kept across frames.
 */
module CircularVisualizer {
  import opened Base
  import opened Canvas
  import Stops = Gradient
  import opened Frames

  /** `Math.PI`. */
  const Pi: real := 3.141592653589793

  /** The rotation added per frame for an animation speed of 1. */
  const RotationStep: real := 0.002

  /** The props `draw` reads, after their defaults are applied. */
  datatype Style = Style(
    width: real,
    height: real,
    backgroundColor: Color,
    foregroundColor: Color,
    gradientColors: Option<seq<Color>>,
    barWidth: real,
    animationSpeed: real)

  predicate HasGradient(s: Style)
  {
    s.gradientColors.Some? && |s.gradientColors.value| >= 2
  }

  /** The stroke of a ray reaching `radius`: a radial gradient centred on the surface, or `foregroundColor`. */
  function RayPaint(s: Style, radius: real): Paint
  {
    if HasGradient(s) then
      Gradient(Radial(s.width / 2.0, s.height / 2.0, 0.0, s.width / 2.0, s.height / 2.0, radius), Stops.EvenStops(s.gradientColors.value))
    else Solid(s.foregroundColor)
  }

  /** The visualizer's own `createGradient(ctx, radius)`. */
  method CreateGradient(s: Style, radius: real) returns (paint: Paint)
    ensures paint == RayPaint(s, radius)
    ensures !HasGradient(s) ==> paint == Solid(s.foregroundColor)
    ensures HasGradient(s) ==> paint.Gradient? && paint.geometry == Stops.GeometryFor(Stops.RadialType, s.width, s.height, Some(radius))
  {
    if !HasGradient(s) {
      return Solid(s.foregroundColor);
    }
    var stops := Stops.AddColorStops(s.gradientColors.value);
    paint := Gradient(Radial(s.width / 2.0, s.height / 2.0, 0.0, s.width / 2.0, s.height / 2.0, radius), stops);
  }

  /** `bars = Math.min(bufferLength, 360)`: at most one ray per degree. */
  function RayCount(bufferLength: nat): (bars: nat)
    ensures bars <= 360 && bars <= bufferLength
    ensures bars == 360 || bars == bufferLength
  {
    Min(bufferLength, 360)
  }

  /** `angleStep = 2π / bars`; with no ray the quotient is never used and the model puts 0. */
  function AngleStep(bars: nat): real
  {
    if bars == 0 then 0.0 else 2.0 * Pi / bars as real
  }

  function RayAngle(i: nat, bars: nat): real
  {
    i as real * AngleStep(bars)
  }

  /** Every ray's angle lies in [0, 2π), and the angles strictly increase. */
  lemma RayAngleRange(i: nat, bars: nat)
    requires i < bars
    ensures 0.0 <= RayAngle(i, bars) < 2.0 * Pi
    ensures i + 1 < bars ==> RayAngle(i, bars) < RayAngle(i + 1, bars)
  {
    var step := AngleStep(bars);
    assert step * bars as real == 2.0 * Pi;
    assert step > 0.0;
    assert (bars as real - i as real) * step > 0.0;
    assert RayAngle(i + 1, bars) == RayAngle(i, bars) + step;
  }

  /** `radius = Math.min(width, height) / 3`. */
  function BaseRadius(width: real, height: real): real
  {
    (if width <= height then width else height) / 3.0
  }

  /** The base radius is a third of the shorter side. */
  lemma BaseRadiusIsThirdOfShorterSide(width: real, height: real)
    ensures 3.0 * BaseRadius(width, height) <= width && 3.0 * BaseRadius(width, height) <= height
    ensures 3.0 * BaseRadius(width, height) == width || 3.0 * BaseRadius(width, height) == height
  {
  }

  /** `barHeight = (dataArray[i] / 255) * radius`. */
  function RayLength(v: byte, radius: real): real
  {
    (v as real / 255.0) * radius
  }

  /** A ray is at most the base radius long, so it ends between `radius` and `2 * radius` from the centre. */
  lemma RayReach(v: byte, radius: real)
    requires radius >= 0.0
    ensures 0.0 <= RayLength(v, radius) <= radius
    ensures radius <= radius + RayLength(v, radius) <= 2.0 * radius
  {
    var m := v as real / 255.0;
    assert 0.0 <= m <= 1.0;
    ScaleBetween(m, radius);
  }

  lemma ScaleBetween(m: real, radius: real)
    requires 0.0 <= m <= 1.0 && radius >= 0.0
    ensures 0.0 <= m * radius <= radius
  {
    assert (1.0 - m) * radius >= 0.0;
  }

  /** The rotation after one drawn frame: advanced by `0.002 * animationSpeed`, and set to 0 once it reaches 2π. */
  function NextRotation(rotation: real, animationSpeed: real): real
  {
    var advanced := rotation + RotationStep * animationSpeed;
    if advanced >= 2.0 * Pi then 0.0 else advanced
  }

  /** The rotation after drawing frames at the given successive speeds. */
  function RotationAfter(rotation: real, speeds: seq<real>): real
    decreases |speeds|
  {
    if speeds == [] then rotation
    else RotationAfter(NextRotation(rotation, speeds[0]), speeds[1..])
  }

  /** With a non-negative speed, one frame keeps the rotation in [0, 2π). */
  lemma NextRotationInRange(rotation: real, animationSpeed: real)
    requires 0.0 <= rotation < 2.0 * Pi && animationSpeed >= 0.0
    ensures 0.0 <= NextRotation(rotation, animationSpeed) < 2.0 * Pi
    ensures NextRotation(rotation, animationSpeed) == 0.0
        || NextRotation(rotation, animationSpeed) == rotation + RotationStep * animationSpeed
  {
  }

  /** Starting in [0, 2π), any number of frames at non-negative speeds stays in [0, 2π). */
  lemma {:induction false} RotationStaysInRange(rotation: real, speeds: seq<real>)
    requires 0.0 <= rotation < 2.0 * Pi
    requires forall i :: 0 <= i < |speeds| ==> speeds[i] >= 0.0
    ensures 0.0 <= RotationAfter(rotation, speeds) < 2.0 * Pi
    decreases |speeds|
  {
    if speeds != [] {
      NextRotationInRange(rotation, speeds[0]);
      RotationStaysInRange(NextRotation(rotation, speeds[0]), speeds[1..]);
    }
  }

  /** A negative speed is never wrapped: one frame from 0 at speed -1 leaves [0, 2π). */
  lemma NegativeSpeedLeavesRange()
    ensures NextRotation(0.0, -1.0) == -0.002
  {
  }

  /** The six commands of ray `i`: its gradient stroke, width, and the segment from `radius` outwards. */
  function RayCommands(data: seq<byte>, s: Style, bars: nat, radius: real, i: nat): seq<Command>
    requires i < |data|
  {
    var barHeight := RayLength(data[i], radius);
    var angle := RayAngle(i, bars);
    [SetStrokeStyle(RayPaint(s, radius + barHeight)), SetLineWidth(s.barWidth), BeginPath,
     MoveTo(Polar(angle, radius)), LineTo(Polar(angle, radius + barHeight)), Stroke]
  }

  /** The commands of rays `0 .. k-1`. */
  function Rays(data: seq<byte>, s: Style, bars: nat, radius: real, k: nat): seq<Command>
    requires k <= |data|
  {
    if k == 0 then []
    else Rays(data, s, bars, radius, k - 1) + RayCommands(data, s, bars, radius, k - 1)
  }

  /** Background fill, then the transform that centres and rotates the ray field. */
  function Header(s: Style, rotation: real): seq<Command>
  {
    [SetFillStyle(Solid(s.backgroundColor)), FillRect(0.0, 0.0, s.width, s.height),
     Save, Translate(s.width / 2.0, s.height / 2.0), Rotate(rotation)]
  }

  /**
   * Everything one call of `draw` issues, given the rotation before the frame. The rays
   * are drawn under the rotation after the update.
   */
  function CircularFrame(f: FrameInput, s: Style, rotation: real): seq<Command>
  {
    if !Ready(f) then []
    else
      var bars := RayCount(BufferLength(f));
      Header(s, NextRotation(rotation, s.animationSpeed))
      + Rays(Samples(f), s, bars, BaseRadius(s.width, s.height), bars)
      + [Restore, RequestAnimationFrame]
  }

  /** Ray `i`'s commands sit at positions `6 i .. 6 i + 5`. */
  lemma {:induction false} RaysShape(data: seq<byte>, s: Style, bars: nat, radius: real, k: nat)
    requires k <= |data|
    ensures var rays := Rays(data, s, bars, radius, k);
      && |rays| == 6 * k
      && forall i, j :: 0 <= i < k && 0 <= j < 6 ==> rays[6 * i + j] == RayCommands(data, s, bars, radius, i)[j]
  {
    if k > 0 {
      RaysShape(data, s, bars, radius, k - 1);
    }
  }

  /** The rays neither restore the transform nor reschedule. */
  lemma {:induction false} RaysStayInside(data: seq<byte>, s: Style, bars: nat, radius: real, k: nat)
    requires k <= |data|
    ensures forall c :: c in Rays(data, s, bars, radius, k) ==> !c.RequestAnimationFrame? && !c.Restore?
  {
    if k > 0 {
      RaysStayInside(data, s, bars, radius, k - 1);
      assert Rays(data, s, bars, radius, k)
          == Rays(data, s, bars, radius, k - 1) + RayCommands(data, s, bars, radius, k - 1);
    }
  }

  /** Between any prefix and suffix, ray `i`'s commands sit `6 i` places after the prefix. */
  lemma RayPositions(prefix: seq<Command>, data: seq<byte>, s: Style, bars: nat, radius: real, suffix: seq<Command>, i: nat)
    requires bars <= |data| && i < bars
    ensures var frame := prefix + Rays(data, s, bars, radius, bars) + suffix;
      && |frame| == |prefix| + 6 * bars + |suffix|
      && forall j :: 0 <= j < 6 ==> frame[|prefix| + 6 * i + j] == RayCommands(data, s, bars, radius, i)[j]
  {
    var rays := Rays(data, s, bars, radius, bars);
    RaysShape(data, s, bars, radius, bars);
    var frame := prefix + rays + suffix;
    forall j | 0 <= j < 6
      ensures frame[|prefix| + 6 * i + j] == RayCommands(data, s, bars, radius, i)[j]
    {
      assert frame[|prefix| + 6 * i + j] == rays[6 * i + j];
    }
  }

  /**
   * In a drawn frame each ray `i` starts at the base radius, at angle `i * 2π / bars`
   * in [0, 2π), ends between one and two base radii out, and is stroked with a
   * gradient whose outer radius is the ray's end.
   */
  lemma RayInFrame(f: FrameInput, s: Style, rotation: real, i: nat)
    requires Ready(f) && s.width >= 0.0 && s.height >= 0.0
    requires i < RayCount(BufferLength(f))
    ensures var frame := CircularFrame(f, s, rotation);
      var bars, radius := RayCount(BufferLength(f)), BaseRadius(s.width, s.height);
      && |frame| == 5 + 6 * bars + 2
      && frame[5 + 6 * i + 3].MoveTo? && frame[5 + 6 * i + 4].LineTo?
      && var start, end := frame[5 + 6 * i + 3].to, frame[5 + 6 * i + 4].to;
      && start == Polar(RayAngle(i, bars), radius)
      && end.Polar? && end.angle == start.angle
      && 0.0 <= start.angle < 2.0 * Pi
      && radius <= end.distance <= 2.0 * radius
      && frame[5 + 6 * i] == SetStrokeStyle(RayPaint(s, end.distance))
  {
    var bars, radius := RayCount(BufferLength(f)), BaseRadius(s.width, s.height);
    var data := Samples(f);
    var h := Header(s, NextRotation(rotation, s.animationSpeed));
    var frame := CircularFrame(f, s, rotation);
    assert frame == h + Rays(data, s, bars, radius, bars) + [Restore, RequestAnimationFrame];
    RayPositions(h, data, s, bars, radius, [Restore, RequestAnimationFrame], i);
    RayAngleRange(i, bars);
    RayReach(data[i], radius);
    var ray := RayCommands(data, s, bars, radius, i);
    assert frame[5 + 6 * i] == ray[0];
    assert frame[5 + 6 * i + 3] == ray[3];
    assert frame[5 + 6 * i + 4] == ray[4];
  }

  /**
   * A frame that fails the guards is empty; otherwise it ends by restoring the
   * transform and rescheduling, and reschedules nowhere else.
   */
  lemma FrameOrder(f: FrameInput, s: Style, rotation: real)
    ensures var frame := CircularFrame(f, s, rotation);
      && (!Ready(f) ==> frame == [])
      && (Ready(f) ==>
            && |frame| >= 7
            && frame[..5] == Header(s, NextRotation(rotation, s.animationSpeed))
            && frame[|frame| - 2] == Restore
            && frame[|frame| - 1] == RequestAnimationFrame
            && (forall i :: 0 <= i < |frame| - 1 ==> frame[i] != RequestAnimationFrame))
  {
    if Ready(f) {
      var bars := RayCount(BufferLength(f));
      var rays := Rays(Samples(f), s, bars, BaseRadius(s.width, s.height), bars);
      RaysShape(Samples(f), s, bars, BaseRadius(s.width, s.height), bars);
      RaysStayInside(Samples(f), s, bars, BaseRadius(s.width, s.height), bars);
      var frame := CircularFrame(f, s, rotation);
      assert frame == Header(s, NextRotation(rotation, s.animationSpeed)) + rays + [Restore, RequestAnimationFrame];
      forall i | 0 <= i < |frame| - 1
        ensures frame[i] != RequestAnimationFrame
      {
        if 5 <= i < 5 + |rays| {
          assert frame[i] == rays[i - 5];
          assert rays[i - 5] in rays;
        }
      }
    }
  }

  /** One mounted visualizer; `rotation` is its `useRef(0)`. */
  class Circular {
    var rotation: real

    constructor ()
      ensures rotation == 0.0
    {
      rotation := 0.0;
    }

    /**
     * `draw`: only a frame past the guards updates the rotation, and the rays are
     * drawn under the updated one.
     */
    method Draw(f: FrameInput, s: Style) returns (cmds: seq<Command>)
      modifies this
      ensures cmds == CircularFrame(f, s, old(rotation))
      ensures rotation == if Ready(f) then NextRotation(old(rotation), s.animationSpeed) else old(rotation)
    {
      if !f.hasCanvas || f.state.analyser.None? || f.state.dataArray.None? {
        return [];
      }
      if !f.hasContext {
        return [];
      }
      assert Ready(f);
      var bufferLength := BufferLength(f);
      var dataArray := Samples(f);
      cmds := [SetFillStyle(Solid(s.backgroundColor)), FillRect(0.0, 0.0, s.width, s.height)];
      var centerX := s.width / 2.0;
      var centerY := s.height / 2.0;
      var radius := BaseRadius(s.width, s.height);
      var bars := RayCount(bufferLength);
      var angleStep := AngleStep(bars);
      rotation := rotation + RotationStep * s.animationSpeed;
      if rotation >= 2.0 * Pi {
        rotation := 0.0;
      }
      cmds := cmds + [Save, Translate(centerX, centerY), Rotate(rotation)];
      for i := 0 to bars
        invariant rotation == NextRotation(old(rotation), s.animationSpeed)
        invariant cmds == Header(s, rotation) + Rays(dataArray, s, bars, radius, i)
      {
        var angle := i as real * angleStep;
        var magnitude := dataArray[i] as real / 255.0;
        var barHeight := magnitude * radius;
        var paint := CreateGradient(s, radius + barHeight);
        assert angle == RayAngle(i, bars) && barHeight == RayLength(dataArray[i], radius);
        cmds := cmds + [SetStrokeStyle(paint), SetLineWidth(s.barWidth), BeginPath,
                        MoveTo(Polar(angle, radius)), LineTo(Polar(angle, radius + barHeight)), Stroke];
        assert Rays(dataArray, s, bars, radius, i + 1)
            == Rays(dataArray, s, bars, radius, i) + RayCommands(dataArray, s, bars, radius, i);
      }
      cmds := cmds + [Restore, RequestAnimationFrame];
    }
  }
}
