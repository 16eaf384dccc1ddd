/**
 * The frequency visualizer (src/components/FrequencyVisualizer.tsx): one bar per
 * frequency bin that fits, centred as a block and anchored to the bottom edge.
 */
module FrequencyVisualizer {
  import opened Base
  import opened Canvas
  import opened Gradient
  import opened Frames

  /** The props `draw` reads, after their defaults are applied. */
  datatype Style = Style(
    width: real,
    height: real,
    backgroundColor: Color,
    foregroundColor: Color,
    gradientColors: Option<seq<Color>>,
    barWidth: real,
    barSpacing: real,
    barRadius: real)

  predicate HasGradient(s: Style)
  {
    s.gradientColors.Some? && |s.gradientColors.value| >= 2
  }

  /** The bar fill: `foregroundColor`, or a bottom-to-top gradient over two or more colours. */
  function BarPaint(s: Style): Paint
  {
    if HasGradient(s) then Gradient(Linear(0.0, s.height, 0.0, 0.0), EvenStops(s.gradientColors.value))
    else Solid(s.foregroundColor)
  }

  /** The visualizer's own `createGradient`, with stops at `index * step`. */
  method CreateGradient(s: Style) returns (paint: Paint)
    ensures paint == BarPaint(s)
    ensures !HasGradient(s) ==> paint == Solid(s.foregroundColor)
    ensures HasGradient(s) ==> paint.Gradient? && paint.geometry == GeometryFor(LinearType, s.width, s.height, None)
    ensures HasGradient(s) ==> |paint.stops| == |s.gradientColors.value|
  {
    if !HasGradient(s) {
      return Solid(s.foregroundColor);
    }
    var stops := AddSteppedColorStops(s.gradientColors.value);
    paint := Gradient(Linear(0.0, s.height, 0.0, 0.0), stops);
  }

  /** The horizontal distance from one bar to the next. */
  function Pitch(s: Style): real
  {
    s.barWidth + s.barSpacing
  }

  /**
   * `Math.min(bufferLength, Math.floor(width / pitch))`. A pitch of 0 makes the
   * quotient +Infinity for a positive width, so every bin gets a bar; otherwise it is
   * NaN or -Infinity and the loop draws no bar.
   */
  function BarCount(bufferLength: nat, width: real, pitch: real): (count: int)
    ensures count <= bufferLength
  {
    if pitch == 0.0 then (if width > 0.0 then bufferLength else 0)
    else Min(bufferLength, (width / pitch).Floor)
  }

  datatype Layout = Layout(barCount: int, totalWidth: real, startX: real)

  /** `barCount`, `totalWidth = barCount * pitch` and `startX = (width - totalWidth) / 2`. */
  function LayoutFor(bufferLength: nat, s: Style): Layout
  {
    var count := BarCount(bufferLength, s.width, Pitch(s));
    var total := count as real * Pitch(s);
    Layout(count, total, (s.width - total) / 2.0)
  }

  /** The number of loop iterations: none when `barCount` is negative. */
  function Iterations(layout: Layout): nat
  {
    if layout.barCount < 0 then 0 else layout.barCount
  }

  /**
   * With a positive pitch the bars that are drawn fit in the width: never more than
   * the bins, never more than `floor(width / pitch)`, and as many as fit unless the
   * bins run out. The block then has equal margins left and right.
   */
  lemma LayoutFits(bufferLength: nat, s: Style)
    requires Pitch(s) > 0.0 && s.width >= 0.0
    ensures var layout := LayoutFor(bufferLength, s);
      && 0 <= layout.barCount <= bufferLength
      && layout.totalWidth <= s.width
      && (layout.barCount == bufferLength || s.width < (layout.barCount + 1) as real * Pitch(s))
      && layout.startX >= 0.0
      && layout.startX == s.width - (layout.startX + layout.totalWidth)
  {
    var p := Pitch(s);
    var fl := (s.width / p).Floor;
    FloorOfQuotient(s.width, p);
    var count := LayoutFor(bufferLength, s).barCount;
    assert count == Min(bufferLength, fl);
    ScaleMonotone(count as real, fl as real, p);
  }

  /** `floor(w / p)` pitches fit in `w`, one more does not. */
  lemma FloorOfQuotient(w: real, p: real)
    requires p > 0.0 && w >= 0.0
    ensures var fl := (w / p).Floor;
      fl >= 0 && fl as real * p <= w < (fl + 1) as real * p
  {
    var q := w / p;
    var fl := q.Floor;
    assert q * p == w;
    ScaleMonotone(fl as real, q, p);
    calc {
      w;
      == q * p;
      < (fl as real + 1.0) * p;
      == (fl + 1) as real * p;
    }
  }

  lemma ScaleMonotone(a: real, b: real, c: real)
    requires a <= b && c >= 0.0
    ensures a * c <= b * c
  {
  }

  datatype Rect = Rect(x: real, y: real, w: real, h: real)

  /** `barHeight = (dataArray[i] / 255) * height`. */
  function BarHeight(v: byte, height: real): real
  {
    (v as real / 255.0) * height
  }

  /** Bar `i`: at `startX + i * pitch`, `barWidth` wide, `barHeight` tall, ending at `height`. */
  function Bar(data: seq<byte>, s: Style, layout: Layout, i: nat): Rect
    requires i < |data|
  {
    var h := BarHeight(data[i], s.height);
    Rect(layout.startX + i as real * Pitch(s), s.height - h, s.barWidth, h)
  }

  /** A bar as a rounded-rectangle path when `barRadius > 0`, else as a plain `fillRect`. */
  function BarCommands(r: Rect, radius: real): seq<Command>
  {
    if radius > 0.0 then [BeginPath, RoundRect(r.x, r.y, r.w, r.h, radius), Fill]
    else [FillRect(r.x, r.y, r.w, r.h)]
  }

  /** The commands of bars `0 .. k-1`. */
  function Bars(data: seq<byte>, s: Style, layout: Layout, k: nat): seq<Command>
    requires k <= |data|
  {
    if k == 0 then []
    else Bars(data, s, layout, k - 1) + BarCommands(Bar(data, s, layout, k - 1), s.barRadius)
  }

  /** Extending the bars by bar `i`, drawn at `(x, y)` with height `h`. */
  lemma BarsStep(data: seq<byte>, s: Style, layout: Layout, i: nat, x: real, y: real, h: real)
    requires i < |data|
    requires h == (data[i] as real / 255.0) * s.height
    requires x == layout.startX + i as real * (s.barWidth + s.barSpacing) && y == s.height - h
    ensures Bars(data, s, layout, i + 1) == Bars(data, s, layout, i) + BarCommands(Rect(x, y, s.barWidth, h), s.barRadius)
  {
    assert Bar(data, s, layout, i) == Rect(x, y, s.barWidth, h);
  }

  /** The background fill and the bar fill style, issued before any bar. */
  function Header(s: Style): seq<Command>
  {
    [SetFillStyle(Solid(s.backgroundColor)), FillRect(0.0, 0.0, s.width, s.height), SetFillStyle(BarPaint(s))]
  }

  /** Everything one call of `draw` issues. */
  function FrequencyFrame(f: FrameInput, s: Style): seq<Command>
  {
    if !Ready(f) then []
    else
      var layout := LayoutFor(BufferLength(f), s);
      Header(s) + Bars(Samples(f), s, layout, Iterations(layout)) + [RequestAnimationFrame]
  }

  /** Each bar stands on the bottom edge, its height within [0, height]. */
  lemma BarGeometry(data: seq<byte>, s: Style, layout: Layout, i: nat)
    requires i < |data| && s.height >= 0.0
    ensures var r := Bar(data, s, layout, i);
      && r.y + r.h == s.height
      && 0.0 <= r.h <= s.height
      && 0.0 <= r.y
      && r.w == s.barWidth
      && r.x == layout.startX + i as real * (s.barWidth + s.barSpacing)
  {
    var v := data[i] as real / 255.0;
    assert 0.0 <= v <= 1.0;
    ScaleMonotone(v, 1.0, s.height);
    ScaleMonotone(0.0, v, s.height);
    assert BarHeight(data[i], s.height) == v * s.height <= 1.0 * s.height == s.height;
  }

  /** With non-negative width and spacing, every bar ends before the next one begins. */
  lemma BarsSideBySide(data: seq<byte>, s: Style, layout: Layout, i: nat, j: nat)
    requires i < j < |data| && s.barWidth >= 0.0 && s.barSpacing >= 0.0
    ensures Bar(data, s, layout, i).x + s.barWidth <= Bar(data, s, layout, j).x
  {
    var p := Pitch(s);
    var d := j as real - i as real;
    ScaleMonotone(1.0, d, p);
    assert j as real * p == i as real * p + d * p;
  }

  /** With a positive pitch, non-negative width and spacing, every drawn bar lies inside [0, width]. */
  lemma BarsInside(bufferLength: nat, data: seq<byte>, s: Style, i: nat)
    requires s.barWidth >= 0.0 && s.barSpacing >= 0.0 && Pitch(s) > 0.0 && s.width >= 0.0
    requires i < LayoutFor(bufferLength, s).barCount && i < |data|
    ensures var r := Bar(data, s, LayoutFor(bufferLength, s), i);
      0.0 <= r.x && r.x + r.w <= s.width
  {
    var layout := LayoutFor(bufferLength, s);
    LayoutFits(bufferLength, s);
    var p := Pitch(s);
    ScaleMonotone(0.0, i as real, p);
    ScaleMonotone((i + 1) as real, layout.barCount as real, p);
    var r := Bar(data, s, layout, i);
    calc {
      r.x + r.w;
      == layout.startX + i as real * p + s.barWidth;
      <= layout.startX + i as real * p + p;
      == layout.startX + (i + 1) as real * p;
      <= layout.startX + layout.barCount as real * p;
      == layout.startX + layout.totalWidth;
      <= s.width;
    }
  }

  /**
   * The bar commands hold `k` bars of 3 commands (rounded) or 1 (plain), contain no
   * style change and no rescheduling, round corners exactly when `barRadius > 0`.
   */
  lemma {:induction false} BarsShape(data: seq<byte>, s: Style, layout: Layout, k: nat)
    requires k <= |data|
    ensures var bars := Bars(data, s, layout, k);
      && |bars| == k * (if s.barRadius > 0.0 then 3 else 1)
      && (forall c :: c in bars ==> !c.RequestAnimationFrame? && !c.SetFillStyle?)
      && (forall c :: c in bars && c.RoundRect? ==> s.barRadius > 0.0 && c.radius == s.barRadius)
      && (forall c :: c in bars && c.FillRect? ==> s.barRadius <= 0.0)
      && (k > 0 && s.barRadius > 0.0 ==> exists c :: c in bars && c.RoundRect?)
  {
    if k > 0 {
      BarsShape(data, s, layout, k - 1);
      var r := Bar(data, s, layout, k - 1);
      var last := BarCommands(r, s.barRadius);
      assert Bars(data, s, layout, k) == Bars(data, s, layout, k - 1) + last;
      if s.barRadius > 0.0 {
        assert last[1] in Bars(data, s, layout, k);
      }
    }
  }

  /**
   * Bar `i`'s commands sit at their own place in the list: positions `3 i .. 3 i + 2`
   * for rounded bars, position `i` for plain ones.
   */
  lemma {:induction false} BarsIndexed(data: seq<byte>, s: Style, layout: Layout, k: nat)
    requires k <= |data|
    ensures var bars := Bars(data, s, layout, k);
      && (s.barRadius > 0.0 ==>
            && |bars| == 3 * k
            && forall i, j :: 0 <= i < k && 0 <= j < 3 ==>
                 bars[3 * i + j] == BarCommands(Bar(data, s, layout, i), s.barRadius)[j])
      && (s.barRadius <= 0.0 ==>
            && |bars| == k
            && forall i :: 0 <= i < k ==> bars[i] == BarCommands(Bar(data, s, layout, i), s.barRadius)[0])
  {
    if k > 0 {
      BarsIndexed(data, s, layout, k - 1);
      assert Bars(data, s, layout, k)
          == Bars(data, s, layout, k - 1) + BarCommands(Bar(data, s, layout, k - 1), s.barRadius);
    }
  }

  /**
   * In a drawn frame, bar `i` is drawn as the rectangle `Bar(i)`: a rounded-rectangle
   * path with `barRadius` after the three header commands at `3 + 3 i`, or a plain
   * `fillRect` at `3 + i`.
   */
  lemma BarInFrame(f: FrameInput, s: Style, i: nat)
    requires Ready(f) && i < Iterations(LayoutFor(BufferLength(f), s))
    ensures var frame := FrequencyFrame(f, s);
      var r := Bar(Samples(f), s, LayoutFor(BufferLength(f), s), i);
      && (s.barRadius > 0.0 ==>
            3 + 3 * i + 3 <= |frame| && frame[3 + 3 * i .. 3 + 3 * i + 3] == [BeginPath, RoundRect(r.x, r.y, r.w, r.h, s.barRadius), Fill])
      && (s.barRadius <= 0.0 ==> 3 + i < |frame| && frame[3 + i] == FillRect(r.x, r.y, r.w, r.h))
  {
    var layout := LayoutFor(BufferLength(f), s);
    var data := Samples(f);
    var n := Iterations(layout);
    assert n <= BufferLength(f) == |data| by {
      assert layout.barCount <= BufferLength(f);
    }
    var bars := Bars(data, s, layout, n);
    BarsIndexed(data, s, layout, n);
    var frame := FrequencyFrame(f, s);
    assert frame == Header(s) + bars + [RequestAnimationFrame];
    var r := Bar(data, s, layout, i);
    var cmds := BarCommands(r, s.barRadius);
    if s.barRadius > 0.0 {
      forall j | 0 <= j < 3
        ensures frame[3 + 3 * i + j] == cmds[j]
      {
        assert frame[3 + 3 * i + j] == bars[3 * i + j];
      }
      assert frame[3 + 3 * i .. 3 + 3 * i + 3] == cmds;
    } else {
      assert frame[3 + i] == bars[i] == cmds[0];
    }
  }

  /**
   * A frame that fails the guards is empty. Otherwise it begins with the full-surface
   * background fill, sets the bar fill before any bar, and ends with the one
   * `requestAnimationFrame`.
   */
  lemma FrameOrder(f: FrameInput, s: Style)
    ensures var frame := FrequencyFrame(f, s);
      && (!Ready(f) ==> frame == [])
      && (Ready(f) ==>
            && |frame| >= 4
            && frame[..3] == [SetFillStyle(Solid(s.backgroundColor)), FillRect(0.0, 0.0, s.width, s.height),
                              SetFillStyle(BarPaint(s))]
            && frame[|frame| - 1] == RequestAnimationFrame
            && (forall i :: 0 <= i < |frame| - 1 ==> frame[i] != RequestAnimationFrame))
  {
    if Ready(f) {
      var layout := LayoutFor(BufferLength(f), s);
      var bars := Bars(Samples(f), s, layout, Iterations(layout));
      BarsShape(Samples(f), s, layout, Iterations(layout));
      var frame := FrequencyFrame(f, s);
      assert frame == Header(s) + bars + [RequestAnimationFrame];
      forall i | 0 <= i < |frame| - 1
        ensures frame[i] != RequestAnimationFrame
      {
        if i >= 3 {
          assert frame[i] == bars[i - 3];
          assert bars[i - 3] in bars;
        }
      }
    }
  }

  /** An 800-wide surface with 6 + 2 pitch and 1024 bins: 100 bars filling the width from x = 0. */
  lemma ScenarioEightHundredWide(s: Style)
    requires s.width == 800.0 && s.barWidth == 6.0 && s.barSpacing == 2.0
    ensures LayoutFor(1024, s) == Layout(100, 800.0, 0.0)
  {
    assert s.width / Pitch(s) == 100.0;
  }

  /** `draw`: guards, background, layout, bar fill, one command group per bar, reschedule. */
  method Draw(f: FrameInput, s: Style) returns (cmds: seq<Command>)
    ensures cmds == FrequencyFrame(f, s)
    ensures !Ready(f) ==> cmds == []
    ensures Ready(f) ==> |cmds| >= 4 && cmds[1] == FillRect(0.0, 0.0, s.width, s.height)
    ensures Ready(f) ==> cmds[|cmds| - 1] == RequestAnimationFrame
  {
    if !f.hasCanvas || f.state.analyser.None? || f.state.dataArray.None? {
      return [];
    }
    if !f.hasContext {
      return [];
    }
    var bufferLength := BufferLength(f);
    var dataArray := Samples(f);
    cmds := [SetFillStyle(Solid(s.backgroundColor)), FillRect(0.0, 0.0, s.width, s.height)];
    var barCount := BarCount(bufferLength, s.width, s.barWidth + s.barSpacing);
    var totalWidth := barCount as real * (s.barWidth + s.barSpacing);
    var startX := (s.width - totalWidth) / 2.0;
    var paint := CreateGradient(s);
    cmds := cmds + [SetFillStyle(paint)];
    ghost var layout := Layout(barCount, totalWidth, startX);
    assert layout == LayoutFor(bufferLength, s);
    var i := 0;
    while i < barCount
      invariant 0 <= i <= Iterations(layout)
      invariant cmds == Header(s) + Bars(dataArray, s, layout, i)
    {
      var barHeight := (dataArray[i] as real / 255.0) * s.height;
      var x := startX + i as real * (s.barWidth + s.barSpacing);
      var y := s.height - barHeight;
      BarsStep(dataArray, s, layout, i, x, y, barHeight);
      if s.barRadius > 0.0 {
        cmds := cmds + [BeginPath, RoundRect(x, y, s.barWidth, barHeight, s.barRadius), Fill];
      } else {
        cmds := cmds + [FillRect(x, y, s.barWidth, barHeight)];
      }
      i := i + 1;
    }
    cmds := cmds + [RequestAnimationFrame];
    FrameOrder(f, s);
  }
}
