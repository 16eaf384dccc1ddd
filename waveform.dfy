/**
 * The waveform visualizer (src/components/WaveformVisualizer.tsx): one connected
 * line through the time-domain samples, closed at the right edge's midline.
 */
module WaveformVisualizer {
  import opened Base
  import opened Canvas
  import opened Frames

  /** The props `draw` reads; `barWidth` is the line width. */
  datatype Style = Style(width: real, height: real, backgroundColor: Color, foregroundColor: Color, barWidth: real)

  /**
   * `sliceWidth = width / bufferLength`. Without samples the quotient is never used,
   * and the model puts 0 in its place.
   */
  function SliceWidth(width: real, n: nat): real
  {
    if n == 0 then 0.0 else width / n as real
  }

  /** `y = (v / 128) * height / 2`. */
  function SampleY(v: byte, height: real): real
  {
    (v as real / 128.0) * height / 2.0
  }

  /** Where sample `i` is drawn: x advanced by one slice per sample. */
  function SamplePoint(data: seq<byte>, i: nat, sliceWidth: real, height: real): Point
    requires i < |data|
  {
    At(i as real * sliceWidth, SampleY(data[i], height))
  }

  /** `moveTo` for the first sample, `lineTo` for the others. */
  function PathCommand(data: seq<byte>, i: nat, sliceWidth: real, height: real): Command
    requires i < |data|
  {
    if i == 0 then MoveTo(SamplePoint(data, i, sliceWidth, height))
    else LineTo(SamplePoint(data, i, sliceWidth, height))
  }

  /** The path through samples `0 .. k-1`. */
  function Path(data: seq<byte>, sliceWidth: real, height: real, k: nat): seq<Command>
    requires k <= |data|
  {
    if k == 0 then []
    else Path(data, sliceWidth, height, k - 1) + [PathCommand(data, k - 1, sliceWidth, height)]
  }

  /** Extending the path by sample `i`, drawn at `(x, y)`. */
  lemma PathStep(data: seq<byte>, sliceWidth: real, height: real, i: nat, x: real, y: real)
    requires i < |data| && x == i as real * sliceWidth && y == ((data[i] as real / 128.0) * height) / 2.0
    ensures Path(data, sliceWidth, height, i + 1)
         == Path(data, sliceWidth, height, i) + [if i == 0 then MoveTo(At(x, y)) else LineTo(At(x, y))]
  {
    assert SamplePoint(data, i, sliceWidth, height) == At(x, y);
  }

  /** Background fill, then the line style and a new path. */
  function Header(s: Style): seq<Command>
  {
    [SetFillStyle(Solid(s.backgroundColor)), FillRect(0.0, 0.0, s.width, s.height),
     SetLineWidth(s.barWidth), SetStrokeStyle(Solid(s.foregroundColor)), BeginPath]
  }

  /** The closing point at the right edge's midline, the stroke and the reschedule. */
  function Closing(s: Style): seq<Command>
  {
    [LineTo(At(s.width, s.height / 2.0)), Stroke, RequestAnimationFrame]
  }

  /** Everything one call of `draw` issues. */
  function WaveformFrame(f: FrameInput, s: Style): seq<Command>
  {
    if !Ready(f) then []
    else
      var n := BufferLength(f);
      Header(s) + Path(Samples(f), SliceWidth(s.width, n), s.height, n) + Closing(s)
  }

  /** The path holds one command per sample, in sample order. */
  lemma {:induction false} PathShape(data: seq<byte>, sliceWidth: real, height: real, k: nat)
    requires k <= |data|
    ensures var path := Path(data, sliceWidth, height, k);
      |path| == k && forall i :: 0 <= i < k ==> path[i] == PathCommand(data, i, sliceWidth, height)
  {
    if k > 0 {
      PathShape(data, sliceWidth, height, k - 1);
    }
  }

  /**
   * A drawn frame's path has `bufferLength + 1` points: a `moveTo` at the first sample
   * (when there is one), a `lineTo` at every later sample, and a final `lineTo` to
   * `(width, height / 2)` whatever the last sample is. The background fill and the
   * line style come first, the stroke and the reschedule last.
   */
  lemma FrameShape(f: FrameInput, s: Style)
    ensures !Ready(f) ==> WaveformFrame(f, s) == []
    ensures Ready(f) ==>
      var n := BufferLength(f);
      WaveformFrame(f, s) == Header(s) + Path(Samples(f), SliceWidth(s.width, n), s.height, n) + Closing(s)
      && PathFrame(Samples(f), SliceWidth(s.width, n), s, WaveformFrame(f, s))
  {
    if Ready(f) {
      var n := BufferLength(f);
      PathFrameShape(Samples(f), SliceWidth(s.width, n), s);
    }
  }

  /** The shape of a drawn frame over samples `data`, spaced `sw` apart. */
  predicate PathFrame(data: seq<byte>, sw: real, s: Style, frame: seq<Command>)
  {
    var n := |data|;
    && |frame| == n + 8
    && frame[..5] == Header(s)
    && (n > 0 ==> frame[5] == MoveTo(At(0.0, SampleY(data[0], s.height))))
    && (forall i :: 0 < i < n ==> frame[5 + i] == LineTo(At(i as real * sw, SampleY(data[i], s.height))))
    && frame[5 + n] == LineTo(At(s.width, s.height / 2.0))
    && frame[n + 6] == Stroke
    && frame[n + 7] == RequestAnimationFrame
  }

  lemma PathFrameShape(data: seq<byte>, sw: real, s: Style)
    ensures PathFrame(data, sw, s, Header(s) + Path(data, sw, s.height, |data|) + Closing(s))
  {
    var n := |data|;
    var path := Path(data, sw, s.height, n);
    PathShape(data, sw, s.height, n);
    var h, c := Header(s), Closing(s);
    var frame := h + path + c;
    assert frame[..5] == h;
    forall i | 0 < i < n
      ensures frame[5 + i] == LineTo(At(i as real * sw, SampleY(data[i], s.height)))
    {
      var cmd := path[i];
      assert i != 0 && SamplePoint(data, i, sw, s.height) == At(i as real * sw, SampleY(data[i], s.height));
      assert cmd == PathCommand(data, i, sw, s.height);
      assert cmd == LineTo(At(i as real * sw, SampleY(data[i], s.height)));
      assert frame[5 + i] == (h + path)[5 + i] == cmd;
    }
    if n > 0 {
      assert frame[5] == path[0];
    }
  }

  /** Rescheduling is the frame's last command and happens nowhere else in it. */
  lemma ReschedulesLast(f: FrameInput, s: Style)
    requires Ready(f)
    ensures var frame := WaveformFrame(f, s);
      forall i :: 0 <= i < |frame| - 1 ==> frame[i] != RequestAnimationFrame
  {
    var n, data := BufferLength(f), Samples(f);
    var sw := SliceWidth(s.width, n);
    var path := Path(data, sw, s.height, n);
    PathShape(data, sw, s.height, n);
    var frame := WaveformFrame(f, s);
    assert frame == Header(s) + path + Closing(s);
    forall i | 0 <= i < |frame| - 1
      ensures frame[i] != RequestAnimationFrame
    {
      if 5 <= i < 5 + n {
        assert frame[i] == path[i - 5];
      }
    }
  }

  /**
   * For a positive width, sample x positions start at 0, strictly increase by one
   * slice, and stay below the width.
   */
  lemma SampleXOrdered(data: seq<byte>, width: real, height: real, i: nat, j: nat)
    requires width > 0.0 && i < j < |data|
    ensures var sw := SliceWidth(width, |data|);
      && SamplePoint(data, 0, sw, height).x == 0.0
      && sw > 0.0
      && SamplePoint(data, i, sw, height).x < SamplePoint(data, j, sw, height).x
      && SamplePoint(data, j, sw, height).x < width
  {
    var n := |data|;
    var sw := SliceWidth(width, n);
    assert sw * n as real == width;
    assert (j as real - i as real) * sw > 0.0;
    assert (n as real - j as real) * sw > 0.0;
  }

  /** A byte of 128 is drawn on the midline; every y lies in [0, 255/128 * height / 2]. */
  lemma SampleYRange(v: byte, height: real)
    requires height >= 0.0
    ensures SampleY(128, height) == height / 2.0
    ensures 0.0 <= SampleY(v, height) <= (255.0 / 128.0) * height / 2.0
  {
    var r := v as real / 128.0;
    assert 0.0 <= r <= 255.0 / 128.0;
    assert r * height <= (255.0 / 128.0) * height;
    assert SampleY(v, height) == (r * height) / 2.0;
  }

  /**
   * `draw`: the analyser's time-domain bytes joined into one path, `x` advanced by
   * `sliceWidth` per sample. The result depends only on the frame input and the
   * style, so equal inputs give identical frames.
   */
  method Draw(f: FrameInput, s: Style) returns (cmds: seq<Command>)
    ensures cmds == WaveformFrame(f, s)
    ensures !Ready(f) ==> cmds == []
  {
    if !f.hasCanvas || f.state.analyser.None? || f.state.dataArray.None? {
      return [];
    }
    if !f.hasContext {
      return [];
    }
    var bufferLength := BufferLength(f);
    var dataArray := Samples(f);
    cmds := [SetFillStyle(Solid(s.backgroundColor)), FillRect(0.0, 0.0, s.width, s.height)];
    cmds := cmds + [SetLineWidth(s.barWidth), SetStrokeStyle(Solid(s.foregroundColor)), BeginPath];
    var sliceWidth := SliceWidth(s.width, bufferLength);
    var x := 0.0;
    for i := 0 to bufferLength
      invariant x == i as real * sliceWidth
      invariant cmds == Header(s) + Path(dataArray, sliceWidth, s.height, i)
    {
      var v := dataArray[i] as real / 128.0;
      var y := (v * s.height) / 2.0;
      PathStep(dataArray, sliceWidth, s.height, i, x, y);
      if i == 0 {
        cmds := cmds + [MoveTo(At(x, y))];
      } else {
        cmds := cmds + [LineTo(At(x, y))];
      }
      x := x + sliceWidth;
      assert x == (i + 1) as real * sliceWidth;
    }
    cmds := cmds + [LineTo(At(s.width, s.height / 2.0))];
    cmds := cmds + [Stroke];
    cmds := cmds + [RequestAnimationFrame];
  }
}
