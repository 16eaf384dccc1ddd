/**
 * What every visualizer's `draw` starts from: the canvas and its 2D context (either
 * may be missing), the hook's state, and the bytes the analyser writes into the
 * frame's fresh buffer (`getByteFrequencyData` or `getByteTimeDomainData`).
 */
module Frames {
  import opened Base
  import opened AudioHook

  datatype FrameInput = FrameInput(
    hasCanvas: bool,
    hasContext: bool,
    state: AudioState,
    /** The analyser's current reading, as the platform reports it. */
    reading: seq<byte>)

  /**
   * The early-return guards of `draw`: a canvas, an analyser and a dataArray, then a
   * 2D context. A frame that fails them paints nothing and schedules nothing.
   */
  predicate Ready(f: FrameInput)
  {
    f.hasCanvas && f.state.analyser.Some? && f.state.dataArray.Some? && f.hasContext
  }

  /** `bufferLength = analyser.frequencyBinCount`. */
  function BufferLength(f: FrameInput): nat
    requires f.state.analyser.Some?
  {
    FrequencyBinCountIsHalf(f.state.analyser.value);
    f.state.analyser.value.FrequencyBinCount()
  }

  /**
   * `new Uint8Array(n)` filled by the analyser: it copies as many values as fit and
   * the rest stay 0.
   */
  function Capture(reading: seq<byte>, n: nat): (data: seq<byte>)
    ensures |data| == n
    ensures forall i :: 0 <= i < n && i < |reading| ==> data[i] == reading[i]
    ensures forall i :: |reading| <= i < n ==> data[i] == 0
  {
    seq(n, i requires 0 <= i < n => if i < |reading| then reading[i] else 0 as byte)
  }

  /** The bytes one frame draws from. */
  function Samples(f: FrameInput): (data: seq<byte>)
    requires f.state.analyser.Some?
    ensures |data| == BufferLength(f)
  {
    Capture(f.reading, BufferLength(f))
  }
}
