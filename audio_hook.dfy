/**
 * The `useAudioContext` hook: it builds an audio graph (context, analyser, and a
 * microphone or decoded-file source), publishes it as one four-field state, and
 * tears it down in a fixed order. Web Audio objects are values; every call the hook
 * makes on them, and its state update, is recorded in order in a trace.
 */
module AudioHook {
  import opened Base

  /** The four analyser parameters the hook is given. */
  datatype AnalyserConfig = AnalyserConfig(fftSize: int, smoothingTimeConstant: real, minDecibels: real, maxDecibels: real)

  /** The hook's parameter defaults. */
  const DefaultConfig: AnalyserConfig := AnalyserConfig(2048, 0.8, -90.0, -10.0)

  /**
   * The decibel bounds a freshly created AnalyserNode starts with (section 1.8
   * "The AnalyserNode Interface" of the W3C Web Audio API).
   */
  const InitialMinDecibels: real := -100.0
  const InitialMaxDecibels: real := -30.0

  /** An AnalyserNode accepts as `fftSize` a power of two from 32 to 32768. */
  predicate FftSizeAllowed(n: int)
  {
    n in {32, 64, 128, 256, 512, 1024, 2048, 4096, 8192, 16384, 32768}
  }

  /**
   * Whether the four assignments of `createAnalyser`, in their order, all succeed:
   * each rejected value raises an IndexSizeError (W3C Web Audio API, section 1.8).
   * `minDecibels` is assigned while `maxDecibels` still has its initial value.
   */
  predicate Accepts(cfg: AnalyserConfig)
  {
    && FftSizeAllowed(cfg.fftSize)
    && 0.0 <= cfg.smoothingTimeConstant <= 1.0
    && cfg.minDecibels < InitialMaxDecibels
    && cfg.maxDecibels > cfg.minDecibels
  }

  /** An `AudioContext`; `serial` tells apart the contexts one hook creates. */
  datatype Context = Context(serial: nat)

  datatype AnalyserNode = AnalyserNode(context: Context, config: AnalyserConfig)
  {
    /** `frequencyBinCount` is half of `fftSize`. */
    function FrequencyBinCount(): int
    {
      config.fftSize / 2
    }
  }

  /** An analyser the platform has accepted the `fftSize` of. */
  type Analyser = a: AnalyserNode | FftSizeAllowed(a.config.fftSize)
    witness AnalyserNode(Context(0), DefaultConfig)

  datatype SourceKind = MediaStreamSource | BufferSource

  datatype Source = Source(context: Context, kind: SourceKind)

  /** The hook's state: `AudioContextState` of src/types/index.ts. */
  datatype AudioState = AudioState(
    audioContext: Option<Context>,
    analyser: Option<Analyser>,
    dataArray: Option<seq<byte>>,
    source: Option<Source>)

  const Unset: AudioState := AudioState(None, None, None, None)

  predicate AllSet(s: AudioState)
  {
    s.audioContext.Some? && s.analyser.Some? && s.dataArray.Some? && s.source.Some?
  }

  /** One end of an audio-graph connection. */
  datatype Endpoint =
    | SourceEnd(source: Source)
    | AnalyserEnd(analyser: Analyser)
    | DestinationEnd(context: Context)

  /** An effect of the hook, in the order it happens. */
  datatype AudioOp =
    | CreateContext(context: Context)
    | CreateAnalyser(analyser: Analyser)
    | GetUserMedia
    | CreateMediaStreamSource(source: Source)
    | Fetch(url: string)
    | ReadBody
    | DecodeAudioData
    | CreateBufferSource(source: Source)
    | Connect(from: Endpoint, to: Endpoint)
    | Start(source: Source, when: real)
    | Stop(source: Source)
    | Disconnect(node: Endpoint)
    | Close(context: Context)
    | SetAudioState(state: AudioState)

  /** What `fetch` gives: a rejection, or a response with its `ok` flag and status. */
  datatype FetchOutcome = NetworkError | Response(ok: bool, status: int)

  /**
   * The answers of the host: whether an `AudioContext` can be constructed, whether
   * `getUserMedia` resolves, what `fetch` returns, and whether `arrayBuffer()` and
   * `decodeAudioData` resolve.
   */
  datatype Platform = Platform(
    audioContextAvailable: bool,
    microphoneGranted: bool,
    fetch: FetchOutcome,
    bodyReadable: bool,
    decodable: bool)

  predicate FileReady(env: Platform)
  {
    env.fetch.Response? && env.fetch.ok && env.bodyReadable && env.decodable
  }

  datatype InputType = Microphone | AudioUrl

  /** `useMicrophone ? 'microphone' : 'audioUrl'`; an absent flag counts as false. */
  function InputTypeFor(useMicrophone: bool): (t: InputType)
    ensures t == Microphone <==> useMicrophone
  {
    if useMicrophone then Microphone else AudioUrl
  }

  /** The string `fetch(audioUrl!)` requests: `undefined` converts to "undefined". */
  function UrlText(audioUrl: Option<string>): string
  {
    if audioUrl.Some? then audioUrl.value else "undefined"
  }

  /** The state both handlers publish. */
  function Session(c: Context, a: Analyser, source: Source): AudioState
  {
    AudioState(Some(c), Some(a), Some(Zeros(a.FrequencyBinCount())), Some(source))
  }

  /** The trace of one initialisation, and the state it publishes if it gets that far. */
  datatype Activation = Activation(ops: seq<AudioOp>, published: Option<AudioState>)

  function MicrophoneSteps(c: Context, a: Analyser, env: Platform): Activation
  {
    if !env.microphoneGranted then Activation([GetUserMedia], None)
    else
      var source := Source(c, MediaStreamSource);
      var state := Session(c, a, source);
      Activation([GetUserMedia, CreateMediaStreamSource(source), Connect(SourceEnd(source), AnalyserEnd(a)),
                  SetAudioState(state)], Some(state))
  }

  function AudioUrlSteps(c: Context, a: Analyser, audioUrl: Option<string>, env: Platform): Activation
  {
    var fetch := [Fetch(UrlText(audioUrl))];
    if env.fetch.NetworkError? || !env.fetch.ok then Activation(fetch, None)
    else if !env.bodyReadable then Activation(fetch + [ReadBody], None)
    else if !env.decodable then Activation(fetch + [ReadBody, DecodeAudioData], None)
    else
      var source := Source(c, BufferSource);
      var state := Session(c, a, source);
      Activation(fetch + [ReadBody, DecodeAudioData, CreateBufferSource(source),
                          Connect(SourceEnd(source), AnalyserEnd(a)), Connect(AnalyserEnd(a), DestinationEnd(c)),
                          Start(source, 0.0), SetAudioState(state)], Some(state))
  }

  /**
   * `initializeAudioContext` as a function of the hook's arguments, the host's answers
   * and the serial of the context it would create. An exception anywhere ends the
   * trace at that point and publishes nothing.
   */
  function Activate(audioUrl: Option<string>, useMicrophone: bool, cfg: AnalyserConfig, env: Platform, serial: nat): Activation
  {
    if !env.audioContextAvailable then Activation([], None)
    else
      var c := Context(serial);
      if !Accepts(cfg) then Activation([CreateContext(c)], None)
      else
        var a: Analyser := AnalyserNode(c, cfg);
        var rest := match InputTypeFor(useMicrophone)
          case Microphone => MicrophoneSteps(c, a, env)
          case AudioUrl => AudioUrlSteps(c, a, audioUrl, env);
        Activation([CreateContext(c), CreateAnalyser(a)] + rest.ops, rest.published)
  }

  /**
   * `createAnalyser`: create the node and assign `fftSize`, `smoothingTimeConstant`,
   * `minDecibels` and `maxDecibels` in that order; `None` is the IndexSizeError the
   * first rejected assignment raises.
   */
  method CreateAnalyserNode(c: Context, cfg: AnalyserConfig) returns (r: Option<Analyser>)
    ensures r.Some? <==> Accepts(cfg)
    ensures r.Some? ==> r.value.context == c && r.value.config == cfg
  {
    var minDecibels, maxDecibels := InitialMinDecibels, InitialMaxDecibels;
    if !FftSizeAllowed(cfg.fftSize) {
      return None;
    }
    if cfg.smoothingTimeConstant < 0.0 || cfg.smoothingTimeConstant > 1.0 {
      return None;
    }
    if cfg.minDecibels >= maxDecibels {
      return None;
    }
    minDecibels := cfg.minDecibels;
    if cfg.maxDecibels <= minDecibels {
      return None;
    }
    maxDecibels := cfg.maxDecibels;
    r := Some(AnalyserNode(c, AnalyserConfig(cfg.fftSize, cfg.smoothingTimeConstant, minDecibels, maxDecibels)));
  }

  /** Cleanup rank: stop, disconnect the source, disconnect the analyser, close. */
  function Rank(op: AudioOp): nat
  {
    match op
    case Stop(_) => 0
    case Disconnect(SourceEnd(_)) => 1
    case Disconnect(_) => 2
    case _ => 3
  }

  /** Each of the four cleanup steps: one call, or none when its field is null. */
  function StopStep(s: AudioState): seq<AudioOp>
  {
    if s.source.Some? && s.source.value.kind == BufferSource then [Stop(s.source.value)] else []
  }

  function DisconnectSourceStep(s: AudioState): seq<AudioOp>
  {
    if s.source.Some? then [Disconnect(SourceEnd(s.source.value))] else []
  }

  function DisconnectAnalyserStep(s: AudioState): seq<AudioOp>
  {
    if s.analyser.Some? then [Disconnect(AnalyserEnd(s.analyser.value))] else []
  }

  function CloseStep(s: AudioState): seq<AudioOp>
  {
    if s.audioContext.Some? then [Close(s.audioContext.value)] else []
  }

  /**
   * The calls `cleanup` makes on a state: `stop()` only on a buffer source, then
   * `disconnect()` on the source and the analyser, then `close()` on the context,
   * each skipped when its field is null.
   */
  function CleanupOps(s: AudioState): (ops: seq<AudioOp>)
    ensures s == Unset ==> ops == []
    ensures forall op :: op in ops ==> op.Stop? || op.Disconnect? || op.Close?
  {
    StopStep(s) + DisconnectSourceStep(s) + DisconnectAnalyserStep(s) + CloseStep(s)
  }

  /** A trace whose ranks strictly increase. */
  predicate RankOrdered(ops: seq<AudioOp>)
  {
    forall i, j :: 0 <= i < j < |ops| ==> Rank(ops[i]) < Rank(ops[j])
  }

  lemma RankOrderedAppend(ops: seq<AudioOp>, step: seq<AudioOp>, r: nat)
    requires RankOrdered(ops) && (forall op :: op in ops ==> Rank(op) < r)
    requires |step| <= 1 && (forall op :: op in step ==> Rank(op) == r)
    ensures RankOrdered(ops + step)
  {
    var all := ops + step;
    forall i, j | 0 <= i < j < |all|
      ensures Rank(all[i]) < Rank(all[j])
    {
      if j >= |ops| {
        assert all[j] in step && all[i] in ops;
      }
    }
  }

  /** The cleanup calls come in rank order: stop, disconnect source, disconnect analyser, close. */
  lemma CleanupOrder(s: AudioState)
    ensures RankOrdered(CleanupOps(s))
  {
    var a, b, c, d := StopStep(s), DisconnectSourceStep(s), DisconnectAnalyserStep(s), CloseStep(s);
    assert CleanupOps(s) == a + b + c + d;
    RankOrderedAppend([], a, 0);
    assert [] + a == a;
    RankOrderedAppend(a, b, 1);
    assert forall op :: op in a + b ==> Rank(op) < 2;
    RankOrderedAppend(a + b, c, 2);
    assert forall op :: op in a + b + c ==> Rank(op) < 3;
    RankOrderedAppend(a + b + c, d, 3);
  }

  /** Each cleanup call is made exactly when its field is set. */
  lemma CleanupCalls(s: AudioState)
    ensures var ops := CleanupOps(s);
      && (forall x :: Stop(x) in ops <==> s.source == Some(x) && x.kind == BufferSource)
      && (forall x :: Disconnect(SourceEnd(x)) in ops <==> s.source == Some(x))
      && (forall x :: Disconnect(AnalyserEnd(x)) in ops <==> s.analyser == Some(x))
      && (forall x :: Close(x) in ops <==> s.audioContext == Some(x))
  {
    assert CleanupOps(s) == StopStep(s) + DisconnectSourceStep(s) + DisconnectAnalyserStep(s) + CloseStep(s);
  }

  /** Half of an accepted `fftSize` is exact, and at least 16. */
  lemma FrequencyBinCountIsHalf(a: Analyser)
    ensures 2 * a.FrequencyBinCount() == a.config.fftSize
    ensures a.FrequencyBinCount() >= 16
  {
  }

  /** The hook's defaults are accepted and give 1024 frequency bins. */
  lemma DefaultConfigAccepted()
    ensures Accepts(DefaultConfig)
    ensures AnalyserNode(Context(0), DefaultConfig).FrequencyBinCount() == 1024
  {
  }

  /**
   * Because `minDecibels` is assigned before `maxDecibels`, a range lying wholly above
   * the initial ceiling of -30 dB is refused although its floor is below its ceiling.
   */
  lemma HighDecibelRangeRefused()
    ensures var cfg := AnalyserConfig(2048, 0.8, -20.0, 0.0);
      cfg.minDecibels < cfg.maxDecibels && !Accepts(cfg)
  {
  }

  /** A state is published exactly when every step the selected handler takes succeeds. */
  lemma PublishedIff(audioUrl: Option<string>, useMicrophone: bool, cfg: AnalyserConfig, env: Platform, serial: nat)
    ensures Activate(audioUrl, useMicrophone, cfg, env, serial).published.Some?
        <==> env.audioContextAvailable && Accepts(cfg)
             && (if useMicrophone then env.microphoneGranted else FileReady(env))
  {
  }

  /**
   * A published state has all four fields set, on the new context: the analyser with
   * exactly the requested configuration, a zeroed `dataArray` of `frequencyBinCount`
   * bytes, and a source of the kind the handler selects.
   */
  lemma PublishedSessionComplete(audioUrl: Option<string>, useMicrophone: bool, cfg: AnalyserConfig, env: Platform, serial: nat)
    ensures var act := Activate(audioUrl, useMicrophone, cfg, env, serial);
      act.published.Some? ==>
        var st := act.published.value;
        && AllSet(st)
        && st.audioContext == Some(Context(serial))
        && st.analyser.value == AnalyserNode(Context(serial), cfg)
        && |st.dataArray.value| == st.analyser.value.FrequencyBinCount() == cfg.fftSize / 2
        && (forall i :: 0 <= i < |st.dataArray.value| ==> st.dataArray.value[i] == 0)
        && st.source.value == Source(Context(serial), if useMicrophone then MediaStreamSource else BufferSource)
  {
  }

  /**
   * The state is set once, as the last step and after the source has been connected
   * to the analyser; a failed initialisation never sets it.
   */
  lemma PublishIsLastStep(audioUrl: Option<string>, useMicrophone: bool, cfg: AnalyserConfig, env: Platform, serial: nat)
    ensures var act := Activate(audioUrl, useMicrophone, cfg, env, serial);
      var ops := act.ops;
      && (act.published.None? ==> forall op :: op in ops ==> !op.SetAudioState?)
      && (act.published.Some? ==>
            var st := act.published.value;
            && |ops| >= 2
            && ops[|ops| - 1] == SetAudioState(st)
            && (forall i :: 0 <= i < |ops| - 1 ==> !ops[i].SetAudioState?)
            && Connect(SourceEnd(st.source.value), AnalyserEnd(st.analyser.value)) in ops[..|ops| - 1])
  {
    var act := Activate(audioUrl, useMicrophone, cfg, env, serial);
    if act.published.Some? {
      var ops := act.ops;
      var st := act.published.value;
      var src, a := st.source.value, st.analyser.value;
      if useMicrophone {
        assert ops == [CreateContext(Context(serial)), CreateAnalyser(a), GetUserMedia,
                       CreateMediaStreamSource(src), Connect(SourceEnd(src), AnalyserEnd(a)), SetAudioState(st)];
      } else {
        assert ops == [CreateContext(Context(serial)), CreateAnalyser(a), Fetch(UrlText(audioUrl)), ReadBody,
                       DecodeAudioData, CreateBufferSource(src), Connect(SourceEnd(src), AnalyserEnd(a)),
                       Connect(AnalyserEnd(a), DestinationEnd(Context(serial))), Start(src, 0.0), SetAudioState(st)];
      }
      assert ops[..|ops| - 1][|ops| - 2 - (if useMicrophone then 0 else 2)] == Connect(SourceEnd(src), AnalyserEnd(a));
    }
  }

  /**
   * The microphone is never connected to the output. A file source is connected to
   * the analyser, the analyser to the output, and only then is `start(0)` called,
   * just before the state is set.
   */
  lemma OutputRouting(audioUrl: Option<string>, useMicrophone: bool, cfg: AnalyserConfig, env: Platform, serial: nat)
    ensures var act := Activate(audioUrl, useMicrophone, cfg, env, serial);
      var ops := act.ops;
      && (useMicrophone ==> forall op :: op in ops ==> !(op.Connect? && op.to.DestinationEnd?))
      && (useMicrophone ==> forall op :: op in ops ==> !op.Start?)
      && (!useMicrophone && act.published.Some? ==>
            var st := act.published.value;
            var src, a, c := st.source.value, st.analyser.value, st.audioContext.value;
            && |ops| >= 4
            && ops[|ops| - 4..] == [Connect(SourceEnd(src), AnalyserEnd(a)), Connect(AnalyserEnd(a), DestinationEnd(c)),
                                   Start(src, 0.0), SetAudioState(st)]
            && (forall i :: 0 <= i < |ops| - 2 ==> !ops[i].Start?))
  {
    var act := Activate(audioUrl, useMicrophone, cfg, env, serial);
    if !useMicrophone && act.published.Some? {
      var st := act.published.value;
      var src, a, c := st.source.value, st.analyser.value, st.audioContext.value;
      assert act.ops == [CreateContext(c), CreateAnalyser(a), Fetch(UrlText(audioUrl)), ReadBody,
                         DecodeAudioData, CreateBufferSource(src), Connect(SourceEnd(src), AnalyserEnd(a)),
                         Connect(AnalyserEnd(a), DestinationEnd(c)), Start(src, 0.0), SetAudioState(st)];
    }
  }

  /**
   * A response that is not ok ends the file handler right after `fetch`: nothing is
   * decoded, no source is created and no state is published.
   */
  lemma HttpErrorStopsBeforeDecode(audioUrl: Option<string>, cfg: AnalyserConfig, env: Platform, serial: nat)
    requires env.fetch.Response? && !env.fetch.ok
    ensures var act := Activate(audioUrl, false, cfg, env, serial);
      && act.published.None?
      && DecodeAudioData !in act.ops
      && (forall op :: op in act.ops ==> !op.CreateBufferSource? && !op.Connect?)
      && (env.audioContextAvailable && Accepts(cfg) ==> act.ops[|act.ops| - 1] == Fetch(UrlText(audioUrl)))
  {
  }

  /** A failed initialisation that got as far as creating a context never closes it. */
  lemma FailureLeavesContextOpen(audioUrl: Option<string>, useMicrophone: bool, cfg: AnalyserConfig, env: Platform, serial: nat)
    ensures var act := Activate(audioUrl, useMicrophone, cfg, env, serial);
      env.audioContextAvailable && act.published.None? ==>
        CreateContext(Context(serial)) in act.ops && forall op :: op in act.ops ==> !op.Close?
  {
  }

  /**
   * Cleaning up a published state undoes the whole graph: a file session is stopped,
   * both nodes are disconnected and the context is closed.
   */
  lemma CleanupOfPublishedSession(audioUrl: Option<string>, useMicrophone: bool, cfg: AnalyserConfig, env: Platform, serial: nat)
    ensures var act := Activate(audioUrl, useMicrophone, cfg, env, serial);
      act.published.Some? ==>
        var st := act.published.value;
        var src, a, c := st.source.value, st.analyser.value, st.audioContext.value;
        CleanupOps(st) == (if useMicrophone then [] else [Stop(src)])
                          + [Disconnect(SourceEnd(src)), Disconnect(AnalyserEnd(a)), Close(c)]
  {
  }

  /** One instance of the hook, with the arguments of the render it was called in. */
  class AudioContextHook {
    const audioUrl: Option<string>
    const useMicrophone: bool
    const config: AnalyserConfig
    /** The state returned to the visualizer. */
    var audioState: AudioState
    /** Every effect on the audio graph so far, in order. */
    var trace: seq<AudioOp>
    /** Number of contexts created, used as the next context's serial. */
    var contextsCreated: nat

    /** `useState` starts from all four fields null. */
    constructor (audioUrl: Option<string>, useMicrophone: bool, config: AnalyserConfig)
      ensures this.audioUrl == audioUrl && this.useMicrophone == useMicrophone && this.config == config
      ensures audioState == Unset && trace == [] && contextsCreated == 0
    {
      this.audioUrl := audioUrl;
      this.useMicrophone := useMicrophone;
      this.config := config;
      audioState := Unset;
      trace := [];
      contextsCreated := 0;
    }

    method HandleMicrophoneInput(c: Context, a: Analyser, env: Platform)
      modifies this`trace, this`audioState
      ensures var act := MicrophoneSteps(c, a, env);
        trace == old(trace) + act.ops
        && audioState == (if act.published.Some? then act.published.value else old(audioState))
    {
      trace := trace + [GetUserMedia];
      if !env.microphoneGranted {
        return;  // getUserMedia rejected
      }
      var source := Source(c, MediaStreamSource);
      trace := trace + [CreateMediaStreamSource(source)];
      trace := trace + [Connect(SourceEnd(source), AnalyserEnd(a))];
      var state := Session(c, a, source);
      trace := trace + [SetAudioState(state)];
      audioState := state;
    }

    method HandleAudioUrlInput(c: Context, a: Analyser, env: Platform)
      modifies this`trace, this`audioState
      ensures var act := AudioUrlSteps(c, a, audioUrl, env);
        trace == old(trace) + act.ops
        && audioState == (if act.published.Some? then act.published.value else old(audioState))
    {
      trace := trace + [Fetch(UrlText(audioUrl))];
      if env.fetch.NetworkError? {
        return;  // fetch rejected
      }
      if !env.fetch.ok {
        return;  // "HTTP error! status: ..."
      }
      trace := trace + [ReadBody];
      if !env.bodyReadable {
        return;
      }
      trace := trace + [DecodeAudioData];
      if !env.decodable {
        return;
      }
      var source := Source(c, BufferSource);
      trace := trace + [CreateBufferSource(source)];
      trace := trace + [Connect(SourceEnd(source), AnalyserEnd(a))];
      trace := trace + [Connect(AnalyserEnd(a), DestinationEnd(c))];
      trace := trace + [Start(source, 0.0)];
      var state := Session(c, a, source);
      trace := trace + [SetAudioState(state)];
      audioState := state;
    }

    /** `initializeAudioContext`: every exception is caught and leaves the state as it was. */
    method InitializeAudioContext(env: Platform)
      modifies this
      ensures var act := Activate(audioUrl, useMicrophone, config, env, old(contextsCreated));
        trace == old(trace) + act.ops
        && audioState == (if act.published.Some? then act.published.value else old(audioState))
      ensures contextsCreated == old(contextsCreated) + (if env.audioContextAvailable then 1 else 0)
    {
      if !env.audioContextAvailable {
        return;  // the AudioContext constructor threw
      }
      var c := Context(contextsCreated);
      contextsCreated := contextsCreated + 1;
      trace := trace + [CreateContext(c)];
      var analyser := CreateAnalyserNode(c, config);
      if analyser.None? {
        return;
      }
      trace := trace + [CreateAnalyser(analyser.value)];
      match InputTypeFor(useMicrophone)
      case Microphone =>
        HandleMicrophoneInput(c, analyser.value, env);
      case AudioUrl =>
        HandleAudioUrlInput(c, analyser.value, env);
    }

    /**
     * `cleanup` over `captured`, the state of the render its callback was created in.
     * The teardown the effect registers holds the callback of the render in which the
     * effect ran, so `captured` may be older than `audioState`; which render that is
     * depends on React's timing and is the caller's choice here. No state is reset.
     */
    method Cleanup(captured: AudioState)
      modifies this`trace
      ensures trace == old(trace) + CleanupOps(captured)
    {
      var s := captured;
      if s.source.Some? && s.source.value.kind == BufferSource {
        trace := trace + [Stop(s.source.value)];
      }
      assert trace == old(trace) + StopStep(s);
      if s.source.Some? {
        trace := trace + [Disconnect(SourceEnd(s.source.value))];
      }
      assert trace == old(trace) + StopStep(s) + DisconnectSourceStep(s);
      if s.analyser.Some? {
        trace := trace + [Disconnect(AnalyserEnd(s.analyser.value))];
      }
      assert trace == old(trace) + StopStep(s) + DisconnectSourceStep(s) + DisconnectAnalyserStep(s);
      if s.audioContext.Some? {
        trace := trace + [Close(s.audioContext.value)];
      }
      assert trace == old(trace) + StopStep(s) + DisconnectSourceStep(s) + DisconnectAnalyserStep(s) + CloseStep(s);
    }
  }
}
