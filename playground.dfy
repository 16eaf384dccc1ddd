/**
 * The demo page's state (playground/Playground.tsx): a reducer whose every action
 * replaces one field, the guard on the file input, and the props handed to whichever
 * visualizer is selected.
 */
module Playground {
  import opened Base
  import opened AudioHook
  import Gradient
  import Canvas

  datatype VisualizerType = Waveform | Frequency | Circular

  /** A chosen `File`: its name and its MIME type (`file.type`). */
  datatype AudioFile = AudioFile(name: string, mimeType: string)

  datatype State = State(
    visualizerType: VisualizerType,
    useMicrophone: bool,
    audioFile: Option<AudioFile>,
    backgroundColor: string,
    foregroundColor: string,
    barWidth: real,
    barSpacing: real,
    barRadius: real,
    smoothingTimeConstant: real,
    animationSpeed: real)

  const InitialState: State :=
    State(Waveform, false, None, "#1a1a2e", "#4CAF50", 3.0, 1.0, 4.0, 0.8, 1.0)

  /** The `type` strings the reducer's ten cases match. */
  const SetActionTypes: set<string> := {
    "SET_VISUALIZER_TYPE", "SET_USE_MICROPHONE", "SET_AUDIO_FILE", "SET_BACKGROUND_COLOR",
    "SET_FOREGROUND_COLOR", "SET_BAR_WIDTH", "SET_BAR_SPACING", "SET_BAR_RADIUS",
    "SET_SMOOTHING_TIME_CONSTANT", "SET_ANIMATION_SPEED"}

  /** Every other `type` string: the ones the reducer's `default` branch receives. */
  type OtherActionType = t: string | t !in SetActionTypes witness ""

  /**
   * The ten `SET_*` actions, each with its payload at the field's type, and an action
   * of any other type.
   */
  datatype Action =
    | SetVisualizerType(visualizerType: VisualizerType)
    | SetUseMicrophone(useMicrophone: bool)
    | SetAudioFile(audioFile: Option<AudioFile>)
    | SetBackgroundColor(backgroundColor: string)
    | SetForegroundColor(foregroundColor: string)
    | SetBarWidth(barWidth: real)
    | SetBarSpacing(barSpacing: real)
    | SetBarRadius(barRadius: real)
    | SetSmoothingTimeConstant(smoothingTimeConstant: real)
    | SetAnimationSpeed(animationSpeed: real)
    | Unrecognised(actionType: OtherActionType)

  /** The `action.type` string of each action. */
  function ActionType(a: Action): string
  {
    match a
    case SetVisualizerType(_) => "SET_VISUALIZER_TYPE"
    case SetUseMicrophone(_) => "SET_USE_MICROPHONE"
    case SetAudioFile(_) => "SET_AUDIO_FILE"
    case SetBackgroundColor(_) => "SET_BACKGROUND_COLOR"
    case SetForegroundColor(_) => "SET_FOREGROUND_COLOR"
    case SetBarWidth(_) => "SET_BAR_WIDTH"
    case SetBarSpacing(_) => "SET_BAR_SPACING"
    case SetBarRadius(_) => "SET_BAR_RADIUS"
    case SetSmoothingTimeConstant(_) => "SET_SMOOTHING_TIME_CONSTANT"
    case SetAnimationSpeed(_) => "SET_ANIMATION_SPEED"
    case Unrecognised(t) => t
  }

  /** The fields of the state, and a field's value, so that "every other field" can be said once. */
  datatype Field =
    | VisualizerTypeField | UseMicrophoneField | AudioFileField | BackgroundColorField
    | ForegroundColorField | BarWidthField | BarSpacingField | BarRadiusField
    | SmoothingTimeConstantField | AnimationSpeedField

  datatype Value =
    | TypeValue(t: VisualizerType)
    | FlagValue(b: bool)
    | FileValue(file: Option<AudioFile>)
    | TextValue(text: string)
    | NumberValue(n: real)

  function Get(s: State, f: Field): Value
  {
    match f
    case VisualizerTypeField => TypeValue(s.visualizerType)
    case UseMicrophoneField => FlagValue(s.useMicrophone)
    case AudioFileField => FileValue(s.audioFile)
    case BackgroundColorField => TextValue(s.backgroundColor)
    case ForegroundColorField => TextValue(s.foregroundColor)
    case BarWidthField => NumberValue(s.barWidth)
    case BarSpacingField => NumberValue(s.barSpacing)
    case BarRadiusField => NumberValue(s.barRadius)
    case SmoothingTimeConstantField => NumberValue(s.smoothingTimeConstant)
    case AnimationSpeedField => NumberValue(s.animationSpeed)
  }

  /** The field an action names, if any. */
  function Target(a: Action): Option<Field>
  {
    match a
    case SetVisualizerType(_) => Some(VisualizerTypeField)
    case SetUseMicrophone(_) => Some(UseMicrophoneField)
    case SetAudioFile(_) => Some(AudioFileField)
    case SetBackgroundColor(_) => Some(BackgroundColorField)
    case SetForegroundColor(_) => Some(ForegroundColorField)
    case SetBarWidth(_) => Some(BarWidthField)
    case SetBarSpacing(_) => Some(BarSpacingField)
    case SetBarRadius(_) => Some(BarRadiusField)
    case SetSmoothingTimeConstant(_) => Some(SmoothingTimeConstantField)
    case SetAnimationSpeed(_) => Some(AnimationSpeedField)
    case Unrecognised(_) => None
  }

  /** The payload an action carries, as a field value. */
  function Payload(a: Action): Value
    requires Target(a).Some?
  {
    match a
    case SetVisualizerType(t) => TypeValue(t)
    case SetUseMicrophone(b) => FlagValue(b)
    case SetAudioFile(file) => FileValue(file)
    case SetBackgroundColor(c) => TextValue(c)
    case SetForegroundColor(c) => TextValue(c)
    case SetBarWidth(n) => NumberValue(n)
    case SetBarSpacing(n) => NumberValue(n)
    case SetBarRadius(n) => NumberValue(n)
    case SetSmoothingTimeConstant(n) => NumberValue(n)
    case SetAnimationSpeed(n) => NumberValue(n)
  }

  /** Two states that agree on every field are the same state. */
  lemma FieldsDetermineState(s: State, t: State)
    requires forall f :: Get(s, f) == Get(t, f)
    ensures s == t
  {
    assert Get(s, VisualizerTypeField) == Get(t, VisualizerTypeField);
    assert Get(s, UseMicrophoneField) == Get(t, UseMicrophoneField);
    assert Get(s, AudioFileField) == Get(t, AudioFileField);
    assert Get(s, BackgroundColorField) == Get(t, BackgroundColorField);
    assert Get(s, ForegroundColorField) == Get(t, ForegroundColorField);
    assert Get(s, BarWidthField) == Get(t, BarWidthField);
    assert Get(s, BarSpacingField) == Get(t, BarSpacingField);
    assert Get(s, BarRadiusField) == Get(t, BarRadiusField);
    assert Get(s, SmoothingTimeConstantField) == Get(t, SmoothingTimeConstantField);
    assert Get(s, AnimationSpeedField) == Get(t, AnimationSpeedField);
  }

  /**
   * `reducer`: a `SET_*` action yields a copy whose named field is the payload and
   * whose other fields are the input's; any other action yields the input.
   */
  function Reducer(s: State, a: Action): (r: State)
    ensures Target(a).None? ==> r == s
    ensures Target(a).Some? ==>
      && Get(r, Target(a).value) == Payload(a)
      && forall f :: f != Target(a).value ==> Get(r, f) == Get(s, f)
  {
    match a
    case SetVisualizerType(t) => s.(visualizerType := t)
    case SetUseMicrophone(b) => s.(useMicrophone := b)
    case SetAudioFile(file) => s.(audioFile := file)
    case SetBackgroundColor(c) => s.(backgroundColor := c)
    case SetForegroundColor(c) => s.(foregroundColor := c)
    case SetBarWidth(n) => s.(barWidth := n)
    case SetBarSpacing(n) => s.(barSpacing := n)
    case SetBarRadius(n) => s.(barRadius := n)
    case SetSmoothingTimeConstant(n) => s.(smoothingTimeConstant := n)
    case SetAnimationSpeed(n) => s.(animationSpeed := n)
    case Unrecognised(_) => s
  }

  /** Dispatching the same action twice is dispatching it once. */
  lemma ReducerIdempotent(s: State, a: Action)
    ensures Reducer(Reducer(s, a), a) == Reducer(s, a)
  {
    var r := Reducer(s, a);
    var rr := Reducer(r, a);
    if Target(a).Some? {
      forall f ensures Get(rr, f) == Get(r, f) {
        if f == Target(a).value {
          assert Get(rr, f) == Payload(a) == Get(r, f);
        }
      }
      FieldsDetermineState(rr, r);
    }
  }

  /** Actions on different fields commute: the order of two such dispatches does not matter. */
  lemma ReducerCommutes(s: State, a: Action, b: Action)
    requires Target(a).Some? && Target(b).Some? && Target(a) != Target(b)
    ensures Reducer(Reducer(s, a), b) == Reducer(Reducer(s, b), a)
  {
    var ab := Reducer(Reducer(s, a), b);
    var ba := Reducer(Reducer(s, b), a);
    forall f ensures Get(ab, f) == Get(ba, f) {
      if f == Target(a).value {
        assert Get(ab, f) == Payload(a) == Get(ba, f);
      } else if f == Target(b).value {
        assert Get(ab, f) == Payload(b) == Get(ba, f);
      }
    }
    FieldsDetermineState(ab, ba);
  }

  /** The last action on a field wins, whatever the field held before. */
  lemma LastWriteWins(s: State, t: State, a: Action)
    requires Target(a).Some?
    requires forall f :: f != Target(a).value ==> Get(s, f) == Get(t, f)
    ensures Reducer(s, a) == Reducer(t, a)
  {
    var rs, rt := Reducer(s, a), Reducer(t, a);
    forall f ensures Get(rs, f) == Get(rt, f) {
      if f == Target(a).value {
        assert Get(rs, f) == Payload(a) == Get(rt, f);
      }
    }
    FieldsDetermineState(rs, rt);
  }

  /**
   * The reducer tells actions apart by their `type` strings: a `SET_*` action's type is
   * one of the ten, an unrecognised action's type is none of them, and actions on
   * different fields (or one on a field and one on none) never share a type.
   */
  lemma ActionTypesDistinct(a: Action, b: Action)
    requires Target(a) != Target(b)
    ensures Target(a).Some? <==> ActionType(a) in SetActionTypes
    ensures ActionType(a) != ActionType(b)
  {
  }

  /** The page opens on the waveform with the microphone off, no file, and the documented settings. */
  lemma InitialStateDefaults()
    ensures Get(InitialState, VisualizerTypeField) == TypeValue(Waveform)
    ensures Get(InitialState, UseMicrophoneField) == FlagValue(false)
    ensures Get(InitialState, AudioFileField) == FileValue(None)
    ensures Get(InitialState, BackgroundColorField) == TextValue("#1a1a2e")
    ensures Get(InitialState, ForegroundColorField) == TextValue("#4CAF50")
    ensures Get(InitialState, BarWidthField) == NumberValue(3.0)
    ensures Get(InitialState, BarSpacingField) == NumberValue(1.0)
    ensures Get(InitialState, BarRadiusField) == NumberValue(4.0)
    ensures Get(InitialState, SmoothingTimeConstantField) == NumberValue(0.8)
    ensures Get(InitialState, AnimationSpeedField) == NumberValue(1.0)
  {
  }

  /** `handleFileChange`'s guard: the first chosen file, if its MIME type starts with "audio/". */
  predicate IsAudioFile(files: seq<AudioFile>)
  {
    |files| > 0 && StartsWith(files[0].mimeType, "audio/")
  }

  /** The action `handleFileChange` dispatches, if any. */
  function FileAction(files: seq<AudioFile>): Option<Action>
  {
    if IsAudioFile(files) then Some(SetAudioFile(Some(files[0]))) else None
  }

  /** The state after a change of the file input. */
  function HandleFileChange(s: State, files: seq<AudioFile>): State
  {
    match FileAction(files)
    case None => s
    case Some(a) => Reducer(s, a)
  }

  /**
   * An audio file replaces the chosen file and nothing else; no file, or a file of
   * another type, leaves the state untouched. A file can never be cleared this way.
   */
  lemma FileChangeGuard(s: State, files: seq<AudioFile>)
    ensures var r := HandleFileChange(s, files);
      && (IsAudioFile(files) ==>
            r.audioFile == Some(files[0]) && forall f :: f != AudioFileField ==> Get(r, f) == Get(s, f))
      && (!IsAudioFile(files) ==> r == s)
      && (s.audioFile.Some? ==> r.audioFile.Some?)
  {
    if IsAudioFile(files) {
      assert Target(SetAudioFile(Some(files[0]))) == Some(AudioFileField);
    }
  }

  /** Only the type's prefix matters: "audio/mpeg" passes, "video/mp4" and "audio" do not. */
  lemma FileTypeExamples(name: string)
    ensures IsAudioFile([AudioFile(name, "audio/mpeg")])
    ensures !IsAudioFile([AudioFile(name, "video/mp4")])
    ensures !IsAudioFile([AudioFile(name, "audio")])
    ensures !IsAudioFile([])
  {
    assert "audio/mpeg"[..6] == "audio/";
    assert "video/mp4"[0] != "audio/"[0];
  }

  /** `audioUrl`: the object URL of the chosen file, or "" when there is none. */
  function AudioUrlFor(s: State, objectUrl: string): (url: string)
    ensures s.audioFile.None? ==> url == ""
    ensures s.audioFile.Some? ==> url == objectUrl
  {
    if s.audioFile.Some? then objectUrl else ""
  }

  /** `commonProps`, as every visualizer receives them. */
  datatype Props = Props(
    width: real,
    height: real,
    useMicrophone: bool,
    audioUrl: Option<string>,
    backgroundColor: string,
    foregroundColor: string,
    gradientColors: seq<string>,
    barWidth: real,
    barSpacing: real,
    barRadius: real,
    smoothingTimeConstant: real,
    animationSpeed: real,
    visualizerType: VisualizerType)

  function CommonProps(s: State, audioUrl: string): Props
  {
    Props(800.0, 400.0, s.useMicrophone, if s.useMicrophone then None else Some(audioUrl),
          s.backgroundColor, s.foregroundColor, ["#00bcd4", s.foregroundColor, "#8BC34A"],
          s.barWidth, s.barSpacing, s.barRadius, s.smoothingTimeConstant, s.animationSpeed,
          s.visualizerType)
  }

  /**
   * The URL is withheld exactly while the microphone is on; otherwise it is the file's
   * object URL or "". The gradient has three colours with the foreground in the middle.
   */
  lemma PropsDerivation(s: State, objectUrl: string)
    ensures var p := CommonProps(s, AudioUrlFor(s, objectUrl));
      && (p.audioUrl.None? <==> s.useMicrophone)
      && (!s.useMicrophone && s.audioFile.None? ==> p.audioUrl == Some(""))
      && (!s.useMicrophone && s.audioFile.Some? ==> p.audioUrl == Some(objectUrl))
      && |p.gradientColors| == 3 && p.gradientColors[1] == s.foregroundColor
      && p.useMicrophone == s.useMicrophone && p.smoothingTimeConstant == s.smoothingTimeConstant
  {
  }

  /** The analyser settings a visualizer passes the hook: its defaults, with the page's smoothing. */
  function HookConfig(p: Props): AnalyserConfig
  {
    DefaultConfig.(smoothingTimeConstant := p.smoothingTimeConstant)
  }

  /** The page's analyser settings are accepted exactly when the smoothing constant lies in [0, 1]. */
  lemma PageConfigAccepted(s: State, audioUrl: string)
    ensures Accepts(HookConfig(CommonProps(s, audioUrl))) <==> 0.0 <= s.smoothingTimeConstant <= 1.0
  {
  }

  /** With the microphone on, the hook never fetches anything, whatever file was chosen before. */
  lemma MicrophoneNeverFetches(s: State, audioUrl: string, env: Platform, serial: nat)
    requires s.useMicrophone
    ensures var p := CommonProps(s, audioUrl);
      forall op :: op in Activate(p.audioUrl, p.useMicrophone, HookConfig(p), env, serial).ops ==> !op.Fetch?
  {
  }

  /**
   * With the microphone off and no file chosen, the hook still runs its file path and
   * requests "", the empty URL.
   */
  lemma NoFileFetchesEmptyUrl(s: State, objectUrl: string, env: Platform, serial: nat)
    requires !s.useMicrophone && s.audioFile.None?
    requires env.audioContextAvailable && 0.0 <= s.smoothingTimeConstant <= 1.0
    ensures var p := CommonProps(s, AudioUrlFor(s, objectUrl));
      Fetch("") in Activate(p.audioUrl, p.useMicrophone, HookConfig(p), env, serial).ops
  {
    var p := CommonProps(s, AudioUrlFor(s, objectUrl));
    var ops := Activate(p.audioUrl, p.useMicrophone, HookConfig(p), env, serial).ops;
    assert ops[2] == Fetch("");
  }

  /** The page's three gradient colours are stopped at 0, 0.5 and 1, in order. */
  lemma PageGradientStops(s: State, audioUrl: string)
    ensures var stops := Gradient.EvenStops(CommonProps(s, audioUrl).gradientColors);
      stops == [Canvas.Stop(0.0, "#00bcd4"), Canvas.Stop(0.5, s.foregroundColor), Canvas.Stop(1.0, "#8BC34A")]
  {
    var stops := Gradient.EvenStops(CommonProps(s, audioUrl).gradientColors);
    assert stops[1].offset == 1.0 / 2.0;
  }
}
