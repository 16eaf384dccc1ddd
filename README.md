# react-audio-visualizer, modelled in Dafny

A model of the React components that make up react-audio-visualizer. The library draws an
audio signal in three ways: a waveform, a frequency spectrum, and a rotating circular
spectrum. The signal comes from the microphone or from a decoded audio file. The model
covers the following parts.

- **Gradient stops** (`Gradient`, from `createGradient` in `src/utils/index.ts` and its
  inlined copies in the frequency and circular visualizers).
  - Fewer than two colours give a flat colour.
  - Two or more give evenly spaced stops from 0 to 1.
  - A linear gradient runs from the bottom edge to the top edge.
  - A radial gradient is centred on the surface.
- **The three `draw` functions** (`FrequencyVisualizer`, `WaveformVisualizer`,
  `CircularVisualizer`).
  - The canvas is a log of abstract drawing commands (`Canvas.Command`).
  - Each `draw` is a method that builds that log in the same loop as the source.
  - Each method is proved equal to a frame function: `FrequencyFrame`, `WaveformFrame`
    or `CircularFrame`.
  - The layout and ordering facts are lemmas about those functions: bar count and
    centring, bar anchoring, sample positions, the closing point, ray angles and
    lengths, and the rotation phase.
  - The circular visualizer keeps its rotation across frames, so it is a class with a
    `rotation` field.
  - `Frames` holds the early-return guard and the sample buffer that all three share.
- **The audio session hook** (`AudioHook`, from `src/hooks/useAudioContext.ts`).
  - Audio-graph objects are values: a context, an analyser with its settings, and a
    source.
  - Every effect on the audio graph is an entry in a trace (`AudioOp`).
  - The host's answers are parameters (`Platform`): whether a context can be created,
    microphone permission, the fetch outcome, whether the body can be read, and whether
    it decodes.
  - The class `AudioContextHook` runs `createAnalyser`, the two input handlers,
    `initializeAudioContext` and `cleanup` step by step.
  - The pure functions `Activate` and `CleanupOps` state what those methods produce. The
    lemmas about them state what gets published, when, and in which order the graph is
    built and torn down.
- **The demo page** (`Playground`, from `playground/Playground.tsx`).
  - The reducer: each `SET_*` action replaces one field and any other action changes
    nothing.
  - The initial state.
  - The guard on the file input.
  - The props handed to the visualizers.
  - Lemmas that follow the page's props into the hook and into the gradient.

The analyser follows the AnalyserNode rules of the W3C Web Audio API (section 1.8).
- `fftSize` must be a power of two from 32 to 32768.
- `smoothingTimeConstant` must lie in [0, 1].
- `minDecibels` must be below the current `maxDecibels`, and `maxDecibels` above the
  current `minDecibels`. The limits start at -100 and -30.
- A rejected assignment throws an IndexSizeError.
- `frequencyBinCount` is half of `fftSize`.

The source assigns `minDecibels` before `maxDecibels`. So a range that lies wholly above
-30, such as (-20, 0), is refused even though it is well ordered
(`AudioHook.HighDecibelRangeRefused`).

JavaScript numbers are modelled as `real`, and `Math.floor` as `.Floor`. `Math.PI` is the
constant 3.141592653589793. The model also states, as the code does:
- A failed initialisation never closes the context it created
  (`AudioHook.FailureLeavesContextOpen`).
- `cleanup` does not reset the published state.
- With the microphone off and no file chosen, the hook requests the empty URL
  (`Playground.NoFileFetchesEmptyUrl`).

## Model

| member | source | states |
|---|---|---|
| Gradient.CreateGradient | src/utils/index.ts:8-30 | no colour gives no paint; one colour gives that colour with no gradient; two or more give a gradient with the requested geometry and exactly the even stops |
| Gradient.AddColorStops | src/utils/index.ts:25-27 | the loop adds one stop per colour, in input order, and the stops equal the evenly spaced sequence |
| Gradient.EvenStopsOrdered | src/utils/index.ts:26 | n stops; stop i carries colour i; the first is at 0 and the last at 1; all lie in [0, 1]; they strictly increase, with spacing exactly 1/(n-1) |
| Gradient.StopOffsetBounds | src/utils/index.ts:26 | i/(n-1) lies in [0, 1]; it is 0 for the first colour and 1 for the last |
| Gradient.StopOffsetStep | src/utils/index.ts:26 | consecutive positions differ by 1/(n-1) and increase |
| Gradient.StopOffsetIncreasing | src/utils/index.ts:26 | for i < j, stop i comes strictly before stop j |
| Gradient.GeometryShape | src/utils/index.ts:12-22 | the linear gradient runs from (0, height) to (0, 0), whatever the width and radius; the radial gradient has both circles at (width/2, height/2), inner radius 0, and outer radius `radius`, or 0 when it is absent |
| Gradient.SteppedOffsetIsEven | src/components/FrequencyVisualizer.tsx:49-52 | `index * (1/(n-1))` equals `index/(n-1)` |
| Gradient.AddSteppedColorStops | src/components/FrequencyVisualizer.tsx:49-53 | the frequency visualizer's stepped loop adds one stop per colour, in order, at exactly the even positions |
| FrequencyVisualizer.CreateGradient | src/components/FrequencyVisualizer.tsx:45-56 | an absent list or fewer than two colours give `foregroundColor`; otherwise a bottom-to-top linear gradient with one stop per colour |
| FrequencyVisualizer.BarCount | src/components/FrequencyVisualizer.tsx:72 | never more bars than bins, so every `dataArray[i]` read is in bounds |
| FrequencyVisualizer.LayoutFits | src/components/FrequencyVisualizer.tsx:72-74 | for a positive pitch: 0 ≤ barCount ≤ bufferLength; totalWidth ≤ width; as many bars as fit unless the bins run out; startX ≥ 0; the left margin equals the right margin |
| FrequencyVisualizer.ScenarioEightHundredWide | src/components/FrequencyVisualizer.tsx:72-74 | 1024 bins on an 800-wide surface with pitch 6 + 2 give 100 bars filling the width from x = 0 |
| FrequencyVisualizer.BarGeometry | src/components/FrequencyVisualizer.tsx:79-81 | bar i starts at startX + i·pitch; it is barWidth wide; its height lies in [0, height]; its bottom edge is at `height` |
| FrequencyVisualizer.BarsSideBySide | src/components/FrequencyVisualizer.tsx:80 | with non-negative width and spacing, each bar ends before any later bar begins |
| FrequencyVisualizer.BarsInside | src/components/FrequencyVisualizer.tsx:72-81 | every drawn bar lies within [0, width] horizontally |
| FrequencyVisualizer.BarsShape | src/components/FrequencyVisualizer.tsx:78-90 | over the whole list of bar commands: three commands per bar when barRadius > 0 and one otherwise; every `roundRect` carries barRadius and appears only when it is positive; a `fillRect` appears only when it is not; no reschedule and no style change |
| FrequencyVisualizer.BarsIndexed | src/components/FrequencyVisualizer.tsx:78-90 | command group i is exactly the commands for bar i's rectangle: positions 3i to 3i+2 when barRadius > 0, position i otherwise |
| FrequencyVisualizer.BarInFrame | src/components/FrequencyVisualizer.tsx:78-90 | in a drawn frame, bar i appears right after the three header commands as `beginPath`, `roundRect` of bar i's rectangle with barRadius, and `fill`, or as one `fillRect` of that rectangle; so the geometry lemmas about bar i describe what is drawn |
| FrequencyVisualizer.LayoutFor | src/components/FrequencyVisualizer.tsx:72-74 | definition of barCount, totalWidth and startX; its properties are proved in LayoutFits and ScenarioEightHundredWide |
| FrequencyVisualizer.FrameOrder | src/components/FrequencyVisualizer.tsx:58-93 | a frame failing the guards is empty; otherwise the full-surface background fill and the bar paint come first, and the reschedule comes last and only there |
| FrequencyVisualizer.Draw | src/components/FrequencyVisualizer.tsx:58-93 | the loop emits exactly the frequency frame: nothing when the guards fail, the background fill second, the reschedule last |
| WaveformVisualizer.PathShape | src/components/WaveformVisualizer.tsx:65-76 | the path has one command per sample, in sample order: a `moveTo` for sample 0 and a `lineTo` after that |
| WaveformVisualizer.PathFrameShape | src/components/WaveformVisualizer.tsx:55-81 | the frame is: fill, rect, line width, stroke colour, begin path; then sample 0 as `moveTo` and every later sample as `lineTo` at x = i·sliceWidth; then `lineTo(width, height/2)`, stroke and reschedule |
| WaveformVisualizer.FrameShape | src/components/WaveformVisualizer.tsx:44-82 | without canvas, analyser, data or context the frame is empty; otherwise it has bufferLength + 8 commands as above, and its last point is (width, height/2) whatever the last sample |
| WaveformVisualizer.ReschedulesLast | src/components/WaveformVisualizer.tsx:78-81 | rescheduling is the last command and occurs nowhere else in the frame |
| WaveformVisualizer.SampleXOrdered | src/components/WaveformVisualizer.tsx:62-75 | for a positive width the first sample is drawn at x = 0, the slice is positive, and sample x positions strictly increase and stay below the width |
| WaveformVisualizer.SampleYRange | src/components/WaveformVisualizer.tsx:66-67 | a byte of 128 maps to the midline; every y lies in [0, 255/128 · height/2] |
| WaveformVisualizer.Draw | src/components/WaveformVisualizer.tsx:44-82 | the loop, with x accumulated by `sliceWidth`, emits exactly the waveform frame; a frame failing the guards is empty |
| CircularVisualizer.CreateGradient | src/components/CircularVisualizer.tsx:46-63 | fewer than two colours give `foregroundColor`; otherwise a radial gradient centred on (width/2, height/2), inner radius 0, outer radius as given, with even stops |
| CircularVisualizer.RayCount | src/components/CircularVisualizer.tsx:82 | never more than 360 rays and never more than the bins; equal to one of them |
| CircularVisualizer.RayAngleRange | src/components/CircularVisualizer.tsx:83-95 | ray i's angle i·(2π/bars) lies in [0, 2π), and the angles strictly increase |
| CircularVisualizer.BaseRadiusIsThirdOfShorterSide | src/components/CircularVisualizer.tsx:81 | three base radii equal the shorter side |
| CircularVisualizer.RayReach | src/components/CircularVisualizer.tsx:96-102 | a ray's length lies in [0, radius], so it ends between radius and 2·radius from the centre |
| CircularVisualizer.NextRotation | src/components/CircularVisualizer.tsx:85-88 | definition of the per-frame phase update; its properties are proved in NextRotationInRange, RotationStaysInRange and NegativeSpeedLeavesRange |
| CircularVisualizer.NextRotationInRange | src/components/CircularVisualizer.tsx:85-88 | with a non-negative speed, one frame keeps the phase in [0, 2π); the new phase is either the advanced phase or 0 |
| CircularVisualizer.RotationStaysInRange | src/components/CircularVisualizer.tsx:85-88 | starting in [0, 2π), any number of frames at non-negative speeds keeps the phase in [0, 2π) |
| CircularVisualizer.NegativeSpeedLeavesRange | src/components/CircularVisualizer.tsx:85-88 | a negative speed is never wrapped: one frame from 0 at speed -1 gives -0.002 |
| CircularVisualizer.RaysShape | src/components/CircularVisualizer.tsx:94-110 | six commands per ray, with ray i at positions 6i to 6i+5 |
| CircularVisualizer.RaysStayInside | src/components/CircularVisualizer.tsx:94-110 | no ray command restores the transform or reschedules |
| CircularVisualizer.RayInFrame | src/components/CircularVisualizer.tsx:94-109 | in a drawn frame, each ray's segment starts at the base radius and ends between one and two base radii out, on one angle in [0, 2π); its stroke is the gradient whose outer radius is the ray's end |
| CircularVisualizer.FrameOrder | src/components/CircularVisualizer.tsx:65-115 | a frame failing the guards is empty; otherwise it starts with the background fill, save, translate to the centre and rotate to the updated phase, and ends with restore and reschedule; the reschedule is the last command and occurs nowhere else |
| CircularVisualizer.Circular.constructor | src/components/CircularVisualizer.tsx:44 | the phase starts at 0 |
| CircularVisualizer.Circular.Draw | src/components/CircularVisualizer.tsx:65-115 | emits exactly the circular frame for the phase before the frame; the phase changes only past the guards, and then to the advanced-and-wrapped value |
| Frames.Ready | src/components/FrequencyVisualizer.tsx:59-63 | definition of the early-return guards shared by the three visualizers; its consequences are proved in each visualizer's FrameOrder or FrameShape |
| Frames.Samples | src/components/FrequencyVisualizer.tsx:65-67 | the frame's buffer has exactly `frequencyBinCount` bytes |
| AudioHook.Accepts | src/hooks/useAudioContext.ts:21-24 | definition of the AnalyserNode checks the four assignments pass, in order; its properties are proved in CreateAnalyserNode, DefaultConfigAccepted and HighDecibelRangeRefused |
| AudioHook.CreateAnalyserNode | src/hooks/useAudioContext.ts:19-26 | an analyser is returned if and only if the settings pass the Web Audio checks, in assignment order; it carries exactly the given fftSize, smoothing and dB bounds, on the given context |
| AudioHook.FrequencyBinCountIsHalf | src/hooks/useAudioContext.ts:32 | the buffer length is half of fftSize, and at least 16 |
| AudioHook.DefaultConfigAccepted | src/hooks/useAudioContext.ts:7-10 | the defaults 2048, 0.8, -90 and -10 are accepted and give 1024 bins |
| AudioHook.HighDecibelRangeRefused | src/hooks/useAudioContext.ts:23-24 | the well-ordered range (-20, 0) is refused, because `minDecibels` is assigned while the maximum is still -30 |
| AudioHook.MicrophoneSteps | src/hooks/useAudioContext.ts:28-33 | definition of the microphone handler's trace and result; its properties are proved in PublishedIff, PublishIsLastStep and OutputRouting |
| AudioHook.AudioUrlSteps | src/hooks/useAudioContext.ts:35-46 | definition of the file handler's trace and result; its properties are proved in PublishedIff, PublishIsLastStep, OutputRouting and HttpErrorStopsBeforeDecode |
| AudioHook.Activate | src/hooks/useAudioContext.ts:53-66 | definition of `initializeAudioContext`'s trace and result, with the handler chosen by `useMicrophone`; its properties are proved in PublishedIff, PublishedSessionComplete, PublishIsLastStep, OutputRouting and FailureLeavesContextOpen |
| AudioHook.PublishedIff | src/hooks/useAudioContext.ts:53-66 | a state is published if and only if a context can be created, the settings are accepted, and the chosen input succeeds (permission; an ok fetch, a readable body and a decodable file) |
| AudioHook.PublishedSessionComplete | src/hooks/useAudioContext.ts:28-46 | a published state has all four fields set: the new context, the analyser with the given settings, a zeroed buffer of fftSize/2 bytes, and a source of the chosen kind |
| AudioHook.PublishIsLastStep | src/hooks/useAudioContext.ts:28-46 | a failed initialisation never sets the state; a successful one sets it once, as its last step, after the source is connected to the analyser |
| AudioHook.OutputRouting | src/hooks/useAudioContext.ts:29-45 | the microphone is never routed to the destination or started; a file session ends with source→analyser, analyser→destination, `start(0)` and the state assignment, and nothing is started earlier |
| AudioHook.HttpErrorStopsBeforeDecode | src/hooks/useAudioContext.ts:36-37 | a response that is not ok ends the file handler at `fetch`: no decode, no source, no connection, no state |
| AudioHook.FailureLeavesContextOpen | src/hooks/useAudioContext.ts:54-66 | a failed initialisation that created a context never closes it |
| AudioHook.CleanupOps | src/hooks/useAudioContext.ts:69-87 | cleanup of the all-null state makes no call; cleanup only stops, disconnects and closes |
| AudioHook.CleanupOrder | src/hooks/useAudioContext.ts:84-87 | stop, then disconnect the source, then disconnect the analyser, then close the context |
| AudioHook.CleanupCalls | src/hooks/useAudioContext.ts:69-87 | `stop` is called if and only if the source is a buffer source; each disconnect and the close happen if and only if their field is set |
| AudioHook.CleanupOfPublishedSession | src/hooks/useAudioContext.ts:69-87 | cleanup of a published state stops a file source, disconnects both nodes and closes the context |
| AudioHook.AudioContextHook.constructor | src/hooks/useAudioContext.ts:12-17 | the state starts with all four fields null and nothing done |
| AudioHook.AudioContextHook.HandleMicrophoneInput | src/hooks/useAudioContext.ts:28-33 | appends the microphone steps to the trace and sets the state only if permission is granted |
| AudioHook.AudioContextHook.HandleAudioUrlInput | src/hooks/useAudioContext.ts:35-46 | appends the file steps to the trace, stopping at the first failure, and sets the state only at the end |
| AudioHook.AudioContextHook.InitializeAudioContext | src/hooks/useAudioContext.ts:53-67 | performs exactly `Activate`'s trace and publishes its state, leaving the state unchanged on any error |
| AudioHook.AudioContextHook.Cleanup | src/hooks/useAudioContext.ts:69-88 | appends exactly the cleanup calls for the captured state and resets nothing |
| Playground.Reducer | playground/Playground.tsx:194-219 | a `SET_*` action makes its field the payload and keeps every other field; any other action returns the input |
| Playground.ReducerIdempotent | playground/Playground.tsx:194-219 | dispatching an action twice equals dispatching it once |
| Playground.ReducerCommutes | playground/Playground.tsx:194-215 | actions on different fields commute |
| Playground.LastWriteWins | playground/Playground.tsx:194-215 | the result of an action does not depend on what its field held before |
| Playground.ActionTypesDistinct | playground/Playground.tsx:195-217 | a `SET_*` action's type is one of the ten case strings and an unrecognised action's is none of them; actions on different fields, or on a field and on none, never share a type string |
| Playground.InitialStateDefaults | playground/Playground.tsx:181-192 | the page starts on the waveform with the microphone off, no file, colours #1a1a2e and #4CAF50, bar width 3, spacing 1, radius 4, smoothing 0.8 and speed 1 |
| Playground.FileChangeGuard | playground/Playground.tsx:224-232 | an audio file replaces the chosen file and nothing else; no file, or a file of another type, leaves the state untouched; a chosen file is never cleared this way |
| Playground.HandleFileChange | playground/Playground.tsx:224-232 | definition of the file input's handler; its properties are proved in FileChangeGuard and FileTypeExamples |
| Playground.FileTypeExamples | playground/Playground.tsx:227 | "audio/mpeg" passes; "video/mp4", "audio" and an empty selection do not |
| Playground.CommonProps | playground/Playground.tsx:238-255 | definition of the props handed to the visualizers; its properties are proved in PropsDerivation, PageConfigAccepted, MicrophoneNeverFetches, NoFileFetchesEmptyUrl and PageGradientStops |
| Playground.PropsDerivation | playground/Playground.tsx:238-255 | the URL is withheld exactly while the microphone is on; otherwise it is the object URL or ""; the gradient has three colours with the foreground in the middle |
| Playground.PageConfigAccepted | playground/Playground.tsx:250 | the page's analyser settings are accepted exactly when the smoothing constant lies in [0, 1] |
| Playground.MicrophoneNeverFetches | playground/Playground.tsx:243 | with the microphone on, the hook fetches nothing |
| Playground.NoFileFetchesEmptyUrl | playground/Playground.tsx:235 | with the microphone off and no file, the hook requests "" |
| Playground.PageGradientStops | playground/Playground.tsx:246 | the page's three colours are stopped at 0, 0.5 and 1, in order |

## Left out

- Pixel output is not modelled: drawing commands are uninterpreted log entries. This covers `roundRect` semantics, transforms (`save`, `translate`, `rotate`, `restore`), and `Math.cos` and `Math.sin`, which appear only as `Polar(angle, distance)` points.
- Because transforms are not modelled, the model does not show where the circular visualizer's radial gradient falls on the surface. The source gives its centre (width/2, height/2) in the translated and rotated coordinate system.
- Floating point is not modelled; JavaScript numbers are exact reals. For example, the frequency visualizer's `index * step` is proved equal to `index / (n - 1)`, which IEEE arithmetic need not give exactly.
- FrequencyVisualizer.BarCount: a zero pitch is modelled by its outcome (every bin gets a bar for a positive width, none otherwise). The NaN and Infinity values of `totalWidth` and `startX` in that case are not modelled.
- CircularVisualizer.AngleStep: with no ray, `2π / 0` is never used; the model puts 0 there.
- WaveformVisualizer.SliceWidth: with no sample, `width / 0` is never used; the model puts 0 there.
- A negative radial radius, which throws on the canvas, is not modelled.
- The Web Audio internals are oracles: the FFT, the mapping from decibels to bytes, `getUserMedia`, `fetch`, `arrayBuffer` and `decodeAudioData`. Each is a success or failure answer in `Platform`, and the analyser's reading is an input to the frame.
- The assignment `source.buffer = audioBuffer` is not modelled; the decoded buffer is not part of the state.
- `console.error` in the catch clause is not modelled; an error only ends the trace.
- Scheduling is not modelled beyond "the reschedule is the last command and only a guarded frame has one". This covers `requestAnimationFrame` and `cancelAnimationFrame`, React's effect, ref and state timing, and async interleaving.
- AudioHook.AudioContextHook.Cleanup takes the state its callback closed over as an argument. The teardown registered at `src/hooks/useAudioContext.ts:90-93` holds the `cleanup` of the render in which the effect ran, which can be older than the current state. Which render that is depends on React's timing, and the model does not decide it.
- The effect that copies `width` and `height` onto the canvas element is not modelled, because it is DOM work.
- The visualizers' prop defaults are not modelled; each `Style` holds the props after the defaults are applied.
- Action payloads are typed: each `SET_*` action carries a value of its field's type. The source's `payload: any` allows anything. `Unrecognised` carries any type string other than the ten the reducer matches.
- A `null` colour list passed to `createGradient` in `src/utils/index.ts` is not modelled; it would throw there. An empty list gives `None`, for the `undefined` of `colors[0]`.
- The reducer returns a new value rather than mutating its input; with value semantics that holds for every Dafny function, so no separate property states it.
- UI and build files are not part of this model: `src/components/Playground.tsx`, styled components, and the rollup and vite configuration.
