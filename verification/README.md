# SimpleEQ control logic in Dafny

A model of the control logic of SimpleEQ, a JUCE three-band equaliser plugin.
The model covers the low-cut → peak → high-cut filter chain. It does not cover
the signal processing itself. It models:

- **Settings** (`settings.dfy`): the seven parameters, their ranges, defaults
  and slope choices, the `Slope` enum with its design order, and
  `getChainSettings`.
- **Block FIFO** (`fifo.dfy`): the 30-slot `Fifo<T>` ring. `push` and `pull`
  fail instead of blocking.
- **Sample collector** (`collector.dfy`): `SingleChannelSampleFifo`. It cuts
  one channel into fixed-size blocks and hands each finished block to its FIFO.
- **Filter chain** (`filter_chain.dfy`): stages with a coefficient slot and a
  bypass flag, `updateCoefficients`, `update<Index>`, `updateCutFilter`, and the
  design calls.
- **Processor** (`processor.dfy`): `updateFilters` and the functions it
  calls, `prepareToPlay`, `processBlock` and `setStateInformation`.
- **Response curve** (`editor.dfy`): the editor's mirror chain with its change
  flag and 60 Hz timer, the draining of the left collector, and the per-pixel
  magnitude that `paint` accumulates.

Everything is a value. An operation returns the new state instead of
mutating. The audio thread and the UI thread share the collector under a
single-producer/single-consumer discipline, so their calls become a sequence.
Coefficients are opaque data. The DSP library's designs enter as the functions
of a `Designer`: `makePeakFilter` and the sections of the Butterworth
high-order designs. A stage's magnitude at a frequency (`getMagnitudeForFrequency`)
is also a function parameter. Sample values and frequencies are `real`.

Behaviour of the code worth knowing:

- **Lazy block push.** A full block is pushed only when the next sample
  arrives and finds the cursor at the end of the block. So exactly `B` samples
  from a freshly prepared collector push nothing. In general, `n >= 1` samples
  cause `(n-1)/B` push attempts (`SampleCollector.FeedFromStart`).
- **In-place coefficient copy.** `updateCoefficients` copies the replacement's
  values into the existing coefficient object. It does not swap references, so
  every holder of the old object sees the new values. The model, working with
  values, stores the replacement's value in the stage.
- **Channel numbering.** `Channel` numbers `Right` as 0 and `Left` as 1. So
  `leftChannelFifo` collects channel 1, which the *right* chain renders.
  `leftChain` renders channel 0. `EqProcessor.ProcessBlock` states this as
  written. Both chains are always identical (`EqProcessor.Processor.Valid`), so
  the editor still sees a correctly filtered signal.
- **Source slips.** `Fifo::pull` takes its target as `const T&`, and the slot
  sizing is declared `prepared` but called as `prepare`. The model treats the
  target as an out-parameter and treats both names as one slot-sizing operation.

## Model

| member | source | states |
|---|---|---|
| Settings.SlopeIndex | SimpleEQ/Source/PluginProcessor.h:114-119 | the enum's underlying integer lies in 0..3 |
| Settings.SlopeIndexInverse | SimpleEQ/Source/PluginProcessor.h:114-119 | the underlying integer and the cast from a choice index are inverse: casting a slope's index gives the slope back, and a slope has index `i` exactly when it is the cast of `i` |
| Settings.DesignOrder | SimpleEQ/Source/PluginProcessor.h:194-204 | the design order `(slope + 1) * 2` yields exactly `slope + 1` Butterworth sections, and the slope's dB/octave is 6 times the order |
| Settings.SlopeChoices | SimpleEQ/Source/PluginProcessor.cpp:336-342 | four labels; label `i` ends with " db/Oct" and the number in front of it reads back as `12 + 12*i` |
| Settings.Label | SimpleEQ/Source/PluginProcessor.cpp:338-341 | a label streamed from `n` ends with " db/Oct" and its number reads back as `n` |
| Settings.SlopeOfRaw | SimpleEQ/Source/PluginProcessor.cpp:238-239 | casting a slope parameter's raw choice value to `Slope` gives the enum value whose index is that choice |
| Settings.SlopeLabelsNameSlopes | SimpleEQ/Source/PluginProcessor.cpp:336-346 | choice label `i` reads back as `12 + 12*i`, which is the roll-off of the slope the index is cast to, and the four labels are distinct |
| Settings.DecimalRoundTrip | SimpleEQ/Source/PluginProcessor.cpp:337-342 | a number written into a label string reads back as the same number |
| Settings.ParameterLayout | SimpleEQ/Source/PluginProcessor.cpp:305-349 | seven parameters with distinct ids; every default is legal for its range and lies on the range's step grid |
| Settings.ParameterRanges | SimpleEQ/Source/PluginProcessor.cpp:312-344 | looking each id up in the layout finds its exact range (lower, upper, step, skew) and default: the three frequencies 20-20000 Hz step 1 skew 0.25 with defaults 20, 20000 and 750; gain -24..24 dB step 0.5 default 0; quality 0.1..10 step 0.05 default 1; both slopes choose among the four labels with default index 0 |
| Settings.DefaultState | SimpleEQ/Source/PluginProcessor.cpp:312-346 | every parameter at its default is a legal parameter state |
| Settings.GetChainSettings | SimpleEQ/Source/PluginProcessor.cpp:230-243 | each snapshot field is the raw value of its own parameter id; every field is in its range (so Q is at least 0.1); each slope's index is the raw choice value |
| Settings.DefaultSettings | SimpleEQ/Source/PluginProcessor.cpp:312-346 | an untouched processor designs from low cut 20 Hz, high cut 20 kHz, a 750 Hz peak of gain 0 dB and Q 1, with both slopes at 12 dB/oct |
| BlockFifo.Empty | SimpleEQ/Source/PluginProcessor.h:47-49 | a new FIFO holds no block and is well formed |
| BlockFifo.Push | SimpleEQ/Source/PluginProcessor.h:27-34 | push fails exactly when `limit` blocks are ready, and then changes nothing; otherwise the queue gains `t` at its back |
| BlockFifo.Pull | SimpleEQ/Source/PluginProcessor.h:35-42 | pull succeeds exactly when a block is ready; on success it yields the oldest block and the queue loses its front; on failure the target and the FIFO are unchanged |
| BlockFifo.NumAvailableForReading | SimpleEQ/Source/PluginProcessor.h:43-45 | the count is the length of the queue and never exceeds the limit |
| BlockFifo.PrepareSlots | SimpleEQ/Source/PluginProcessor.h:17-26 | every slot becomes a cleared buffer of the requested shape; the queue length is unchanged |
| BlockFifo.PushAllKeepsWhatFits | SimpleEQ/Source/PluginProcessor.h:27-34 | pushing a run of blocks keeps the first `limit` blocks of old contents followed by the run, in order, and drops the rest |
| BlockFifo.PullAll | SimpleEQ/Source/PluginProcessor.h:35-45 | pulling until nothing is ready yields the queue in order and leaves the FIFO empty |
| BlockFifo.PushThenPullAll | SimpleEQ/Source/PluginProcessor.h:27-45 | round trip: up to `limit` blocks pushed into an empty FIFO all come back out, in push order |
| BlockFifo.PushAllOnFullIsNoOp | SimpleEQ/Source/PluginProcessor.h:27-34 | pushing into a full FIFO leaves it exactly as it was |
| SampleCollector.ChannelIndex | SimpleEQ/Source/PluginProcessor.h:52-55 | the channel numbers lie in 0..1 (`Right` is 0, `Left` is 1) |
| SampleCollector.Feed | SimpleEQ/Source/PluginProcessor.h:70-72 | feeding samples keeps the collector well formed and on its channel with its block length, never removes or reorders queued blocks (the old queue is a prefix of the new), and leaves the last sample just before the cursor |
| SampleCollector.NewCollector | SimpleEQ/Source/PluginProcessor.h:62-64 | a new collector is on its channel, not prepared, with an empty FIFO |
| SampleCollector.Prepare | SimpleEQ/Source/PluginProcessor.h:75-87 | after `prepare(B)`: size B, block length B, cursor 0, prepared; ready blocks stay ready, cleared |
| SampleCollector.PushNextSample | SimpleEQ/Source/PluginProcessor.h:101-111 | the cursor stays in `[1, B]`; at `B` the block is pushed, the result ignored, and the sample written at 0; otherwise the sample goes at the cursor and the FIFO is untouched |
| SampleCollector.Update | SimpleEQ/Source/PluginProcessor.h:66-73 | the loop feeds every sample of the collector's channel, in order |
| SampleCollector.FeedConcat | SimpleEQ/Source/PluginProcessor.h:66-73 | feeding two buffers one after the other is feeding their concatenation |
| SampleCollector.CompletedBlockAt | SimpleEQ/Source/PluginProcessor.h:101-111 | completed block `j` is samples `j*B` up to `(j+1)*B` |
| SampleCollector.FeedCounts | SimpleEQ/Source/PluginProcessor.h:101-111 | `q*B + m + 1` samples from cursor 0 attempt exactly `q` pushes, of consecutive blocks in arrival order, and leave the cursor at `m + 1` |
| SampleCollector.FeedFromStart | SimpleEQ/Source/PluginProcessor.h:101-111 | from cursor 0, `n >= 1` samples attempt `(n-1)/B` pushes, of consecutive blocks in arrival order, and leave the cursor at `(n-1)%B + 1` with the latest samples at the start of the block |
| SampleCollector.OneBlockPushesNothing | SimpleEQ/Source/PluginProcessor.h:101-111 | exactly `B` samples from cursor 0 push nothing and leave the block full |
| SampleCollector.WholeBlocksPushAllButLast | SimpleEQ/Source/PluginProcessor.h:101-111 | `k*B` samples from cursor 0 push the first `k - 1` blocks |
| SampleCollector.PreparedCollectorQueue | SimpleEQ/Source/PluginProcessor.h:75-111 | after `prepare` and `n >= 1` samples, the FIFO holds the earlier blocks (cleared) and then as many completed blocks as fit, in order |
| FilterChain.DefaultChain | SimpleEQ/Source/PluginProcessor.h:137 | a fresh chain has no stage bypassed |
| FilterChain.UpdateCoefficients | SimpleEQ/Source/PluginProcessor.cpp:263-265 | the stage's coefficients become the replacement's values; its bypass flag is kept |
| FilterChain.UpdateStage | SimpleEQ/Source/PluginProcessor.h:151-155 | `update<Index>` writes `coefficients[Index]` into stage `Index` only and switches only that stage on |
| FilterChain.BypassAll | SimpleEQ/Source/PluginProcessor.h:165-168 | all four stages switched off, coefficients kept |
| FilterChain.UpdateDownFrom | SimpleEQ/Source/PluginProcessor.h:173-190 | the fall-through from `case k` configures stages `0..k` and leaves the stages above untouched |
| FilterChain.UpdateCutFilter | SimpleEQ/Source/PluginProcessor.h:161-192 | stage `j` is bypassed iff `j > s`; stages `0..s` hold designed sections `0..s`; stages above `s` keep stale coefficients |
| FilterChain.ActiveStagesMatchSlope | SimpleEQ/Source/PluginProcessor.h:161-192 | exactly `s + 1` stages are active, 12 dB/oct each |
| FilterChain.UpdateCutFilterReadsPrefix | SimpleEQ/Source/PluginProcessor.h:173-190 | only entries `0..s` of the coefficient array are read |
| FilterChain.UpdateCutFilterIdempotent | SimpleEQ/Source/PluginProcessor.h:161-192 | applying `updateCutFilter` twice with the same arguments equals applying it once |
| FilterChain.MakePeakFilterReadsPeakOnly | SimpleEQ/Source/PluginProcessor.cpp:245-250 | the peak design depends only on the sample rate and the peak frequency, quality and gain: settings that agree on those give the same coefficients, whatever their cut settings |
| FilterChain.MakeLowCutFilter | SimpleEQ/Source/PluginProcessor.h:194-198 | the low-cut design has `s + 1` sections, section `k` of the high-pass design of order `(s + 1) * 2` |
| FilterChain.MakeHighCutFilter | SimpleEQ/Source/PluginProcessor.h:200-204 | the high-cut design has `s + 1` sections, section `k` of the low-pass design of order `(s + 1) * 2` |
| FilterChain.ConfiguredAlike | SimpleEQ/Source/PluginProcessor.cpp:254-287 | two chains configured from the same settings process alike |
| EqProcessor.NewProcessor | SimpleEQ/Source/PluginProcessor.h:256-262 | a new processor has default parameters, identical fresh chains and unprepared collectors |
| EqProcessor.UpdatePeakFilter | SimpleEQ/Source/PluginProcessor.cpp:254-259 | both peak stages receive the same peak design at the current sample rate; nothing else changes |
| EqProcessor.UpdateLowCutFilters | SimpleEQ/Source/PluginProcessor.cpp:269-276 | both low-cut filters carry the same high-pass design at the low-cut slope; nothing else changes |
| EqProcessor.UpdateHighCutFilters | SimpleEQ/Source/PluginProcessor.cpp:280-287 | both high-cut filters carry the same low-pass design at the high-cut slope; nothing else changes |
| EqProcessor.UpdateFilters | SimpleEQ/Source/PluginProcessor.cpp:293-299 | from one snapshot, both chains end up configured and stay identical; only the chains change |
| EqProcessor.UpdateFiltersIdempotent | SimpleEQ/Source/PluginProcessor.cpp:293-299 | a second update with unchanged parameters changes nothing |
| EqProcessor.UpdateFiltersForgetsHistory | SimpleEQ/Source/PluginProcessor.cpp:293-299 | after an update the chains' response depends only on parameters and sample rate |
| EqProcessor.PrepareToPlay | SimpleEQ/Source/PluginProcessor.cpp:94-116 | the spec is recorded, the filters are configured at the new rate, and then both collectors are prepared with `samplesPerBlock`, which makes them ready for samples |
| EqProcessor.ClearChannels | SimpleEQ/Source/PluginProcessor.cpp:162-163 | output channels without input are zeroed; the others are untouched |
| EqProcessor.ProcessBlock | SimpleEQ/Source/PluginProcessor.cpp:150-193 | the filters are configured from the current parameters before either chain renders; channel 0 goes through the left chain and channel 1 through the right; the collectors are fed the processed buffer, left from channel 1 and right from channel 0 |
| EqProcessor.CollectorsSeeOneStream | SimpleEQ/Source/PluginProcessor.cpp:190-192 | over two blocks each collector is fed the concatenation of its processed channel |
| EqProcessor.SetStateInformation | SimpleEQ/Source/PluginProcessor.cpp:217-226 | an invalid tree changes nothing; a valid one replaces the parameters and reconfigures both chains from them |
| ResponseCurve.UpdateChain | SimpleEQ/Source/PluginEditor.cpp:469-478 | the mirror chain is configured from one snapshot at the processor's sample rate |
| ResponseCurve.MirrorMatchesProcessor | SimpleEQ/Source/PluginEditor.cpp:469-478 | for the same parameters and sample rate, the mirror processes like both processor chains after `updateFilters` |
| ResponseCurve.NewComponent | SimpleEQ/Source/PluginEditor.cpp:188-206 | a new component has its flag down and its mirror up to date |
| ResponseCurve.ParameterValueChanged | SimpleEQ/Source/PluginEditor.cpp:444-446 | a parameter change raises the flag and leaves the mirror untouched |
| ResponseCurve.Tick | SimpleEQ/Source/PluginEditor.cpp:461-466 | flag up: the flag is cleared, the mirror is updated once and a repaint is requested; flag down: nothing changes and nothing is repainted |
| ResponseCurve.TimerCallback | SimpleEQ/Source/PluginEditor.cpp:450-467 | the left collector is drained until no complete block is ready, in queue order, and then the flag check runs |
| ResponseCurve.Drain | SimpleEQ/Source/PluginEditor.cpp:452-459 | the pull loop returns exactly the queued blocks, oldest first, and leaves the FIFO empty with its limit |
| ResponseCurve.Run | SimpleEQ/Source/PluginEditor.cpp:444-466 | over any sequence of events, the mirror is updated at most once per timer tick |
| ResponseCurve.RunKeepsSynced | SimpleEQ/Source/PluginEditor.cpp:444-466 | whenever the flag is down, the mirror is up to date with the current parameters |
| ResponseCurve.ShowsCurrentSettingsAfterTick | SimpleEQ/Source/PluginEditor.cpp:461-466 | after any timer tick the mirror reflects the current parameters |
| ResponseCurve.BurstOnlyRaisesFlag | SimpleEQ/Source/PluginEditor.cpp:444-446 | a burst of parameter changes only raises the flag and recomputes nothing |
| ResponseCurve.BurstThenTickRecomputesOnce | SimpleEQ/Source/PluginEditor.cpp:444-466 | any burst of `n >= 1` changes followed by one tick recomputes the mirror exactly once, from the last values |
| ResponseCurve.QuietTicksChangeNothing | SimpleEQ/Source/PluginEditor.cpp:461 | ticks with the flag down recompute nothing and leave the component unchanged |
| ResponseCurve.FoldIsActiveProduct | SimpleEQ/Source/PluginEditor.cpp:242-277 | the accumulation multiplies exactly the magnitudes of the active stages |
| ResponseCurve.PointMagnitude | SimpleEQ/Source/PluginEditor.cpp:242-277 | the magnitude at a point starts at 1 and is the product over exactly the stages that are not bypassed, among peak, low cut 0..3 and high cut 0..3 |
| ResponseCurve.AllBypassedIsUnity | SimpleEQ/Source/PluginEditor.cpp:242-277 | with every stage bypassed the magnitude is exactly 1 |
| ResponseCurve.SameResponseSameMagnitude | SimpleEQ/Source/PluginEditor.cpp:249-277 | chains that process alike have the same magnitude at every frequency |
| ResponseCurve.Magnitudes | SimpleEQ/Source/PluginEditor.cpp:236-280 | exactly `w` values, one per pixel column `i`, each the magnitude at the frequency of `i / w` |
| ResponseCurve.CurveShowsProcessorResponse | SimpleEQ/Source/PluginEditor.cpp:469-478 | with the flag down, the drawn magnitude equals the magnitude of the processor's chains after their update |

## Left out

- Per-sample filtering, the filters' internal memory and `prepare(spec)` of
  the chains are left out. They belong to the DSP library. Rendering a channel
  is the `render` parameter of `EqProcessor.ProcessBlock`.
- The Butterworth and peak designs, `decibelsToGain` and
  `getMagnitudeForFrequency` are function parameters. They are floating-point
  library code that this model does not contain.
- `mapToLog10` and `gainToDecibels` in `paint` are the `freqAt` and
  `toDecibels` parameters of `ResponseCurve.Magnitudes`. They are
  transcendental floating-point maps.
- `juce::AbstractFifo` is not part of this model. The number of blocks it lets
  be ready at once is the `limit` field, from 1 to 30.
- Floating-point rounding and `float`/`double` widths are not modelled. Values
  are reals.
- Threads, atomics, listener registration and the timer itself are left out.
  Calls from the audio thread and the UI thread are applied in sequence. The
  model therefore does not cover a parameter changing between the reads of one
  `getChainSettings`. That includes the repeated read of "LowCut Freq".
- State serialisation is left out: `getStateInformation`, reading the tree, and
  how `replaceState` maps tree values to parameters. `setStateInformation`
  receives the outcome as an optional parameter state that is legal whenever
  the tree is valid.
- The response curve sees a sample-rate change only at its next parameter
  change. The event model keeps the sample rate fixed.
- All drawing and layout are left out: sliders, labels, the background grid,
  the dB-to-pixel mapping and the path. So is the plugin boilerplate: name,
  MIDI, programs, bus layouts and editor creation.
- `releaseResources` is left out. It does nothing.
- The preconditions of `EqProcessor.ProcessBlock` are a buffer of at least two
  channels, prepared collectors, and a collector block of at least one sample
  whenever the buffer holds samples. The source does not check these. The
  plugin advertises a mono layout (`isBusesLayoutSupported`,
  SimpleEQ/Source/PluginProcessor.cpp:135-142) that it cannot process: on a
  one-channel buffer `processBlock` takes channel 1 and `leftChannelFifo` reads
  channel 1, both out of range. After `prepareToPlay` with a block size of 0,
  the first sample is written into an empty block. The model excludes both
  cases rather than giving them a meaning.
