/** The response-curve component of the editor (`ResponseCurveComponent`): a
    mirror chain kept in step with the parameters through a change flag that a
    60 Hz timer polls, the timer's draining of the left collector, and the
    per-pixel magnitude of the mirror chain that `paint` draws.

    The flag is an atomic in the source; here listener calls and timer ticks are
    events applied one after the other. The magnitude a stage has at a
    frequency (`getMagnitudeForFrequency`), the logarithmic frequency axis
    (`mapToLog10`) and the gain-to-decibel conversion are functions supplied by
    the caller. */
module ResponseCurve {
  import opened Audio
  import opened BlockFifo
  import opened Settings
  import opened FilterChain
  import opened SampleCollector
  import opened EqProcessor

  /** The component's state: the change flag and the mirror chain. */
  datatype Component = Component(parametersChanged: bool, monoChain: MonoChain)

  /** `updateChain`: one snapshot of the parameters; the peak design goes into
      the mirror's peak stage and both cut designs go through `updateCutFilter`,
      with the same design and update calls as the processor (which updates the
      low cut first, then the peak, then the high cut). */
  function UpdateChain(chain: MonoChain, state: ParameterState, sampleRate: real, d: Designer): (r: MonoChain)
    requires WellFormed(state)
    ensures r.peak.bypassed == chain.peak.bypassed
    ensures !chain.peak.bypassed ==> Configured(r, GetChainSettings(state), sampleRate, d)
  {
    var chainSettings := GetChainSettings(state);
    var peakCoefficients := MakePeakFilter(chainSettings, sampleRate, d);
    var withPeak := chain.(peak := UpdateCoefficients(chain.peak, peakCoefficients));
    var lowCutCoefficients := MakeLowCutFilter(chainSettings, sampleRate, d);
    var highCutCoefficients := MakeHighCutFilter(chainSettings, sampleRate, d);
    withPeak.(lowCut := UpdateCutFilter(withPeak.lowCut, lowCutCoefficients, chainSettings.lowCutSlope),
              highCut := UpdateCutFilter(withPeak.highCut, highCutCoefficients, chainSettings.highCutSlope))
  }

  /** The mirror and the processor agree: for the same parameters and sample
      rate, `updateChain` gives a chain that processes like both chains of the
      processor after `updateFilters`, whatever either held before. */
  lemma MirrorMatchesProcessor(chain: MonoChain, p: Processor, d: Designer)
    requires p.Valid() && !chain.peak.bypassed
    ensures SameResponse(UpdateChain(chain, p.state, p.sampleRate, d), UpdateFilters(p, d).leftChain)
    ensures SameResponse(UpdateChain(chain, p.state, p.sampleRate, d), UpdateFilters(p, d).rightChain)
  {
    var s := GetChainSettings(p.state);
    ConfiguredAlike(UpdateChain(chain, p.state, p.sampleRate, d), UpdateFilters(p, d).leftChain, s, p.sampleRate, d);
  }

  /** The constructor: a fresh mirror chain brought up to date at once, flag
      clear. */
  function NewComponent(state: ParameterState, sampleRate: real, d: Designer): (c: Component)
    requires WellFormed(state)
    ensures !c.parametersChanged && !c.monoChain.peak.bypassed
    ensures Configured(c.monoChain, GetChainSettings(state), sampleRate, d)
  {
    Component(false, UpdateChain(DefaultChain(), state, sampleRate, d))
  }

  /** `parameterValueChanged`: raises the flag and does nothing else; the mirror
      chain is not touched. */
  function ParameterValueChanged(c: Component): (r: Component)
    ensures r.parametersChanged
    ensures r.monoChain == c.monoChain
  {
    c.(parametersChanged := true)
  }

  /** The flag half of `timerCallback`: when the flag is up it is cleared, the
      mirror is brought up to date once and a repaint is requested; when it is
      down nothing changes and nothing is repainted. The result is (component,
      whether a repaint was requested). */
  function Tick(c: Component, state: ParameterState, sampleRate: real, d: Designer): (r: (Component, bool))
    requires WellFormed(state)
    ensures !r.0.parametersChanged
    ensures r.1 <==> c.parametersChanged
    ensures !c.parametersChanged ==> r.0 == c
    ensures r.0.monoChain.peak.bypassed == c.monoChain.peak.bypassed
    ensures c.parametersChanged && !c.monoChain.peak.bypassed ==>
              Configured(r.0.monoChain, GetChainSettings(state), sampleRate, d)
  {
    if c.parametersChanged then
      (Component(false, UpdateChain(c.monoChain, state, sampleRate, d)), true)
    else (c, false)
  }

  /** `timerCallback`: first pulls from the left collector until it reports no
      complete block, then does the flag check of `Tick`. Returns the component,
      the drained collector, whether a repaint was requested, and the blocks
      pulled (which the source discards), oldest first. */
  method TimerCallback(c: Component, leftChannelFifo: Collector, state: ParameterState, sampleRate: real, d: Designer)
    returns (r: Component, drained: Collector, repainted: bool, pulled: seq<AudioBuffer>)
    requires WellFormed(state) && leftChannelFifo.Inv()
    ensures drained.Inv()
    ensures NumAvailableForReading(drained.audioBufferFifo) == 0
    ensures pulled == Contents(leftChannelFifo.audioBufferFifo)
    ensures drained.audioBufferFifo.limit == leftChannelFifo.audioBufferFifo.limit
    ensures drained == leftChannelFifo.(audioBufferFifo := drained.audioBufferFifo)
    ensures (r, repainted) == Tick(c, state, sampleRate, d)
  {
    var fifo;
    pulled, fifo := Drain(leftChannelFifo.audioBufferFifo);
    drained := leftChannelFifo.(audioBufferFifo := fifo);
    var t := Tick(c, state, sampleRate, d);
    r, repainted := t.0, t.1;
  }

  /** The pull loop of `timerCallback`: pulls while a block is ready, each pull
      overwriting the one temporary buffer. Returns the blocks pulled, oldest
      first, and the emptied FIFO. */
  method Drain(orig: Fifo<AudioBuffer>) returns (pulled: seq<AudioBuffer>, fifo: Fifo<AudioBuffer>)
    requires orig.Valid()
    ensures fifo.Valid() && fifo.limit == orig.limit
    ensures NumAvailableForReading(fifo) == 0
    ensures pulled == Contents(orig)
  {
    fifo := orig;
    var tempIncomingBuffer: AudioBuffer := [];
    pulled := [];
    while NumAvailableForReading(fifo) > 0
      invariant fifo.Valid() && fifo.limit == orig.limit
      invariant pulled + Contents(fifo) == Contents(orig)
      decreases NumAvailableForReading(fifo)
    {
      var result := Pull(fifo, tempIncomingBuffer);
      if result.0 {
        pulled := pulled + [result.1];
      }
      assert pulled + Contents(result.2) == Contents(orig) by {
        assert Contents(fifo) == [Contents(fifo)[0]] + Contents(result.2);
      }
      tempIncomingBuffer, fifo := result.1, result.2;
    }
    assert pulled + Contents(fifo) == pulled;
  }

  // ---------------------------------------------------------------------------
  // Sequences of listener calls and timer ticks.

  /** What reaches the component: a parameter moving to a new value (the
      parameter state afterwards, then the listener call), or a timer tick. */
  datatype UiEvent = ParameterChanged(newState: ParameterState) | TimerTick

  /** Every parameter change leaves the parameters with legal values. */
  predicate LegalChanges(events: seq<UiEvent>)
  {
    forall i :: 0 <= i < |events| && events[i].ParameterChanged? ==> WellFormed(events[i].newState)
  }

  /** Number of timer ticks among `events`. */
  function Ticks(events: seq<UiEvent>): (n: nat)
    ensures n <= |events|
    decreases |events|
  {
    if events == [] then 0
    else Ticks(events[..|events| - 1]) + (if events[|events| - 1].TimerTick? then 1 else 0)
  }

  /** The events applied in order, from component `c` and parameters `state`,
      at a fixed sample rate. The result is (component, parameters, number of
      times the mirror was brought up to date). */
  function Run(c: Component, state: ParameterState, events: seq<UiEvent>, sampleRate: real, d: Designer)
    : (r: (Component, ParameterState, nat))
    requires WellFormed(state) && LegalChanges(events)
    ensures WellFormed(r.1)
    ensures r.2 <= Ticks(events)
    ensures r.0.monoChain.peak.bypassed == c.monoChain.peak.bypassed
    decreases |events|
  {
    if events == [] then (c, state, 0)
    else
      var prev := Run(c, state, events[..|events| - 1], sampleRate, d);
      match events[|events| - 1]
      case ParameterChanged(s) => (ParameterValueChanged(prev.0), s, prev.2)
      case TimerTick =>
        var t := Tick(prev.0, prev.1, sampleRate, d);
        (t.0, prev.1, prev.2 + (if t.1 then 1 else 0))
  }

  /** The mirror is up to date whenever the flag is down. */
  predicate Synced(c: Component, state: ParameterState, sampleRate: real, d: Designer)
    requires WellFormed(state)
  {
    !c.parametersChanged ==> Configured(c.monoChain, GetChainSettings(state), sampleRate, d)
  }

  /** Every listener call and every tick keeps the mirror in step: a down flag
      always means an up-to-date mirror. */
  lemma {:induction false} RunKeepsSynced(c: Component, state: ParameterState, events: seq<UiEvent>, sampleRate: real, d: Designer)
    requires WellFormed(state) && LegalChanges(events)
    requires !c.monoChain.peak.bypassed && Synced(c, state, sampleRate, d)
    ensures var r := Run(c, state, events, sampleRate, d);
            Synced(r.0, r.1, sampleRate, d)
    decreases |events|
  {
    if events != [] {
      var init := events[..|events| - 1];
      assert LegalChanges(init) by {
        assert forall i :: 0 <= i < |init| ==> init[i] == events[i];
      }
      RunKeepsSynced(c, state, init, sampleRate, d);
    }
  }

  /** After any timer tick the curve is drawn from the current parameters: the
      flag is down and the mirror is up to date. */
  lemma ShowsCurrentSettingsAfterTick(c: Component, state: ParameterState, events: seq<UiEvent>, sampleRate: real, d: Designer)
    requires WellFormed(state) && LegalChanges(events)
    requires !c.monoChain.peak.bypassed && Synced(c, state, sampleRate, d)
    requires |events| > 0 && events[|events| - 1] == TimerTick
    ensures var r := Run(c, state, events, sampleRate, d);
            !r.0.parametersChanged && Configured(r.0.monoChain, GetChainSettings(r.1), sampleRate, d)
  {
    RunKeepsSynced(c, state, events, sampleRate, d);
  }

  /** A burst of `n >= 1` parameter changes raises the flag, recomputes nothing
      and leaves the mirror as it was. */
  lemma {:induction false} BurstOnlyRaisesFlag(c: Component, state: ParameterState, burst: seq<UiEvent>, sampleRate: real, d: Designer)
    requires WellFormed(state) && LegalChanges(burst) && |burst| >= 1
    requires forall i :: 0 <= i < |burst| ==> burst[i].ParameterChanged?
    ensures var r := Run(c, state, burst, sampleRate, d);
            && r.0.parametersChanged
            && r.0.monoChain == c.monoChain
            && r.1 == burst[|burst| - 1].newState
            && r.2 == 0
    decreases |burst|
  {
    var init := burst[..|burst| - 1];
    assert LegalChanges(init) by {
      assert forall i :: 0 <= i < |init| ==> init[i] == burst[i];
    }
    if |init| >= 1 {
      BurstOnlyRaisesFlag(c, state, init, sampleRate, d);
    } else {
      assert Run(c, state, init, sampleRate, d) == (c, state, 0);
    }
  }

  /** Coalescing: any burst of `n >= 1` parameter changes followed by one timer
      tick brings the mirror up to date exactly once, from the last values. */
  lemma BurstThenTickRecomputesOnce(c: Component, state: ParameterState, burst: seq<UiEvent>, sampleRate: real, d: Designer)
    requires WellFormed(state) && LegalChanges(burst) && |burst| >= 1
    requires forall i :: 0 <= i < |burst| ==> burst[i].ParameterChanged?
    requires !c.monoChain.peak.bypassed
    ensures LegalChanges(burst + [TimerTick])
    ensures var r := Run(c, state, burst + [TimerTick], sampleRate, d);
            && r.2 == 1
            && !r.0.parametersChanged
            && Configured(r.0.monoChain, GetChainSettings(burst[|burst| - 1].newState), sampleRate, d)
  {
    var events := burst + [TimerTick];
    assert LegalChanges(events) by {
      assert forall i :: 0 <= i < |burst| ==> events[i] == burst[i];
    }
    assert events[..|events| - 1] == burst;
    BurstOnlyRaisesFlag(c, state, burst, sampleRate, d);
  }

  /** Ticks with the flag down do nothing: no recomputation, no repaint, the
      mirror unchanged. */
  lemma {:induction false} QuietTicksChangeNothing(c: Component, state: ParameterState, ticks: seq<UiEvent>, sampleRate: real, d: Designer)
    requires WellFormed(state) && !c.parametersChanged
    requires forall i :: 0 <= i < |ticks| ==> ticks[i] == TimerTick
    ensures LegalChanges(ticks)
    ensures Run(c, state, ticks, sampleRate, d) == (c, state, 0)
    decreases |ticks|
  {
    if ticks != [] {
      QuietTicksChangeNothing(c, state, ticks[..|ticks| - 1], sampleRate, d);
    }
  }

  // ---------------------------------------------------------------------------
  // The magnitude the curve shows.

  /** `getMagnitudeForFrequency(frequency, sampleRate)` of a coefficient set. */
  type MagnitudeFn = (Coefficients, real, real) -> real

  /** `mag *= gain`. */
  function Scale(mag: real, gain: real): real
  {
    mag * gain
  }

  /** One `if (! isBypassed) mag *= ...` step of `paint`. */
  function Accumulate(mag: real, stage: Stage, magnitude: MagnitudeFn, freq: real, sampleRate: real): real
  {
    if !stage.bypassed then Scale(mag, magnitude(stage.coefficients, freq, sampleRate)) else mag
  }

  /** The linear magnitude of `chain` at `freq`, as `paint` accumulates it: start
      at 1, then the peak, low cut 0..3 and high cut 0..3, each only when it is
      not bypassed. It is the product of the magnitudes of exactly the stages
      that are not bypassed. */
  function PointMagnitude(chain: MonoChain, magnitude: MagnitudeFn, freq: real, sampleRate: real): (m: real)
    ensures m == Product(ActiveGains(StagesOf(chain), magnitude, freq, sampleRate))
  {
    NineStepsAreFold(chain, magnitude, freq, sampleRate);
    FoldIsActiveProduct(StagesOf(chain), magnitude, freq, sampleRate);
    var m0 := 1.0;
    var m1 := Accumulate(m0, chain.peak, magnitude, freq, sampleRate);
    var m2 := Accumulate(m1, chain.lowCut[0], magnitude, freq, sampleRate);
    var m3 := Accumulate(m2, chain.lowCut[1], magnitude, freq, sampleRate);
    var m4 := Accumulate(m3, chain.lowCut[2], magnitude, freq, sampleRate);
    var m5 := Accumulate(m4, chain.lowCut[3], magnitude, freq, sampleRate);
    var m6 := Accumulate(m5, chain.highCut[0], magnitude, freq, sampleRate);
    var m7 := Accumulate(m6, chain.highCut[1], magnitude, freq, sampleRate);
    var m8 := Accumulate(m7, chain.highCut[2], magnitude, freq, sampleRate);
    Accumulate(m8, chain.highCut[3], magnitude, freq, sampleRate)
  }

  /** The nine stages `paint` looks at, in its order. */
  function StagesOf(chain: MonoChain): (stages: seq<Stage>)
    ensures |stages| == 9
  {
    [chain.peak] + chain.lowCut + chain.highCut
  }

  /** The magnitudes of the stages that are not bypassed, in order. */
  function ActiveGains(stages: seq<Stage>, magnitude: MagnitudeFn, freq: real, sampleRate: real): (gains: seq<real>)
    ensures |gains| == CountActive(stages)
    decreases |stages|
  {
    if stages == [] then []
    else
      var last := stages[|stages| - 1];
      ActiveGains(stages[..|stages| - 1], magnitude, freq, sampleRate)
        + (if last.bypassed then [] else [magnitude(last.coefficients, freq, sampleRate)])
  }

  /** Product of a list of gains; the empty product is 1. */
  function Product(xs: seq<real>): real
    decreases |xs|
  {
    if xs == [] then 1.0 else Scale(Product(xs[..|xs| - 1]), xs[|xs| - 1])
  }

  /** `Accumulate` folded over `stages` from 1. */
  function Fold(stages: seq<Stage>, magnitude: MagnitudeFn, freq: real, sampleRate: real): real
    decreases |stages|
  {
    if stages == [] then 1.0
    else Accumulate(Fold(stages[..|stages| - 1], magnitude, freq, sampleRate), stages[|stages| - 1], magnitude, freq, sampleRate)
  }

  lemma FoldSnoc(init: seq<Stage>, x: Stage, magnitude: MagnitudeFn, freq: real, sampleRate: real)
    ensures Fold(init + [x], magnitude, freq, sampleRate) ==
            Accumulate(Fold(init, magnitude, freq, sampleRate), x, magnitude, freq, sampleRate)
  {
    assert (init + [x])[..|init|] == init;
  }

  lemma ProductSnoc(xs: seq<real>, g: real)
    ensures Product(xs + [g]) == Scale(Product(xs), g)
  {
    assert (xs + [g])[..|xs|] == xs;
  }

  /** The fold multiplies exactly the magnitudes of the active stages. */
  lemma {:induction false} FoldIsActiveProduct(stages: seq<Stage>, magnitude: MagnitudeFn, freq: real, sampleRate: real)
    ensures Fold(stages, magnitude, freq, sampleRate) == Product(ActiveGains(stages, magnitude, freq, sampleRate))
    decreases |stages|
  {
    if stages != [] {
      var init, last := stages[..|stages| - 1], stages[|stages| - 1];
      FoldIsActiveProduct(init, magnitude, freq, sampleRate);
      var gains := ActiveGains(init, magnitude, freq, sampleRate);
      if !last.bypassed {
        ProductSnoc(gains, magnitude(last.coefficients, freq, sampleRate));
      } else {
        assert gains + [] == gains;
      }
    }
  }

  /** `paint`'s nine steps are the fold over the chain's stages. */
  lemma NineStepsAreFold(chain: MonoChain, magnitude: MagnitudeFn, freq: real, sampleRate: real)
    ensures Fold(StagesOf(chain), magnitude, freq, sampleRate) ==
            var m1 := Accumulate(1.0, chain.peak, magnitude, freq, sampleRate);
            var m2 := Accumulate(m1, chain.lowCut[0], magnitude, freq, sampleRate);
            var m3 := Accumulate(m2, chain.lowCut[1], magnitude, freq, sampleRate);
            var m4 := Accumulate(m3, chain.lowCut[2], magnitude, freq, sampleRate);
            var m5 := Accumulate(m4, chain.lowCut[3], magnitude, freq, sampleRate);
            var m6 := Accumulate(m5, chain.highCut[0], magnitude, freq, sampleRate);
            var m7 := Accumulate(m6, chain.highCut[1], magnitude, freq, sampleRate);
            var m8 := Accumulate(m7, chain.highCut[2], magnitude, freq, sampleRate);
            Accumulate(m8, chain.highCut[3], magnitude, freq, sampleRate)
  {
    var lo, hi := chain.lowCut, chain.highCut;
    var s0: seq<Stage> := [];
    var s1 := s0 + [chain.peak];
    var s2 := s1 + [lo[0]];
    var s3 := s2 + [lo[1]];
    var s4 := s3 + [lo[2]];
    var s5 := s4 + [lo[3]];
    var s6 := s5 + [hi[0]];
    var s7 := s6 + [hi[1]];
    var s8 := s7 + [hi[2]];
    var s9 := s8 + [hi[3]];
    FoldSnoc(s0, chain.peak, magnitude, freq, sampleRate);
    FoldSnoc(s1, lo[0], magnitude, freq, sampleRate);
    FoldSnoc(s2, lo[1], magnitude, freq, sampleRate);
    FoldSnoc(s3, lo[2], magnitude, freq, sampleRate);
    FoldSnoc(s4, lo[3], magnitude, freq, sampleRate);
    FoldSnoc(s5, hi[0], magnitude, freq, sampleRate);
    FoldSnoc(s6, hi[1], magnitude, freq, sampleRate);
    FoldSnoc(s7, hi[2], magnitude, freq, sampleRate);
    FoldSnoc(s8, hi[3], magnitude, freq, sampleRate);
    assert s9 == StagesOf(chain);
  }

  /** With every stage bypassed the curve is flat: magnitude 1 at every
      frequency, whatever the coefficients. */
  lemma AllBypassedIsUnity(chain: MonoChain, magnitude: MagnitudeFn, freq: real, sampleRate: real)
    requires forall i :: 0 <= i < |StagesOf(chain)| ==> StagesOf(chain)[i].bypassed
    ensures PointMagnitude(chain, magnitude, freq, sampleRate) == 1.0
  {
    CountActivePrefix(StagesOf(chain), 0);
  }

  /** Chains that process alike draw the same curve. */
  lemma SameResponseSameMagnitude(a: MonoChain, b: MonoChain, magnitude: MagnitudeFn, freq: real, sampleRate: real)
    requires SameResponse(a, b)
    ensures PointMagnitude(a, magnitude, freq, sampleRate) == PointMagnitude(b, magnitude, freq, sampleRate)
  {
    assert forall j :: 0 <= j < 4 ==>
      Accumulate(1.0, a.lowCut[j], magnitude, freq, sampleRate) == Accumulate(1.0, b.lowCut[j], magnitude, freq, sampleRate);
  }

  /** The magnitudes `paint` computes: one value per pixel column `i` of a
      `w`-column area, at the frequency `freqAt(i / w)` (the logarithmic axis)
      and converted by `toDecibels`. */
  method Magnitudes(chain: MonoChain, magnitude: MagnitudeFn, sampleRate: real,
                    freqAt: real -> real, toDecibels: real -> real, w: nat)
    returns (magnitudes: seq<real>)
    ensures |magnitudes| == w
    ensures forall i :: 0 <= i < w ==>
              magnitudes[i] == toDecibels(PointMagnitude(chain, magnitude, freqAt(i as real / w as real), sampleRate))
  {
    magnitudes := [];
    var i := 0;
    while i < w
      invariant 0 <= i <= w && |magnitudes| == i
      invariant forall k :: 0 <= k < i ==>
                  magnitudes[k] == toDecibels(PointMagnitude(chain, magnitude, freqAt(k as real / w as real), sampleRate))
    {
      var freq := freqAt(i as real / w as real);
      magnitudes := magnitudes + [toDecibels(PointMagnitude(chain, magnitude, freq, sampleRate))];
      i := i + 1;
    }
  }

  /** With the flag down, the curve the editor draws is the response of the
      processor's chains after their next update: same magnitude at every
      frequency. */
  lemma CurveShowsProcessorResponse(c: Component, p: Processor, d: Designer,
                                    magnitude: MagnitudeFn, freq: real)
    requires p.Valid() && !c.parametersChanged
    requires Synced(c, p.state, p.sampleRate, d)
    ensures PointMagnitude(c.monoChain, magnitude, freq, p.sampleRate) ==
            PointMagnitude(UpdateFilters(p, d).leftChain, magnitude, freq, p.sampleRate)
  {
    var s := GetChainSettings(p.state);
    ConfiguredAlike(c.monoChain, UpdateFilters(p, d).leftChain, s, p.sampleRate, d);
    SameResponseSameMagnitude(c.monoChain, UpdateFilters(p, d).leftChain, magnitude, freq, p.sampleRate);
  }
}
