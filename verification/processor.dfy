/** The audio processor's control flow (`SimpleEQAudioProcessor`): the
    parameter state, the two mono chains, the two sample collectors, and the
    operations that touch them — `updatePeakFilter`, `updateLowCutFilters`,
    `updateHighCutFilters`, `updateFilters`, `prepareToPlay`, `processBlock` and
    `setStateInformation`.

    Chains are values: `prepare` and the per-sample filtering change only the
    filters' internal memory, which this model leaves out. Rendering one channel
    through a chain is a function supplied by the caller. */
module EqProcessor {
  import opened Audio
  import opened BlockFifo
  import opened Settings
  import opened FilterChain
  import opened SampleCollector

  /** `juce::dsp::ProcessSpec`, as handed to both chains. */
  datatype ProcessSpec = ProcessSpec(sampleRate: real, maximumBlockSize: nat, numChannels: nat)

  /** `sampleRate` is what `getSampleRate()` returns: the rate the host last
      announced, 0 before the first `prepareToPlay`. */
  datatype Processor = Processor(
    state: ParameterState,
    sampleRate: real,
    spec: ProcessSpec,
    leftChain: MonoChain,
    rightChain: MonoChain,
    leftChannelFifo: Collector,
    rightChannelFifo: Collector)
  {
    /** What every reachable processor satisfies: legal parameter values, two
        identical chains whose peak stage is never bypassed, and well-formed
        collectors on their own channels. */
    predicate Valid() {
      && WellFormed(state)
      && leftChain == rightChain
      && !leftChain.peak.bypassed
      && leftChannelFifo.Inv() && leftChannelFifo.channelToUse == Left
      && rightChannelFifo.Inv() && rightChannelFifo.channelToUse == Right
    }
  }

  /** The constructor: default parameters, fresh chains, collectors not yet
      prepared whose block FIFOs let `limit` blocks be ready at once. */
  function NewProcessor(limit: nat): (p: Processor)
    requires 1 <= limit <= Capacity
    ensures p.Valid() && p.state == DefaultState() && p.sampleRate == 0.0
    ensures !p.leftChannelFifo.prepared && !p.rightChannelFifo.prepared
  {
    Processor(DefaultState(), 0.0, ProcessSpec(0.0, 0, 0), DefaultChain(), DefaultChain(),
              NewCollector(Left, limit), NewCollector(Right, limit))
  }

  /** `updatePeakFilter`: both chains' peak stages receive the one peak design
      for `settings` at the current sample rate; nothing else changes. */
  function UpdatePeakFilter(p: Processor, settings: ChainSettings, d: Designer): (r: Processor)
    ensures r.leftChain.peak.coefficients == MakePeakFilter(settings, p.sampleRate, d)
    ensures r.rightChain.peak.coefficients == MakePeakFilter(settings, p.sampleRate, d)
    ensures r.leftChain.peak.bypassed == p.leftChain.peak.bypassed
    ensures r.rightChain.peak.bypassed == p.rightChain.peak.bypassed
    ensures r.leftChain.lowCut == p.leftChain.lowCut && r.leftChain.highCut == p.leftChain.highCut
    ensures r.rightChain.lowCut == p.rightChain.lowCut && r.rightChain.highCut == p.rightChain.highCut
    ensures r == p.(leftChain := r.leftChain, rightChain := r.rightChain)
  {
    var peakCoefficients := MakePeakFilter(settings, p.sampleRate, d);
    p.(leftChain := p.leftChain.(peak := UpdateCoefficients(p.leftChain.peak, peakCoefficients)),
       rightChain := p.rightChain.(peak := UpdateCoefficients(p.rightChain.peak, peakCoefficients)))
  }

  /** `updateLowCutFilters`: one high-pass design, applied with the low-cut
      slope to both chains' low-cut filters; nothing else changes. */
  function UpdateLowCutFilters(p: Processor, settings: ChainSettings, d: Designer): (r: Processor)
    ensures CutConfigured(r.leftChain.lowCut, MakeLowCutFilter(settings, p.sampleRate, d), settings.lowCutSlope)
    ensures CutConfigured(r.rightChain.lowCut, MakeLowCutFilter(settings, p.sampleRate, d), settings.lowCutSlope)
    ensures forall j :: SlopeIndex(settings.lowCutSlope) < j < 4 ==>
              && r.leftChain.lowCut[j].coefficients == p.leftChain.lowCut[j].coefficients
              && r.rightChain.lowCut[j].coefficients == p.rightChain.lowCut[j].coefficients
    ensures r.leftChain == p.leftChain.(lowCut := r.leftChain.lowCut)
    ensures r.rightChain == p.rightChain.(lowCut := r.rightChain.lowCut)
    ensures r == p.(leftChain := r.leftChain, rightChain := r.rightChain)
  {
    var lowCutCoefficients := MakeLowCutFilter(settings, p.sampleRate, d);
    p.(leftChain := p.leftChain.(lowCut := UpdateCutFilter(p.leftChain.lowCut, lowCutCoefficients, settings.lowCutSlope)),
       rightChain := p.rightChain.(lowCut := UpdateCutFilter(p.rightChain.lowCut, lowCutCoefficients, settings.lowCutSlope)))
  }

  /** `updateHighCutFilters`: one low-pass design, applied with the high-cut
      slope to both chains' high-cut filters; nothing else changes. */
  function UpdateHighCutFilters(p: Processor, settings: ChainSettings, d: Designer): (r: Processor)
    ensures CutConfigured(r.leftChain.highCut, MakeHighCutFilter(settings, p.sampleRate, d), settings.highCutSlope)
    ensures CutConfigured(r.rightChain.highCut, MakeHighCutFilter(settings, p.sampleRate, d), settings.highCutSlope)
    ensures forall j :: SlopeIndex(settings.highCutSlope) < j < 4 ==>
              && r.leftChain.highCut[j].coefficients == p.leftChain.highCut[j].coefficients
              && r.rightChain.highCut[j].coefficients == p.rightChain.highCut[j].coefficients
    ensures r.leftChain == p.leftChain.(highCut := r.leftChain.highCut)
    ensures r.rightChain == p.rightChain.(highCut := r.rightChain.highCut)
    ensures r == p.(leftChain := r.leftChain, rightChain := r.rightChain)
  {
    var highCutCoefficients := MakeHighCutFilter(settings, p.sampleRate, d);
    p.(leftChain := p.leftChain.(highCut := UpdateCutFilter(p.leftChain.highCut, highCutCoefficients, settings.highCutSlope)),
       rightChain := p.rightChain.(highCut := UpdateCutFilter(p.rightChain.highCut, highCutCoefficients, settings.highCutSlope)))
  }

  /** `updateFilters`: one snapshot of the parameters, then the low-cut, peak and
      high-cut updates from that same snapshot. Both chains end up configured
      from the current parameters at the current sample rate, and they stay
      identical; only the chains change. */
  function UpdateFilters(p: Processor, d: Designer): (r: Processor)
    requires p.Valid()
    ensures r.Valid()
    ensures Configured(r.leftChain, GetChainSettings(p.state), p.sampleRate, d)
    ensures Configured(r.rightChain, GetChainSettings(p.state), p.sampleRate, d)
    ensures r == p.(leftChain := r.leftChain, rightChain := r.rightChain)
  {
    var chainSettings := GetChainSettings(p.state);
    var low := UpdateLowCutFilters(p, chainSettings, d);
    var peak := UpdatePeakFilter(low, chainSettings, d);
    UpdateHighCutFilters(peak, chainSettings, d)
  }

  /** Updating the filters a second time, with no parameter change in between,
      changes nothing. */
  lemma UpdateFiltersIdempotent(p: Processor, d: Designer)
    requires p.Valid()
    ensures UpdateFilters(UpdateFilters(p, d), d) == UpdateFilters(p, d)
  {
    var once := UpdateFilters(p, d);
    var twice := UpdateFilters(once, d);
    var s := GetChainSettings(p.state);
    UpdateCutFilterIdempotent(once.leftChain.lowCut, MakeLowCutFilter(s, p.sampleRate, d), s.lowCutSlope);
    UpdateCutFilterIdempotent(once.leftChain.highCut, MakeHighCutFilter(s, p.sampleRate, d), s.highCutSlope);
    assert once.leftChain.lowCut == UpdateCutFilter(once.leftChain.lowCut, MakeLowCutFilter(s, p.sampleRate, d), s.lowCutSlope) by {
      assert forall j :: 0 <= j < 4 ==>
        once.leftChain.lowCut[j] == UpdateCutFilter(once.leftChain.lowCut, MakeLowCutFilter(s, p.sampleRate, d), s.lowCutSlope)[j];
    }
    assert once.leftChain.highCut == UpdateCutFilter(once.leftChain.highCut, MakeHighCutFilter(s, p.sampleRate, d), s.highCutSlope) by {
      assert forall j :: 0 <= j < 4 ==>
        once.leftChain.highCut[j] == UpdateCutFilter(once.leftChain.highCut, MakeHighCutFilter(s, p.sampleRate, d), s.highCutSlope)[j];
    }
  }

  /** The chains' response after an update depends only on the parameters and
      the sample rate, not on what the chains held before. */
  lemma UpdateFiltersForgetsHistory(p: Processor, q: Processor, d: Designer)
    requires p.Valid() && q.Valid()
    requires p.state == q.state && p.sampleRate == q.sampleRate
    ensures SameResponse(UpdateFilters(p, d).leftChain, UpdateFilters(q, d).leftChain)
    ensures SameResponse(UpdateFilters(p, d).rightChain, UpdateFilters(q, d).leftChain)
  {
    var s := GetChainSettings(p.state);
    ConfiguredAlike(UpdateFilters(p, d).leftChain, UpdateFilters(q, d).leftChain, s, p.sampleRate, d);
  }

  /** The collectors can take samples: both prepared, with a block of at least
      one sample whenever their channel brings samples. */
  predicate ReadyFor(p: Processor, leftSamples: nat, rightSamples: nat)
  {
    && p.leftChannelFifo.prepared && p.rightChannelFifo.prepared
    && (leftSamples > 0 ==> |p.leftChannelFifo.bufferToFill| >= 1)
    && (rightSamples > 0 ==> |p.rightChannelFifo.bufferToFill| >= 1)
  }

  /** `prepareToPlay(sampleRate, samplesPerBlock)`: records the host's sample
      rate and hands both chains a one-channel spec, updates the filters at
      that rate, and only then prepares both collectors for blocks of
      `samplesPerBlock` samples — after which the collectors accept samples. */
  function PrepareToPlay(p: Processor, d: Designer, sampleRate: real, samplesPerBlock: nat): (r: Processor)
    requires p.Valid()
    ensures r.Valid() && r.state == p.state && r.sampleRate == sampleRate
    ensures r.spec == ProcessSpec(sampleRate, samplesPerBlock, 1)
    ensures Configured(r.leftChain, GetChainSettings(p.state), sampleRate, d)
    ensures Configured(r.rightChain, GetChainSettings(p.state), sampleRate, d)
    ensures r.leftChannelFifo == Prepare(p.leftChannelFifo, samplesPerBlock)
    ensures r.rightChannelFifo == Prepare(p.rightChannelFifo, samplesPerBlock)
    ensures r.leftChannelFifo.fifoIndex == 0 && r.rightChannelFifo.fifoIndex == 0
    ensures samplesPerBlock >= 1 ==> forall n, m :: ReadyFor(r, n, m)
  {
    var spec := ProcessSpec(sampleRate, samplesPerBlock, 1);
    var prepared := p.(sampleRate := sampleRate, spec := spec);
    var updated := UpdateFilters(prepared, d);
    updated.(leftChannelFifo := Prepare(updated.leftChannelFifo, samplesPerBlock),
             rightChannelFifo := Prepare(updated.rightChannelFifo, samplesPerBlock))
  }

  /** Output channels `from .. to-1` cleared, the rest untouched (the loop that
      clears outputs without a matching input). */
  function ClearChannels(b: AudioBuffer, from: nat, upTo: nat): (r: AudioBuffer)
    requires upTo <= |b|
    ensures |r| == |b|
    ensures forall c :: 0 <= c < |b| ==> |r[c]| == |b[c]|
    ensures forall c, i :: from <= c < upTo && 0 <= i < |r[c]| ==> r[c][i] == 0.0
    ensures forall c :: 0 <= c < |b| && (c < from || upTo <= c) ==> r[c] == b[c]
    decreases upTo - from
  {
    if from >= upTo then b else ClearChannels(ClearChannel(b, from), from + 1, upTo)
  }

  /** `processBlock`: clears the outputs that have no input, updates the filters
      from the current parameters, renders channel 0 through the left chain and
      channel 1 through the right chain, and only then feeds the processed
      buffer to the collectors — the left collector takes channel 1 (`Left` is
      1), the right collector channel 0.

      `render(chain, samples)` stands for processing one channel through a chain;
      the source requires a buffer with at least two channels and prepared
      collectors. */
  function ProcessBlock(p: Processor, d: Designer, render: (MonoChain, seq<real>) -> seq<real>,
                        buffer: AudioBuffer, numInputs: nat, numOutputs: nat): (r: (Processor, AudioBuffer))
    requires p.Valid()
    requires 2 <= |buffer| && numOutputs <= |buffer|
    requires forall chain, x :: |render(chain, x)| == |x|
    requires ReadyFor(p, |buffer[1]|, |buffer[0]|)
    ensures r.0.Valid()
    ensures Configured(r.0.leftChain, GetChainSettings(p.state), p.sampleRate, d)
    ensures Configured(r.0.rightChain, GetChainSettings(p.state), p.sampleRate, d)
    ensures |r.1| == |buffer|
    ensures var cleared := ClearChannels(buffer, numInputs, numOutputs);
            && r.1[0] == render(r.0.leftChain, cleared[0])
            && r.1[1] == render(r.0.rightChain, cleared[1])
            && forall c :: 2 <= c < |buffer| ==> r.1[c] == cleared[c]
    ensures r.0.leftChannelFifo == Feed(p.leftChannelFifo, r.1[ChannelIndex(Left)])
    ensures r.0.rightChannelFifo == Feed(p.rightChannelFifo, r.1[ChannelIndex(Right)])
    ensures r.0.state == p.state && r.0.sampleRate == p.sampleRate && r.0.spec == p.spec
  {
    var cleared := ClearChannels(buffer, numInputs, numOutputs);
    var updated := UpdateFilters(p, d);
    var leftBlock := render(updated.leftChain, cleared[0]);
    var rightBlock := render(updated.rightChain, cleared[1]);
    var out := cleared[0 := leftBlock][1 := rightBlock];
    var left := Feed(updated.leftChannelFifo, out[ChannelIndex(Left)]);
    var right := Feed(updated.rightChannelFifo, out[ChannelIndex(Right)]);
    (updated.(leftChannelFifo := left, rightChannelFifo := right), out)
  }

  /** Over consecutive blocks, each collector sees one uninterrupted stream:
      the processed samples of its channel, block after block. */
  lemma CollectorsSeeOneStream(p: Processor, d: Designer, render: (MonoChain, seq<real>) -> seq<real>,
                               b1: AudioBuffer, b2: AudioBuffer, numInputs: nat, numOutputs: nat)
    requires p.Valid()
    requires 2 <= |b1| && numOutputs <= |b1| && 2 <= |b2| && numOutputs <= |b2|
    requires forall chain, x :: |render(chain, x)| == |x|
    requires ReadyFor(p, |b1[1]|, |b1[0]|) && ReadyFor(p, |b2[1]|, |b2[0]|)
    ensures var first := ProcessBlock(p, d, render, b1, numInputs, numOutputs);
            ReadyFor(first.0, |b2[1]|, |b2[0]|) &&
            var second := ProcessBlock(first.0, d, render, b2, numInputs, numOutputs);
            && second.0.leftChannelFifo == Feed(p.leftChannelFifo, first.1[1] + second.1[1])
            && second.0.rightChannelFifo == Feed(p.rightChannelFifo, first.1[0] + second.1[0])
  {
    var first := ProcessBlock(p, d, render, b1, numInputs, numOutputs);
    assert first.0.leftChannelFifo == Feed(p.leftChannelFifo, first.1[1]);
    assert first.0.rightChannelFifo == Feed(p.rightChannelFifo, first.1[0]);
    var second := ProcessBlock(first.0, d, render, b2, numInputs, numOutputs);
    FeedConcat(p.leftChannelFifo, first.1[1], second.1[1]);
    FeedConcat(p.rightChannelFifo, first.1[0], second.1[0]);
  }

  /** `setStateInformation`: when the stored state decodes to a valid tree the
      parameters are replaced and the filters updated from them; otherwise
      nothing changes. Decoding is not modelled: `decoded` is its outcome, and a
      valid tree leaves every parameter with a legal value. */
  function SetStateInformation(p: Processor, d: Designer, decoded: Option<ParameterState>): (r: Processor)
    requires p.Valid()
    requires decoded.Some? ==> WellFormed(decoded.value)
    ensures r.Valid()
    ensures decoded.None? ==> r == p
    ensures decoded.Some? ==>
              && r.state == decoded.value
              && Configured(r.leftChain, GetChainSettings(decoded.value), p.sampleRate, d)
              && Configured(r.rightChain, GetChainSettings(decoded.value), p.sampleRate, d)
              && r == p.(state := decoded.value, leftChain := r.leftChain, rightChain := r.rightChain)
  {
    match decoded
    case None => p
    case Some(tree) => UpdateFilters(p.(state := tree), d)
  }
}
