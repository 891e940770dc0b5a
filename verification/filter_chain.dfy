/** The filter chains and the code that configures them: stages with a
    coefficient slot and a bypass flag, the four-stage cut filter, the mono chain
    low cut -> peak -> high cut, `updateCoefficients`, `update<Index>`,
    `updateCutFilter`, and the design calls `makePeakFilter`,
    `makeLowCutFilter` and `makeHighCutFilter`.

    Coefficients are opaque: they are carried and compared, never interpreted.
    The filter designs of the DSP library are not part of this model; they enter
    as the functions of a `Designer`, supplied by the caller. */
module FilterChain {
  import opened Settings

  /** One filter's coefficient set, as an uninterpreted list of numbers. */
  datatype Coefficients = Coefficients(taps: seq<real>)

  /** The coefficients a stage holds before any design has reached it. */
  const Initial: Coefficients := Coefficients([])

  /** One processing stage (an IIR filter): its coefficients and whether the
      chain skips it. */
  datatype Stage = Stage(coefficients: Coefficients, bypassed: bool)

  /** A fresh stage: not bypassed, as a processor chain starts out. */
  const FreshStage: Stage := Stage(Initial, false)

  /** A cut filter: four stages in a row. */
  type CutFilter = s: seq<Stage> | |s| == 4 witness [FreshStage, FreshStage, FreshStage, FreshStage]

  /** The mono signal path: low cut, then peak, then high cut. */
  datatype MonoChain = MonoChain(lowCut: CutFilter, peak: Stage, highCut: CutFilter)

  /** A freshly constructed chain: every stage fresh. */
  function DefaultChain(): (c: MonoChain)
    ensures !c.peak.bypassed
    ensures forall i :: 0 <= i < 4 ==> !c.lowCut[i].bypassed && !c.highCut[i].bypassed
  {
    var cut: CutFilter := [FreshStage, FreshStage, FreshStage, FreshStage];
    MonoChain(cut, FreshStage, cut)
  }

  // ---------------------------------------------------------------------------
  // Updating stages.

  /** `updateCoefficients(old, replacements)`: the stage's coefficient object is
      overwritten with the replacement's values. Only the coefficients change; the
      stage keeps its bypass flag, and the replacement (a value here) is left as
      it was. */
  function UpdateCoefficients(stage: Stage, replacements: Coefficients): (r: Stage)
    ensures r.coefficients == replacements
    ensures r.bypassed == stage.bypassed
  {
    stage.(coefficients := replacements)
  }

  /** `update<Index>(chain, coefficients)`: stage `index` receives
      `coefficients[index]` and is switched on; no other stage changes. The source
      indexes the coefficient array unchecked, so `index` must be inside it. */
  function UpdateStage(cut: CutFilter, coefficients: seq<Coefficients>, index: nat): (r: CutFilter)
    requires index < 4 && index < |coefficients|
    ensures r[index] == Stage(coefficients[index], false)
    ensures forall j :: 0 <= j < 4 && j != index ==> r[j] == cut[j]
  {
    cut[index := UpdateCoefficients(cut[index], coefficients[index]).(bypassed := false)]
  }

  /** Every stage of `cut` switched off, coefficients untouched (the four
      `setBypassed<i>(true)` calls). */
  function BypassAll(cut: CutFilter): (r: CutFilter)
    ensures forall j :: 0 <= j < 4 ==> r[j].bypassed && r[j].coefficients == cut[j].coefficients
  {
    seq(4, j requires 0 <= j < 4 => cut[j].(bypassed := true))
  }

  /** The `switch` entered at `case k`, falling through to `case 0`: `update<k>`,
      then `update<k-1>`, ..., then `update<0>`. */
  function UpdateDownFrom(cut: CutFilter, coefficients: seq<Coefficients>, k: nat): (r: CutFilter)
    requires k < 4 && k < |coefficients|
    ensures forall j :: 0 <= j <= k ==> r[j] == Stage(coefficients[j], false)
    ensures forall j :: k < j < 4 ==> r[j] == cut[j]
    decreases k
  {
    var next := UpdateStage(cut, coefficients, k);
    if k == 0 then next else UpdateDownFrom(next, coefficients, k - 1)
  }

  /** `updateCutFilter(chain, coefficients, slope)`: stages `0..s` (`s` the slope's
      index) receive the first `s + 1` designed coefficient sets and are switched
      on; the stages above are switched off and keep their stale coefficients. */
  function UpdateCutFilter(cut: CutFilter, coefficients: seq<Coefficients>, slope: Slope): (r: CutFilter)
    requires SlopeIndex(slope) < |coefficients|
    ensures forall j :: 0 <= j < 4 ==> (r[j].bypassed <==> j > SlopeIndex(slope))
    ensures forall j :: 0 <= j <= SlopeIndex(slope) ==> r[j].coefficients == coefficients[j]
    ensures forall j :: SlopeIndex(slope) < j < 4 ==> r[j].coefficients == cut[j].coefficients
  {
    UpdateDownFrom(BypassAll(cut), coefficients, SlopeIndex(slope))
  }

  /** Number of stages of `stages` that are switched on. */
  function CountActive(stages: seq<Stage>): (n: nat)
    ensures n <= |stages|
    decreases |stages|
  {
    if stages == [] then 0
    else CountActive(stages[..|stages| - 1]) + (if stages[|stages| - 1].bypassed then 0 else 1)
  }

  /** A run of `k` switched-on stages followed only by switched-off ones has
      exactly `k` active stages. */
  lemma {:induction false} CountActivePrefix(stages: seq<Stage>, k: nat)
    requires k <= |stages|
    requires forall j :: 0 <= j < k ==> !stages[j].bypassed
    requires forall j :: k <= j < |stages| ==> stages[j].bypassed
    ensures CountActive(stages) == k
    decreases |stages|
  {
    if |stages| > 0 {
      var init := stages[..|stages| - 1];
      if k == |stages| {
        CountActivePrefix(init, k - 1);
      } else {
        CountActivePrefix(init, k);
      }
    }
  }

  /** Slope `s` leaves exactly `s + 1` stages of the cut filter active, and
      the roll-off is 12 dB per octave per active stage. */
  lemma ActiveStagesMatchSlope(cut: CutFilter, coefficients: seq<Coefficients>, slope: Slope)
    requires SlopeIndex(slope) < |coefficients|
    ensures CountActive(UpdateCutFilter(cut, coefficients, slope)) == SlopeIndex(slope) + 1
    ensures DbPerOctave(slope) == 12 * CountActive(UpdateCutFilter(cut, coefficients, slope))
  {
    CountActivePrefix(UpdateCutFilter(cut, coefficients, slope), SlopeIndex(slope) + 1);
  }

  /** `updateCutFilter` reads only entries `0..s` of the coefficient array: two
      arrays that agree there configure the cut filter identically. */
  lemma UpdateCutFilterReadsPrefix(cut: CutFilter, a: seq<Coefficients>, b: seq<Coefficients>, slope: Slope)
    requires SlopeIndex(slope) < |a| && SlopeIndex(slope) < |b|
    requires a[..SlopeIndex(slope) + 1] == b[..SlopeIndex(slope) + 1]
    ensures UpdateCutFilter(cut, a, slope) == UpdateCutFilter(cut, b, slope)
  {
    var ra, rb := UpdateCutFilter(cut, a, slope), UpdateCutFilter(cut, b, slope);
    forall j | 0 <= j < 4
      ensures ra[j] == rb[j]
    {
      if j <= SlopeIndex(slope) {
        assert a[j] == a[..SlopeIndex(slope) + 1][j];
      }
    }
  }

  /** Re-running `updateCutFilter` with the same arguments changes nothing. */
  lemma UpdateCutFilterIdempotent(cut: CutFilter, coefficients: seq<Coefficients>, slope: Slope)
    requires SlopeIndex(slope) < |coefficients|
    ensures var once := UpdateCutFilter(cut, coefficients, slope);
            UpdateCutFilter(once, coefficients, slope) == once
  {
    var once := UpdateCutFilter(cut, coefficients, slope);
    var twice := UpdateCutFilter(once, coefficients, slope);
    assert forall j :: 0 <= j < 4 ==> twice[j] == once[j];
  }

  // ---------------------------------------------------------------------------
  // Designs.

  /** The coefficient designs of the DSP library, which this model does not
      define:
      - `peak(sampleRate, frequency, quality, gainInDecibels)` is the peak filter
        `makePeakFilter` asks for, the decibel-to-gain conversion included;
      - `highPassSection(frequency, sampleRate, order, k)` and
        `lowPassSection(frequency, sampleRate, order, k)` are section `k` of the
        Butterworth high-pass / low-pass design of the given order. */
  datatype Designer = Designer(
    peak: (real, real, real, real) -> Coefficients,
    highPassSection: (real, real, nat, nat) -> Coefficients,
    lowPassSection: (real, real, nat, nat) -> Coefficients)

  /** `makePeakFilter(chainSettings, sampleRate)`. */
  function MakePeakFilter(settings: ChainSettings, sampleRate: real, d: Designer): (c: Coefficients)
  {
    d.peak(sampleRate, settings.peakFreq, settings.peakQuality, settings.peakGainInDecibels)
  }

  /** The peak design reads only the peak's frequency, quality and gain (and the
      sample rate): the cut settings play no part in it. */
  lemma MakePeakFilterReadsPeakOnly(a: ChainSettings, b: ChainSettings, sampleRate: real, d: Designer)
    requires a.peakFreq == b.peakFreq && a.peakQuality == b.peakQuality
    requires a.peakGainInDecibels == b.peakGainInDecibels
    ensures MakePeakFilter(a, sampleRate, d) == MakePeakFilter(b, sampleRate, d)
  {
  }

  /** `makeLowCutFilter`: the high-pass Butterworth design of order
      `(lowCutSlope + 1) * 2`, one coefficient set per section. There is exactly
      one section per stage the slope switches on. */
  function MakeLowCutFilter(settings: ChainSettings, sampleRate: real, d: Designer): (cs: seq<Coefficients>)
    ensures |cs| == SlopeIndex(settings.lowCutSlope) + 1
    ensures forall k :: 0 <= k < |cs| ==>
              cs[k] == d.highPassSection(settings.lowCutFreq, sampleRate, DesignOrder(settings.lowCutSlope), k)
  {
    var order := DesignOrder(settings.lowCutSlope);
    seq(SectionCount(order), k requires 0 <= k < SectionCount(order) =>
      d.highPassSection(settings.lowCutFreq, sampleRate, order, k))
  }

  /** `makeHighCutFilter`: the low-pass Butterworth design of order
      `(highCutSlope + 1) * 2`, one coefficient set per section. */
  function MakeHighCutFilter(settings: ChainSettings, sampleRate: real, d: Designer): (cs: seq<Coefficients>)
    ensures |cs| == SlopeIndex(settings.highCutSlope) + 1
    ensures forall k :: 0 <= k < |cs| ==>
              cs[k] == d.lowPassSection(settings.highCutFreq, sampleRate, DesignOrder(settings.highCutSlope), k)
  {
    var order := DesignOrder(settings.highCutSlope);
    seq(SectionCount(order), k requires 0 <= k < SectionCount(order) =>
      d.lowPassSection(settings.highCutFreq, sampleRate, order, k))
  }

  // ---------------------------------------------------------------------------
  // What a configured chain looks like.

  /** `cut` carries the design `cs` at slope `slope`: stages `0..s` on with the
      designed sections, the stages above off. */
  predicate CutConfigured(cut: CutFilter, cs: seq<Coefficients>, slope: Slope)
  {
    && SlopeIndex(slope) < |cs|
    && (forall j :: 0 <= j < 4 ==> (cut[j].bypassed <==> j > SlopeIndex(slope)))
    && (forall j :: 0 <= j <= SlopeIndex(slope) ==> cut[j].coefficients == cs[j])
  }

  /** `chain` is what the update code makes of `settings` at `sampleRate`: the
      peak stage is on and holds the peak design, and both cut filters carry their
      designs at their slopes. */
  predicate Configured(chain: MonoChain, settings: ChainSettings, sampleRate: real, d: Designer)
  {
    && !chain.peak.bypassed
    && chain.peak.coefficients == MakePeakFilter(settings, sampleRate, d)
    && CutConfigured(chain.lowCut, MakeLowCutFilter(settings, sampleRate, d), settings.lowCutSlope)
    && CutConfigured(chain.highCut, MakeHighCutFilter(settings, sampleRate, d), settings.highCutSlope)
  }

  /** Two cut filters process alike: same bypass pattern, same coefficients in
      every active stage (stale coefficients of bypassed stages may differ). */
  predicate SameCut(a: CutFilter, b: CutFilter)
  {
    forall j :: 0 <= j < 4 ==>
      a[j].bypassed == b[j].bypassed && (!a[j].bypassed ==> a[j].coefficients == b[j].coefficients)
  }

  /** Two chains process alike: the peak stages are equal and the cut filters
      process alike. */
  predicate SameResponse(a: MonoChain, b: MonoChain)
  {
    a.peak == b.peak && SameCut(a.lowCut, b.lowCut) && SameCut(a.highCut, b.highCut)
  }

  /** Configuration fixes the response: chains configured from the same settings,
      sample rate and designs process alike, whatever they held before. */
  lemma ConfiguredAlike(a: MonoChain, b: MonoChain, settings: ChainSettings, sampleRate: real, d: Designer)
    requires Configured(a, settings, sampleRate, d) && Configured(b, settings, sampleRate, d)
    ensures SameResponse(a, b)
  {
  }
}
