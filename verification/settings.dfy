/** The equaliser's parameters: the slope choice, the `ChainSettings` snapshot,
    the parameter layout the processor registers, and `getChainSettings`, which
    reads one snapshot out of the parameter state.

    The parameter state is a map from parameter id to its raw (unnormalised)
    value, one entry per parameter of the layout. Floating-point values are
    real numbers here: `0.1f` and `0.05f` are exact, and rounding is not modelled. */
module Settings {

  datatype Option<T> = None | Some(value: T)

  /** Roll-off of a cut filter, in the order of the source's `Slope` enum. */
  datatype Slope = Slope12 | Slope24 | Slope36 | Slope48

  /** The enum's underlying integer, which is also the choice index of the slope
      parameter. */
  function SlopeIndex(s: Slope): (i: nat)
    ensures i < 4
  {
    match s
    case Slope12 => 0
    case Slope24 => 1
    case Slope36 => 2
    case Slope48 => 3
  }

  /** The enum value with underlying integer `i`. */
  function SlopeOfIndex(i: nat): (s: Slope)
    requires i < 4
    ensures SlopeIndex(s) == i
  {
    if i == 0 then Slope12 else if i == 1 then Slope24 else if i == 2 then Slope36 else Slope48
  }

  /** The cast from choice index to enum and the enum's underlying integer are
      inverse to each other. */
  lemma SlopeIndexInverse(s: Slope, i: nat)
    requires i < 4
    ensures SlopeOfIndex(SlopeIndex(s)) == s
    ensures SlopeIndex(s) == i <==> s == SlopeOfIndex(i)
  {
  }

  /** Attenuation rate the slope stands for: each enabled second-order section
      adds 12 dB per octave. */
  function DbPerOctave(s: Slope): (db: nat)
    ensures db % 12 == 0 && 12 <= db <= 48
  {
    12 + 12 * SlopeIndex(s)
  }

  /** Order of the Butterworth design requested for a cut filter of slope `s`
      (the expression `(slope + 1) * 2` of `makeLowCutFilter` / `makeHighCutFilter`).
      The design then has exactly one section per stage the slope enables, and
      the slope's roll-off is 6 dB per octave per order. */
  function DesignOrder(s: Slope): (order: nat)
    ensures SectionCount(order) == SlopeIndex(s) + 1
    ensures DbPerOctave(s) == 6 * order
  {
    (SlopeIndex(s) + 1) * 2
  }

  /** Number of sections a high-order Butterworth design of order `order`
      consists of: one second-order section per pair of poles, plus one
      first-order section when the order is odd. */
  function SectionCount(order: nat): nat
  {
    order / 2 + order % 2
  }

  /** One snapshot of every parameter the filters are designed from. */
  datatype ChainSettings = ChainSettings(
    peakFreq: real,
    peakGainInDecibels: real,
    peakQuality: real,
    lowCutFreq: real,
    highCutFreq: real,
    lowCutSlope: Slope,
    highCutSlope: Slope)

  // ---------------------------------------------------------------------------
  // Decimal rendering of the slope labels.

  function DigitChar(d: nat): (c: char)
    requires d < 10
  {
    "0123456789"[d]
  }

  function DigitValue(c: char): nat
  {
    if '0' <= c <= '9' then (c as int - '0' as int) as nat else 0
  }

  /** Decimal representation of `n`, as a string stream renders an integer. */
  function NatToDecimal(n: nat): (s: string)
    ensures |s| >= 1
    ensures forall i :: 0 <= i < |s| ==> '0' <= s[i] <= '9'
    decreases n
  {
    if n < 10 then [DigitChar(n)] else NatToDecimal(n / 10) + [DigitChar(n % 10)]
  }

  /** Value of a string of decimal digits. */
  function ParseDecimal(s: string): nat
    decreases |s|
  {
    if s == [] then 0 else 10 * ParseDecimal(s[..|s| - 1]) + DigitValue(s[|s| - 1])
  }

  /** Reading back a rendered number gives the number. */
  lemma {:induction false} DecimalRoundTrip(n: nat)
    ensures ParseDecimal(NatToDecimal(n)) == n
    decreases n
  {
    var s := NatToDecimal(n);
    if n < 10 {
      assert s[..|s| - 1] == [];
    } else {
      DecimalRoundTrip(n / 10);
      assert s[..|s| - 1] == NatToDecimal(n / 10);
    }
  }

  /** Suffix every slope label carries. */
  const LabelSuffix: string := " db/Oct"

  /** The choices of the two slope parameters: entry `i` is `12 + i*12` followed
      by the suffix. */
  function SlopeChoices(): (labels: seq<string>)
    ensures |labels| == 4
    ensures forall i :: 0 <= i < 4 ==>
              |labels[i]| > |LabelSuffix| && labels[i][|labels[i]| - |LabelSuffix|..] == LabelSuffix
    ensures forall i :: 0 <= i < 4 ==> LabelNumber(labels[i]) == 12 + 12 * i
  {
    seq(4, i requires 0 <= i < 4 => Label(12 + i * 12))
  }

  /** The label for `n`: the number streamed as decimal digits, then the suffix.
      It ends with the suffix and its number reads back as `n`. */
  function Label(n: nat): (text: string)
    ensures |text| > |LabelSuffix| && text[|text| - |LabelSuffix|..] == LabelSuffix
    ensures LabelNumber(text) == n
  {
    var digits := NatToDecimal(n);
    var text := digits + LabelSuffix;
    assert text[..|text| - |LabelSuffix|] == digits;
    DecimalRoundTrip(n);
    text
  }

  /** The number in label `i` of the slope choices, read back. */
  function LabelNumber(text: string): nat
  {
    if |text| >= |LabelSuffix| then ParseDecimal(text[..|text| - |LabelSuffix|]) else 0
  }

  /** The label the user picks at a choice index names the roll-off of the slope
      that index is cast to; so the four labels are pairwise different. */
  lemma SlopeLabelsNameSlopes()
    ensures forall i :: 0 <= i < 4 ==> LabelNumber(SlopeChoices()[i]) == DbPerOctave(SlopeOfIndex(i))
    ensures forall i, j :: 0 <= i < j < 4 ==> SlopeChoices()[i] != SlopeChoices()[j]
  {
  }

  // ---------------------------------------------------------------------------
  // Parameter layout (`createParameterLayout`).

  /** A continuous range from `start` to `end`, snapped to multiples of
      `interval` above `start`; `skew` only shapes the control's travel. */
  datatype Range = Range(start: real, end: real, interval: real, skew: real)

  datatype Parameter =
    | FloatParameter(id: string, range: Range, defaultValue: real)
    | ChoiceParameter(id: string, choices: seq<string>, defaultIndex: nat)

  /** The raw value a parameter holds before anybody moves it. */
  function DefaultValue(p: Parameter): real
  {
    match p
    case FloatParameter(_, _, v) => v
    case ChoiceParameter(_, _, i) => i as real
  }

  /** `v` lies on the snapping grid of `r`. */
  predicate OnGrid(r: Range, v: real)
    requires r.interval > 0.0
  {
    var steps := (v - r.start) / r.interval;
    steps.Floor as real == steps
  }

  /** `v` is a raw value parameter `p` can hold: inside the range for a float,
      a whole index of one of the choices for a choice. */
  predicate Legal(p: Parameter, v: real)
  {
    match p
    case FloatParameter(_, r, _) => r.start <= v <= r.end
    case ChoiceParameter(_, cs, _) => 0.0 <= v < |cs| as real && v.Floor as real == v
  }

  const LowCutFreqId: string := "LowCut Freq"
  const HighCutFreqId: string := "HighCut Freq"
  const PeakFreqId: string := "Peak Freq"
  const PeakGainId: string := "Peak Gain"
  const PeakQualityId: string := "Peak Quality"
  const LowCutSlopeId: string := "LowCut Slope"
  const HighCutSlopeId: string := "HighCut Slope"

  /** The seven parameters, in registration order. */
  function ParameterLayout(): (layout: seq<Parameter>)
    ensures |layout| == 7
    ensures forall i, j :: 0 <= i < j < |layout| ==> layout[i].id != layout[j].id
    ensures forall i :: 0 <= i < |layout| ==> Legal(layout[i], DefaultValue(layout[i]))
    ensures forall i :: 0 <= i < |layout| && layout[i].FloatParameter? ==>
              var r := layout[i].range;
              r.start < r.end && r.interval > 0.0 && OnGrid(r, layout[i].defaultValue)
  {
    var frequency := Range(20.0, 20000.0, 1.0, 0.25);
    var layout := [
      FloatParameter(LowCutFreqId, frequency, 20.0),
      FloatParameter(HighCutFreqId, frequency, 20000.0),
      FloatParameter(PeakFreqId, frequency, 750.0),
      FloatParameter(PeakGainId, Range(-24.0, 24.0, 0.5, 1.0), 0.0),
      FloatParameter(PeakQualityId, Range(0.1, 10.0, 0.05, 1.0), 1.0),
      ChoiceParameter(LowCutSlopeId, SlopeChoices(), 0),
      ChoiceParameter(HighCutSlopeId, SlopeChoices(), 0)
    ];
    DefaultsOnGrid();
    layout
  }

  /** The float defaults sit on their ranges' grids. */
  lemma DefaultsOnGrid()
    ensures OnGrid(Range(20.0, 20000.0, 1.0, 0.25), 20.0)
    ensures OnGrid(Range(20.0, 20000.0, 1.0, 0.25), 20000.0)
    ensures OnGrid(Range(20.0, 20000.0, 1.0, 0.25), 750.0)
    ensures OnGrid(Range(-24.0, 24.0, 0.5, 1.0), 0.0)
    ensures OnGrid(Range(0.1, 10.0, 0.05, 1.0), 1.0)
  {
    assert (20000.0 - 20.0) / 1.0 == 19980.0;
    assert (750.0 - 20.0) / 1.0 == 730.0;
    assert (0.0 - -24.0) / 0.5 == 48.0;
    assert (1.0 - 0.1) / 0.05 == 18.0;
  }

  /** The parameter registered under `id`, if any. */
  function Lookup(layout: seq<Parameter>, id: string): (r: Option<Parameter>)
    ensures r.Some? ==> r.value in layout && r.value.id == id
    ensures r.None? ==> forall p :: p in layout ==> p.id != id
  {
    if layout == [] then None
    else if layout[0].id == id then Some(layout[0])
    else Lookup(layout[1..], id)
  }

  /** The registered ranges and defaults, by id: the three frequencies span 20 Hz
      to 20 kHz in steps of 1 (defaults 20, 20000 and 750), the gain -24 to 24 dB
      in steps of 0.5 (default 0), the quality 0.1 to 10 in steps of 0.05
      (default 1), and both slopes choose among the four labels, default index 0. */
  lemma ParameterRanges()
    ensures Lookup(ParameterLayout(), LowCutFreqId) == Some(FloatParameter(LowCutFreqId, Range(20.0, 20000.0, 1.0, 0.25), 20.0))
    ensures Lookup(ParameterLayout(), HighCutFreqId) == Some(FloatParameter(HighCutFreqId, Range(20.0, 20000.0, 1.0, 0.25), 20000.0))
    ensures Lookup(ParameterLayout(), PeakFreqId) == Some(FloatParameter(PeakFreqId, Range(20.0, 20000.0, 1.0, 0.25), 750.0))
    ensures Lookup(ParameterLayout(), PeakGainId) == Some(FloatParameter(PeakGainId, Range(-24.0, 24.0, 0.5, 1.0), 0.0))
    ensures Lookup(ParameterLayout(), PeakQualityId) == Some(FloatParameter(PeakQualityId, Range(0.1, 10.0, 0.05, 1.0), 1.0))
    ensures Lookup(ParameterLayout(), LowCutSlopeId) == Some(ChoiceParameter(LowCutSlopeId, SlopeChoices(), 0))
    ensures Lookup(ParameterLayout(), HighCutSlopeId) == Some(ChoiceParameter(HighCutSlopeId, SlopeChoices(), 0))
  {
    var layout := ParameterLayout();
    LookupFindsDistinct(layout, 0);
    LookupFindsDistinct(layout, 1);
    LookupFindsDistinct(layout, 2);
    LookupFindsDistinct(layout, 3);
    LookupFindsDistinct(layout, 4);
    LookupFindsDistinct(layout, 5);
    LookupFindsDistinct(layout, 6);
  }

  /** In a layout with distinct ids, looking up the id of entry `i` finds entry `i`. */
  lemma {:induction false} LookupFindsDistinct(layout: seq<Parameter>, i: nat)
    requires i < |layout|
    requires forall a, b :: 0 <= a < b < |layout| ==> layout[a].id != layout[b].id
    ensures Lookup(layout, layout[i].id) == Some(layout[i])
    decreases |layout|
  {
    if i > 0 {
      var rest := layout[1..];
      assert rest[i - 1] == layout[i];
      LookupFindsDistinct(rest, i - 1);
    }
  }

  /** Raw parameter values by id (the processor's value tree state). */
  type ParameterState = map<string, real>

  /** Every parameter of the layout has a value, and a legal one. */
  predicate WellFormed(state: ParameterState)
  {
    var layout := ParameterLayout();
    forall i :: 0 <= i < |layout| ==> layout[i].id in state && Legal(layout[i], state[layout[i].id])
  }

  /** The state a fresh processor starts in: every parameter at its default. */
  function DefaultState(): (state: ParameterState)
    ensures WellFormed(state)
  {
    var layout := ParameterLayout();
    assert forall i, j :: 0 <= i < |layout| && 0 <= j < |layout| && layout[i].id == layout[j].id ==> i == j;
    map i | 0 <= i < |layout| :: layout[i].id := DefaultValue(layout[i])
  }

  /** `static_cast<Slope>` of a choice parameter's raw value. */
  function SlopeOfRaw(v: real): (s: Slope)
    requires 0.0 <= v < 4.0
    ensures SlopeIndex(s) == v.Floor
  {
    SlopeOfIndex(v.Floor as nat)
  }

  /** `getChainSettings`: one snapshot of the parameter state. Every field lies in
      its parameter's range, so the peak quality the designer sees is positive,
      and each slope is the enum value whose index is the choice index. */
  function GetChainSettings(state: ParameterState): (s: ChainSettings)
    requires WellFormed(state)
    ensures 20.0 <= s.lowCutFreq <= 20000.0 && 20.0 <= s.highCutFreq <= 20000.0
    ensures 20.0 <= s.peakFreq <= 20000.0
    ensures -24.0 <= s.peakGainInDecibels <= 24.0
    ensures 0.1 <= s.peakQuality <= 10.0
    ensures LowCutFreqId in state && s.lowCutFreq == state[LowCutFreqId]
    ensures HighCutFreqId in state && s.highCutFreq == state[HighCutFreqId]
    ensures PeakFreqId in state && s.peakFreq == state[PeakFreqId]
    ensures PeakGainId in state && s.peakGainInDecibels == state[PeakGainId]
    ensures PeakQualityId in state && s.peakQuality == state[PeakQualityId]
    ensures LowCutSlopeId in state && SlopeIndex(s.lowCutSlope) as real == state[LowCutSlopeId]
    ensures HighCutSlopeId in state && SlopeIndex(s.highCutSlope) as real == state[HighCutSlopeId]
  {
    var layout := ParameterLayout();
    assert layout[0].id in state && Legal(layout[0], state[layout[0].id]);
    assert layout[1].id in state && Legal(layout[1], state[layout[1].id]);
    assert layout[2].id in state && Legal(layout[2], state[layout[2].id]);
    assert layout[3].id in state && Legal(layout[3], state[layout[3].id]);
    assert layout[4].id in state && Legal(layout[4], state[layout[4].id]);
    assert layout[5].id in state && Legal(layout[5], state[layout[5].id]);
    assert layout[6].id in state && Legal(layout[6], state[layout[6].id]);
    ChainSettings(
      peakFreq := state[PeakFreqId],
      peakGainInDecibels := state[PeakGainId],
      peakQuality := state[PeakQualityId],
      lowCutFreq := state[LowCutFreqId],
      highCutFreq := state[HighCutFreqId],
      lowCutSlope := SlopeOfRaw(state[LowCutSlopeId]),
      highCutSlope := SlopeOfRaw(state[HighCutSlopeId]))
  }

  /** A processor nobody has touched designs its filters from the defaults:
      low cut at 20 Hz, high cut at 20 kHz, a flat 750 Hz peak of quality 1, and
      both cuts at 12 dB per octave. */
  lemma DefaultSettings()
    ensures GetChainSettings(DefaultState()) ==
      ChainSettings(750.0, 0.0, 1.0, 20.0, 20000.0, Slope12, Slope12)
  {
    var layout := ParameterLayout();
    var state := DefaultState();
    assert state[layout[0].id] == 20.0;
    assert state[layout[1].id] == 20000.0;
    assert state[layout[2].id] == 750.0;
    assert state[layout[3].id] == 0.0;
    assert state[layout[4].id] == 1.0;
    assert state[layout[5].id] == 0.0;
    assert state[layout[6].id] == 0.0;
  }
}
