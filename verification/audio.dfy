/** Plain-value stand-in for the audio buffers the equaliser moves around: a
    buffer is one sequence of samples per channel. Sample values are real numbers;
    floating-point rounding is outside this model. */
module Audio {

  /** `AudioBuffer[c][i]` is sample `i` of channel `c`. */
  type AudioBuffer = seq<seq<real>>

  /** A buffer of `numChannels` channels holding `numSamples` zero samples each
      (what a buffer looks like after it has been sized and cleared). */
  function Silence(numChannels: nat, numSamples: nat): (b: AudioBuffer)
    ensures |b| == numChannels
    ensures forall c :: 0 <= c < numChannels ==> |b[c]| == numSamples
    ensures forall c, i :: 0 <= c < numChannels && 0 <= i < numSamples ==> b[c][i] == 0.0
  {
    seq(numChannels, _ => seq(numSamples, _ => 0.0))
  }

  /** Channel `ch` of `b` overwritten with zeros, every other channel untouched. */
  function ClearChannel(b: AudioBuffer, ch: nat): (r: AudioBuffer)
    requires ch < |b|
    ensures |r| == |b|
    ensures |r[ch]| == |b[ch]| && forall i :: 0 <= i < |r[ch]| ==> r[ch][i] == 0.0
    ensures forall c :: 0 <= c < |b| && c != ch ==> r[c] == b[c]
  {
    b[ch := seq(|b[ch]|, _ => 0.0)]
  }
}
