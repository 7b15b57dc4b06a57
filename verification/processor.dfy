/**
 The plug-in processor: the state `prepareToPlay` builds (two gain stages,
 the square test wave, the ramp wavetable and the wave cursor) and the block
 pass of `processBlock` (input gain, waveshaping of every channel and
 sample, output gain). Audio buffers are sequences of channels, every
 channel holding the same number of samples.
 */
module Processor {
  import opened Wavetable
  import opened Waveshaper
  import Parameters

  type Buffer = seq<seq<real>>

  /** Samples per channel (zero for a buffer without channels). */
  function NumSamples(b: Buffer): nat {
    if |b| == 0 then 0 else |b[0]|
  }

  /** Every channel holds the same number of samples, as in an audio buffer. */
  predicate IsBuffer(b: Buffer) {
    forall c :: 0 <= c < |b| ==> |b[c]| == NumSamples(b)
  }

  /** Same channel count and, channel by channel, the same sample count. */
  predicate SameShape(a: Buffer, b: Buffer) {
    |a| == |b| && forall c :: 0 <= c < |a| ==> |a[c]| == |b[c]|
  }

  /**
   The waveshaping pass, in place: channel by channel and sample by sample,
   each sample is replaced by its transform. Each output sample depends only
   on the input sample at the same place, the table and the cursor.
   */
  method ShapeBlock(buffer: Buffer, table: seq<real>, cursor: real) returns (out: Buffer)
    requires IsBuffer(buffer) && ValidTable(table)
    ensures SameShape(out, buffer) && IsBuffer(out)
    ensures forall c, n :: (0 <= c < |buffer| && 0 <= n < |buffer[c]|
                            ==> out[c][n] == Transform(table, buffer[c][n], cursor))
  {
    out := buffer;
    var i := 0;
    while i < |out|
      invariant 0 <= i <= |buffer|
      invariant SameShape(out, buffer)
      invariant forall c, n :: (0 <= c < i && 0 <= n < |buffer[c]|
                              ==> out[c][n] == Transform(table, buffer[c][n], cursor))
      invariant forall c :: i <= c < |buffer| ==> out[c] == buffer[c]
    {
      var j := 0;
      while j < NumSamples(buffer)
        invariant 0 <= j <= NumSamples(buffer)
        invariant SameShape(out, buffer)
        invariant forall c, n :: (0 <= c < i && 0 <= n < |buffer[c]|
                                ==> out[c][n] == Transform(table, buffer[c][n], cursor))
        invariant forall c :: i < c < |buffer| ==> out[c] == buffer[c]
        invariant forall n :: 0 <= n < j ==> out[i][n] == Transform(table, buffer[i][n], cursor)
        invariant forall n :: j <= n < |buffer[i]| ==> out[i][n] == buffer[i][n]
      {
        var inSample := out[i][j];
        var outSample := Transform(table, inSample, cursor);
        out := out[i := out[i][j := outSample]];
        j := j + 1;
      }
      i := i + 1;
    }
  }

  /**
   A gain stage once its smoothing has settled: every sample multiplied by
   the stage's level.
   */
  function ApplyGain(b: Buffer, level: real): (out: Buffer)
    ensures SameShape(out, b)
    ensures IsBuffer(b) ==> IsBuffer(out)
    ensures forall c, n :: 0 <= c < |b| && 0 <= n < |b[c]| ==> out[c][n] == level * b[c][n]
  {
    seq(|b|, c requires 0 <= c < |b| => seq(|b[c]|, n requires 0 <= n < |b[c]| => level * b[c][n]))
  }

  /** A settled gain of one leaves the buffer as it was. */
  lemma UnityGainIsIdentity(b: Buffer)
    ensures ApplyGain(b, 1.0) == b
  {
    var out := ApplyGain(b, 1.0);
    forall c | 0 <= c < |b|
      ensures out[c] == b[c]
    {
    }
  }

  /** Two gain stages in a row act as one stage at the product of their levels. */
  lemma GainsCompose(b: Buffer, first: real, second: real)
    ensures ApplyGain(ApplyGain(b, first), second) == ApplyGain(b, second * first)
  {
    var lhs, rhs := ApplyGain(ApplyGain(b, first), second), ApplyGain(b, second * first);
    forall c | 0 <= c < |b|
      ensures lhs[c] == rhs[c]
    {
      forall n | 0 <= n < |b[c]|
        ensures lhs[c][n] == rhs[c][n]
      {
        assert lhs[c][n] == second * (first * b[c][n]);
      }
    }
  }

  /** A non-zero gain is undone by the gain at its reciprocal. */
  lemma GainInverse(b: Buffer, level: real)
    requires level != 0.0
    ensures ApplyGain(ApplyGain(b, level), 1.0 / level) == b
  {
    var inverse := 1.0 / level;
    assert inverse * level == 1.0;
    GainsCompose(b, level, inverse);
    assert ApplyGain(b, inverse * level) == ApplyGain(b, 1.0);
    UnityGainIsIdentity(b);
  }

  /**
   The processor's state between blocks: the two gain stages' levels, the
   square test wave, the flat wavetable, and the wave cursor
   (`wavetable_index`), a plain value.
   */
  datatype State = State(inGain: real, gain: real, shapingWave: seq<real>, wavetable: seq<real>, wavetableIndex: real)

  /**
   Preparation for playback: both gain stages start at the default gain
   over 100, the test wave is the square wave, every wave of the table is the
   ramp, and the cursor is 0.
   */
  method PrepareToPlay() returns (s: State)
    ensures s.inGain == 0.5 && s.gain == 0.5
    ensures |s.shapingWave| == WaveSize
    ensures forall k :: 0 <= k < WaveSize ==> s.shapingWave[k] == SquareValue(k)
    ensures IsRampTable(s.wavetable)
    ensures s.wavetableIndex == 0.0
  {
    var level := Parameters.NormaliseGain(Parameters.DefaultOf(Parameters.Gain));
    var square, _ := FillSquare();
    var ramps := FillRamps();
    s := State(level, level, square, ramps, 0.0);
  }

  /** The current value of parameter `p` in a snapshot indexed by enumerator value. */
  function ParamValue(values: seq<real>, p: Parameters.Param): real
    requires |values| == Parameters.TotalNumberParameters
  {
    values[Parameters.Ordinal(p)]
  }

  /**
   The parameter read at the top of a block: GAIN and INGAIN divided by 100
   become the levels of the output and input gain stages; nothing else of
   the state changes.
   */
  function SetGains(s: State, values: seq<real>): (s': State)
    requires |values| == Parameters.TotalNumberParameters
    ensures s'.gain * 100.0 == ParamValue(values, Parameters.Gain)
    ensures s'.inGain * 100.0 == ParamValue(values, Parameters.InGain)
    ensures s'.shapingWave == s.shapingWave && s'.wavetable == s.wavetable
    ensures s'.wavetableIndex == s.wavetableIndex
  {
    s.(inGain := Parameters.NormaliseGain(ParamValue(values, Parameters.InGain)),
       gain := Parameters.NormaliseGain(ParamValue(values, Parameters.Gain)))
  }

  /**
   One block: set the gain stages from the parameters, then rewrite the
   buffer three times, as the block pass does in place: the input gain
   stage gives `gained`, the waveshaping pass at the stored cursor gives
   `shaped`, the output gain stage gives `out`. Every shaped sample is the
   transform of the gained sample at the same place; with the ramp table in
   place that is the gained sample saturated to [-1, 1]. The tables and the
   cursor are left as they were.
   */
  method ProcessBlock(s: State, buffer: Buffer, values: seq<real>)
    returns (s': State, out: Buffer, ghost gained: Buffer, ghost shaped: Buffer)
    requires ValidTable(s.wavetable) && IsBuffer(buffer)
    requires |values| == Parameters.TotalNumberParameters
    ensures s' == SetGains(s, values)
    ensures gained == ApplyGain(buffer, s'.inGain)
    ensures SameShape(shaped, buffer) && IsBuffer(shaped)
    ensures forall c, n :: (0 <= c < |buffer| && 0 <= n < |buffer[c]|
                            ==> shaped[c][n] == Transform(s'.wavetable, gained[c][n], s'.wavetableIndex))
    ensures IsRampTable(s'.wavetable) ==>
      forall c, n :: (0 <= c < |buffer| && 0 <= n < |buffer[c]|
                      ==> shaped[c][n] == ClampAmplitude(gained[c][n]))
    ensures out == ApplyGain(shaped, s'.gain)
  {
    s' := SetGains(s, values);
    var afterInGain := ApplyGain(buffer, s'.inGain);
    var afterShaping := ShapeBlock(afterInGain, s'.wavetable, s'.wavetableIndex);
    out := ApplyGain(afterShaping, s'.gain);
    gained, shaped := afterInGain, afterShaping;
    RampShapingSaturates(gained, shaped, s'.wavetable, s'.wavetableIndex);
  }

  /** Through a ramp table the shaping pass saturates every sample to [-1, 1]. */
  lemma RampShapingSaturates(gained: Buffer, shaped: Buffer, table: seq<real>, cursor: real)
    requires ValidTable(table)
    requires SameShape(shaped, gained)
    requires forall c, n :: (0 <= c < |gained| && 0 <= n < |gained[c]|
                             ==> shaped[c][n] == Transform(table, gained[c][n], cursor))
    ensures IsRampTable(table) ==>
      forall c, n :: (0 <= c < |gained| && 0 <= n < |gained[c]|
                      ==> shaped[c][n] == ClampAmplitude(gained[c][n]))
  {
    if IsRampTable(table) {
      forall c, n | 0 <= c < |gained| && 0 <= n < |gained[c]|
        ensures shaped[c][n] == ClampAmplitude(gained[c][n])
      {
        RampTransformIsClamp(table, gained[c][n], cursor);
      }
    }
  }
}
