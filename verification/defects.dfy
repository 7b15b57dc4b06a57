/**
 Fragments of the table fill and of the per-sample read as the plug-in's
 source writes them: the ramp sample expression, the inner loop's counter
 step, the channel of the fill's store, and the read's index arithmetic
 without a clamp. Each comes with the input that separates it from the
 corrected definitions the rest of the model uses. The fill loop's stores
 and the values the unclamped read returns are not modelled.
 */
module AsWritten {
  import opened Interpolation
  import opened Wavetable
  import opened Waveshaper

  /** The outcome of evaluating one ramp sample expression. */
  datatype RampOutcome = DivideByZero | Sample(value: real)

  /**
   The ramp sample expression as written: `((M - 1) / j) * 2.0 - 1.0`, where
   `(M - 1) / j` is an integer division (both operands are `int`), evaluated
   before the conversion to `double`.
   */
  function RampSample(j: int): (r: RampOutcome)
    requires 0 <= j < WaveSize
    ensures r.DivideByZero? <==> j == 0
    ensures r.Sample? ==> 1.0 <= r.value <= (2 * (WaveSize - 1) - 1) as real
  {
    if j == 0 then DivideByZero
    else Sample(((WaveSize - 1) / j) as real * 2.0 - 1.0)
  }

  /**
   Away from the last sample the as-written expression never yields the
   intended ramp value: it is at least 1 where the ramp is below 1.
   */
  lemma RampSampleMissesRamp(j: int)
    requires 0 <= j < WaveSize - 1
    ensures RampSample(j) != Sample(Ramp(j))
  {
    if j > 0 {
      assert Ramp(j) < 1.0;
    }
  }

  /** The first sample divides by zero, the second gives 4093, the middle one gives 1. */
  lemma RampSampleCounterexamples()
    ensures RampSample(0) == DivideByZero
    ensures RampSample(1) == Sample(4093.0) && Ramp(1) < -0.99
    ensures RampSample(WaveSize / 2) == Sample(1.0) && Ramp(WaveSize / 2) < 0.001
  {
  }

  /** The two counters of the ramp fill's nested loops. */
  datatype Counters = Counters(i: int, j: int)

  /**
   One pass of the inner loop as written: the inner loop's increment is
   `i++`, so it advances the wave counter and leaves the sample counter alone.
   */
  function InnerStep(c: Counters): Counters
  {
    Counters(c.i + 1, c.j)
  }

  /** The counters after `steps` passes of the inner loop as written. */
  function InnerRun(c: Counters, steps: nat): Counters
    decreases steps
  {
    if steps == 0 then c else InnerRun(InnerStep(c), steps - 1)
  }

  /**
   However many passes run, the sample counter stays where it started, so
   the inner loop's condition `j < M` never becomes false.
   */
  lemma {:induction false} InnerLoopNeverExits(c: Counters, steps: nat)
    requires 0 <= c.j < WaveSize
    ensures InnerRun(c, steps).j == c.j && InnerRun(c, steps).i == c.i + steps
    ensures InnerRun(c, steps).j < WaveSize
    decreases steps
  {
    if steps > 0 {
      InnerLoopNeverExits(InnerStep(c), steps - 1);
    }
  }

  /**
   The write index `i * M + j` of the inner loop as written passes the end
   of the table after `N` passes from the start of the fill. As written, the
   first pass already divides by zero in the ramp expression (`j` is 0); the
   overrun is what remains once that expression is corrected.
   */
  lemma InnerLoopWritesPastTable()
    ensures var c := InnerRun(Counters(0, 0), WaveAmount);
      c.i * WaveSize + c.j >= TableSize
  {
    InnerLoopNeverExits(Counters(0, 0), WaveAmount);
  }

  /** The number of channels of the buffer the table is allocated in. */
  const TableChannels: int := 1

  /** The channel the ramp fill writes to, and the channel the lookup reads from. */
  const FillChannel: int := 1
  const ReadChannel: int := 0

  /** `setSample(channel, k, v)` is defined only on an existing channel and sample of the buffer. */
  predicate CanSetSample(buf: seq<seq<real>>, channel: int, k: int) {
    0 <= channel < |buf| && 0 <= k < |buf[channel]|
  }

  /** A buffer's `setSample`: sample `k` of `channel` becomes `v`, every other sample stays. */
  function SetSample(buf: seq<seq<real>>, channel: int, k: int, v: real): (out: seq<seq<real>>)
    requires CanSetSample(buf, channel, k)
    ensures |out| == |buf|
    ensures forall c :: 0 <= c < |buf| ==> |out[c]| == |buf[c]|
    ensures out[channel][k] == v
    ensures forall c, n :: (0 <= c < |buf| && 0 <= n < |buf[c]| && (c != channel || n != k)
                            ==> out[c][n] == buf[c][n])
  {
    buf[channel := buf[channel][k := v]]
  }

  /**
   On the one-channel table buffer no store of the ramp fill is defined:
   channel 1 does not exist, whatever the sample index, while every sample
   of channel 0, the one the lookup reads, can be stored, and a store there
   leaves the value where the lookup finds it.
   */
  lemma FillChannelCounterexample(buf: seq<seq<real>>, k: int, v: real)
    requires |buf| == TableChannels
    ensures !CanSetSample(buf, FillChannel, k)
    ensures 0 <= k < |buf[ReadChannel]| ==>
              CanSetSample(buf, ReadChannel, k) && SetSample(buf, ReadChannel, k, v)[ReadChannel][k] == v
  {
  }

  /**
   The four flat indices the block pass computes for a sample `x` and cursor
   `cursor`, with no clamp: `floor`/`ceil` of `(x + 1) / 2 * (M - 1)` and of
   the cursor, combined as `wave * M + sample`.
   */
  function UnclampedCorners(x: real, cursor: real): (ks: seq<int>)
    ensures |ks| == 4
    ensures x > 1.0 ==> ks[0] >= (Ceil(cursor) + 1) * WaveSize
    ensures x < -1.0 ==> ks[3] < cursor.Floor * WaveSize
    ensures x >= -1.0 && cursor > (WaveAmount - 1) as real ==> ks[0] >= TableSize
    ensures x <= 1.0 && cursor < 0.0 ==> ks[3] < 0
  {
    var p := Position(x);
    [Ceil(cursor) * WaveSize + Ceil(p), Ceil(cursor) * WaveSize + p.Floor,
     cursor.Floor * WaveSize + Ceil(p), cursor.Floor * WaveSize + p.Floor]
  }

  /** On in-range samples and cursors the unclamped indices are exactly the ones the model reads. */
  lemma UnclampedCornersAgreeInRange(x: real, cursor: real)
    requires -1.0 <= x <= 1.0 && 0.0 <= cursor <= (WaveAmount - 1) as real
    ensures InDomain(Position(x), cursor)
    ensures UnclampedCorners(x, cursor) == CornerIndices(Position(x), cursor)
  {
    PositionMapsOntoWave(x);
  }

  /**
   Samples outside [-1, 1] make the unclamped read leave the table or its
   wave: -1.5 reads before the table's first slot, 1.5 at cursor 0 reads
   from the second wave, and 1.5 at cursor 255 reads past the table's end.
   The clamped transform reads inside the table at all three.
   */
  lemma UnclampedCornersCounterexamples()
    ensures UnclampedCorners(-1.5, 0.0)[3] < 0
    ensures UnclampedCorners(1.5, 0.0)[0] / WaveSize == 1
    ensures UnclampedCorners(1.5, (WaveAmount - 1) as real)[0] >= TableSize
    ensures var ks := CornerIndices(Position(ClampAmplitude(-1.5)), ClampCursor(0.0));
      forall i :: 0 <= i < |ks| ==> 0 <= ks[i] < TableSize
  {
    assert Position(-1.5) == -511.75;
    assert Position(1.5) == 2558.75;
    PositionMapsOntoWave(ClampAmplitude(-1.5));
  }
}
