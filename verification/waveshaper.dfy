/**
 The per-sample transfer function of the block pass: an input amplitude is
 turned into a position inside one wave, and the wavetable is read there at
 the current wave cursor. Amplitudes and cursors are clamped to the table's
 domain before the read, so every read stays inside the table.
 */
module Waveshaper {
  import opened Interpolation
  import opened Wavetable
  import Parameters

  /** Amplitude to wave position: `(x + 1) / 2 * (M - 1)`. */
  function Position(x: real): (p: real)
    ensures RampLine(p) == x
  {
    (x + 1.0) / 2.0 * (WaveSize - 1) as real
  }

  /**
   The position map sends [-1, 1] exactly onto [0, M - 1], -1 to the first
   sample and 1 to the last.
   */
  lemma PositionMapsOntoWave(x: real)
    ensures -1.0 <= x <= 1.0 <==> 0.0 <= Position(x) <= (WaveSize - 1) as real
    ensures x == -1.0 <==> Position(x) == 0.0
    ensures x == 1.0 <==> Position(x) == (WaveSize - 1) as real
  {
  }

  /** The position map preserves order strictly, so distinct amplitudes land on distinct positions. */
  lemma PositionIncreasing(x: real, y: real)
    ensures x < y <==> Position(x) < Position(y)
  {
  }

  /** The position map undoes the ramp line: it is the ramp's inverse on the whole wave. */
  lemma PositionInvertsRampLine(p: real)
    ensures Position(RampLine(p)) == p
  {
  }

  /** The nearest amplitude in [-1, 1]. */
  function ClampAmplitude(x: real): (c: real)
    ensures -1.0 <= c <= 1.0
    ensures -1.0 <= x <= 1.0 ==> c == x
    ensures x < -1.0 ==> c == -1.0
    ensures x > 1.0 ==> c == 1.0
  {
    if x < -1.0 then -1.0 else if x > 1.0 then 1.0 else x
  }

  /** The nearest cursor in the table's wave domain [0, N - 1]. */
  function ClampCursor(cursor: real): (c: real)
    ensures 0.0 <= c <= (WaveAmount - 1) as real
    ensures 0.0 <= cursor <= (WaveAmount - 1) as real ==> c == cursor
    ensures cursor < 0.0 ==> c == 0.0
    ensures cursor > (WaveAmount - 1) as real ==> c == (WaveAmount - 1) as real
  {
    if cursor < 0.0 then 0.0 else if cursor > (WaveAmount - 1) as real then (WaveAmount - 1) as real else cursor
  }

  /** Clamping the cursor is clamping to the INDEX parameter's declared range. */
  lemma ClampCursorIsIndexRangeClamp(cursor: real)
    ensures ClampCursor(cursor) == Parameters.RangeOf(Parameters.Index).Clamp(cursor)
  {
  }

  /**
   The transform applied to one sample: clamp, map to a position, read the
   table. The clamped coordinates always lie in the lookup's domain.
   */
  function Transform(t: seq<real>, x: real, cursor: real): (y: real)
    requires ValidTable(t)
    ensures -1.0 <= x <= 1.0 && 0.0 <= cursor <= (WaveAmount - 1) as real
            ==> InDomain(Position(x), cursor) && y == Lookup(t, Position(x), cursor)
  {
    PositionMapsOntoWave(ClampAmplitude(x));
    Lookup(t, Position(ClampAmplitude(x)), ClampCursor(cursor))
  }

  /**
   The transform sees only the clamped inputs: an amplitude beyond 1 shapes
   like 1, one below -1 like -1, and a cursor outside [0, N - 1] reads the
   nearest end wave.
   */
  lemma TransformSaturates(t: seq<real>, x: real, cursor: real)
    requires ValidTable(t)
    ensures Transform(t, x, cursor) == Transform(t, ClampAmplitude(x), ClampCursor(cursor))
    ensures x > 1.0 ==> Transform(t, x, cursor) == Transform(t, 1.0, cursor)
    ensures x < -1.0 ==> Transform(t, x, cursor) == Transform(t, -1.0, cursor)
    ensures cursor > (WaveAmount - 1) as real ==> Transform(t, x, cursor) == Transform(t, x, (WaveAmount - 1) as real)
    ensures cursor < 0.0 ==> Transform(t, x, cursor) == Transform(t, x, 0.0)
  {
  }

  /** Every table slot the transform reads is inside the table, for every amplitude and cursor. */
  lemma TransformReadsInBounds(x: real, cursor: real)
    ensures InDomain(Position(ClampAmplitude(x)), ClampCursor(cursor))
    ensures var ks := CornerIndices(Position(ClampAmplitude(x)), ClampCursor(cursor));
      forall i :: 0 <= i < |ks| ==> 0 <= ks[i] < TableSize
  {
  }

  /** If every table value lies in [lo, hi], every transformed sample does too. */
  lemma TransformBounded(t: seq<real>, x: real, cursor: real, lo: real, hi: real)
    requires ValidTable(t)
    requires forall k :: 0 <= k < |t| ==> lo <= t[k] <= hi
    ensures lo <= Transform(t, x, cursor) <= hi
  {
    LookupBounded(t, Position(ClampAmplitude(x)), ClampCursor(cursor), lo, hi);
  }

  /**
   With the ramp in every wave the transform is the identity on [-1, 1],
   whatever the cursor; outside [-1, 1] it saturates at the nearest end.
   */
  lemma RampTransformIsClamp(t: seq<real>, x: real, cursor: real)
    requires IsRampTable(t)
    ensures Transform(t, x, cursor) == ClampAmplitude(x)
    ensures -1.0 <= x <= 1.0 ==> Transform(t, x, cursor) == x
  {
    var c := ClampAmplitude(x);
    PositionMapsOntoWave(c);
    var p, k := Position(c), ClampCursor(cursor);
    assert Transform(t, x, cursor) == Lookup(t, p, k);
    RampLookupIsLine(t, p, k);
  }
}
