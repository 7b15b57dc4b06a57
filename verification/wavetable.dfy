/**
 The wavetable: `WaveAmount` waves of `WaveSize` samples each, stored one
 after the other in a single flat channel, and the bilinear read the block
 pass performs on it. Also the two table fills done when playback is
 prepared: the square test wave and the ramp initialisation.
 */
module Wavetable {
  import opened Interpolation
  import Parameters

  /** `MAX_WAVE_SIZE`: samples per wave. */
  const WaveSize: int := 2048
  /** `MAX_WAVE_AMOUNT`: waves in the table. */
  const WaveAmount: int := 256
  /** Length of the flat channel allocated for the whole table. */
  const TableSize: int := WaveSize * WaveAmount

  predicate ValidTable(t: seq<real>) {
    |t| == TableSize
  }

  /** Where sample `sample` of wave `wave` lives in the flat table: `wave * MAX_WAVE_SIZE + sample`. */
  function FlatIndex(wave: int, sample: int): (k: nat)
    requires 0 <= wave < WaveAmount && 0 <= sample < WaveSize
    ensures k < TableSize
    ensures k / WaveSize == wave && k % WaveSize == sample
  {
    wave * WaveSize + sample
  }

  /** Every slot of the table belongs to exactly one (wave, sample) pair. */
  lemma FlatIndexCovers(k: int)
    requires 0 <= k < TableSize
    ensures 0 <= k / WaveSize < WaveAmount
    ensures FlatIndex(k / WaveSize, k % WaveSize) == k
  {
  }

  /** The stored value of sample `sample` of wave `wave`. */
  function Cell(t: seq<real>, wave: int, sample: int): real
    requires ValidTable(t)
    requires 0 <= wave < WaveAmount && 0 <= sample < WaveSize
  {
    t[FlatIndex(wave, sample)]
  }

  /** Coordinates the lookup may be given: a position inside one wave and a cursor inside the table. */
  predicate InDomain(position: real, cursor: real) {
    0.0 <= position <= (WaveSize - 1) as real
    && 0.0 <= cursor <= (WaveAmount - 1) as real
  }

  /**
   The four flat indices the lookup reads, in the order
   (higher wave, higher sample), (higher wave, lower sample),
   (lower wave, higher sample), (lower wave, lower sample).
   */
  function CornerIndices(position: real, cursor: real): (ks: seq<int>)
    requires InDomain(position, cursor)
    ensures |ks| == 4
    ensures forall i :: 0 <= i < 4 ==> 0 <= ks[i] < TableSize
  {
    var s := Split(position);
    var w := Split(cursor);
    [FlatIndex(w.higher, s.higher), FlatIndex(w.higher, s.lower),
     FlatIndex(w.lower, s.higher), FlatIndex(w.lower, s.lower)]
  }

  /**
   The bilinear read: blend the two samples around `position` in each of the
   two waves around `cursor`, then blend the two waves.
   */
  function Lookup(t: seq<real>, position: real, cursor: real): (r: real)
    requires ValidTable(t) && InDomain(position, cursor)
    ensures (forall k :: 0 <= k < |t| ==> t[k] == t[0]) ==> r == t[0]
  {
    var s := Split(position);
    var w := Split(cursor);
    var higherWaveSample := Blend(s, Cell(t, w.higher, s.lower), Cell(t, w.higher, s.higher));
    var lowerWaveSample := Blend(s, Cell(t, w.lower, s.lower), Cell(t, w.lower, s.higher));
    Blend(w, lowerWaveSample, higherWaveSample)
  }

  /**
   The lookup is a convex combination of the four cells it reads: the
   result lies between the smallest and the largest of them.
   */
  lemma LookupConvex(t: seq<real>, position: real, cursor: real)
    requires ValidTable(t) && InDomain(position, cursor)
    ensures var ks := CornerIndices(position, cursor);
      var r := Lookup(t, position, cursor);
      Min(Min(t[ks[0]], t[ks[1]]), Min(t[ks[2]], t[ks[3]])) <= r
      && r <= Max(Max(t[ks[0]], t[ks[1]]), Max(t[ks[2]], t[ks[3]]))
  {
  }

  /** At whole-number coordinates the lookup returns the stored cell itself. */
  lemma LookupAtGridPoint(t: seq<real>, sample: nat, wave: nat)
    requires ValidTable(t)
    requires sample < WaveSize && wave < WaveAmount
    ensures Lookup(t, sample as real, wave as real) == Cell(t, wave, sample)
  {
    SplitAtGridLine(sample);
    SplitAtGridLine(wave);
  }

  /** Half-way between two samples of one wave the lookup returns their mean. */
  lemma LookupAtMidpoint(t: seq<real>, sample: nat, wave: nat)
    requires ValidTable(t)
    requires sample + 1 < WaveSize && wave < WaveAmount
    ensures Lookup(t, sample as real + 0.5, wave as real)
         == (Cell(t, wave, sample) + Cell(t, wave, sample + 1)) / 2.0
  {
    SplitAtMidpoint(sample);
    SplitAtGridLine(wave);
  }

  /** If every table value lies in [lo, hi], so does every lookup. */
  lemma LookupBounded(t: seq<real>, position: real, cursor: real, lo: real, hi: real)
    requires ValidTable(t) && InDomain(position, cursor)
    requires forall k :: 0 <= k < |t| ==> lo <= t[k] <= hi
    ensures lo <= Lookup(t, position, cursor) <= hi
  {
    var ks := CornerIndices(position, cursor);
    LookupConvex(t, position, cursor);
    assert lo <= t[ks[0]] <= hi && lo <= t[ks[1]] <= hi;
    assert lo <= t[ks[2]] <= hi && lo <= t[ks[3]] <= hi;
  }

  /** The straight line through (0, -1) and (M - 1, 1) on which the intended ramp samples lie. */
  function RampLine(position: real): real {
    2.0 * position / (WaveSize - 1) as real - 1.0
  }

  /** The ramp line is affine with slope 2/(M - 1) and offset -1. */
  lemma RampLineIsAffine(position: real)
    ensures RampLine(position) == 2.0 / (WaveSize - 1) as real * position + (-1.0)
  {
  }

  /** The value the ramp initialisation intends for sample `j` of every wave: `2j/(M-1) - 1`. */
  function Ramp(j: int): real {
    RampLine(j as real)
  }

  /** The ramp runs from -1 at the first sample to 1 at the last, rising strictly in between. */
  lemma RampShape(j: int, k: int)
    requires 0 <= j < k < WaveSize
    ensures Ramp(0) == -1.0 && Ramp(WaveSize - 1) == 1.0
    ensures -1.0 <= Ramp(j) < Ramp(k) <= 1.0
  {
  }

  /** Every wave of the table holds the ramp. */
  predicate IsRampTable(t: seq<real>) {
    ValidTable(t)
    && forall w, s :: 0 <= w < WaveAmount && 0 <= s < WaveSize ==> t[FlatIndex(w, s)] == Ramp(s)
  }

  /** Blending two neighbouring samples of one ramp wave gives the ramp line at the position. */
  lemma RampRowIsLine(t: seq<real>, wave: int, position: real)
    requires IsRampTable(t) && 0 <= wave < WaveAmount
    requires 0.0 <= position <= (WaveSize - 1) as real
    ensures var s := Split(position);
      Blend(s, Cell(t, wave, s.lower), Cell(t, wave, s.higher)) == RampLine(position)
  {
    var s := Split(position);
    assert Cell(t, wave, s.lower) == Ramp(s.lower);
    assert Cell(t, wave, s.higher) == Ramp(s.higher);
    BlendOfRamp(s);
    SplitReconstructs(position);
  }

  /** Blending the ramp values at an axis' two grid lines gives the ramp line at the selected point. */
  lemma BlendOfRamp(a: Axis)
    requires a.WellFormed()
    ensures Blend(a, Ramp(a.lower), Ramp(a.higher)) == RampLine(a.Point())
  {
    var slope := 2.0 / (WaveSize - 1) as real;
    RampLineIsAffine(a.lower as real);
    RampLineIsAffine(a.higher as real);
    RampLineIsAffine(a.Point());
    BlendOfLine(a, slope, -1.0);
  }

  /**
   Reading a ramp table interpolates the ramp linearly: at any position the
   result is the ramp's straight line at that position, whatever the cursor.
   */
  lemma RampLookupIsLine(t: seq<real>, position: real, cursor: real)
    requires IsRampTable(t) && InDomain(position, cursor)
    ensures Lookup(t, position, cursor) == RampLine(position)
  {
    var w := Split(cursor);
    RampRowIsLine(t, w.lower, position);
    RampRowIsLine(t, w.higher, position);
  }

  /**
   The ramp initialisation: for every wave `i` and every sample `j`, store
   `Ramp(j)` at `i * M + j` of a table of `N * M` slots.
   */
  method FillRamps() returns (t: seq<real>)
    ensures IsRampTable(t)
  {
    t := seq(TableSize, k => 0.0);
    var i := 0;
    while i < WaveAmount
      invariant 0 <= i <= WaveAmount
      invariant |t| == TableSize
      invariant forall w, s :: 0 <= w < i && 0 <= s < WaveSize ==> t[FlatIndex(w, s)] == Ramp(s)
    {
      var j := 0;
      while j < WaveSize
        invariant 0 <= j <= WaveSize
        invariant |t| == TableSize
        invariant forall w, s :: 0 <= w < i && 0 <= s < WaveSize ==> t[FlatIndex(w, s)] == Ramp(s)
        invariant forall s :: 0 <= s < j ==> t[FlatIndex(i, s)] == Ramp(s)
      {
        t := t[FlatIndex(i, j) := Ramp(j)];
        j := j + 1;
      }
      i := i + 1;
    }
  }

  /** The square test wave: the first half of the wave at 0.9, the second half at -0.9. */
  function SquareValue(k: int): real {
    if k < WaveSize / 2 then 0.9 else -0.9
  }

  /** One store into a wave: `value` written at `index`. */
  datatype Store = Store(index: int, value: real)

  /** Every store of the list lands inside a wave of `size` samples. */
  predicate StoresInRange(stores: seq<Store>, size: int) {
    forall a :: 0 <= a < |stores| ==> 0 <= stores[a].index < size
  }

  /** The wave after applying `stores` to `w` in order. */
  function Replay(w: seq<real>, stores: seq<Store>): (r: seq<real>)
    requires StoresInRange(stores, |w|)
    ensures |r| == |w|
    decreases |stores|
  {
    if |stores| == 0 then w
    else
      var last := stores[|stores| - 1];
      Replay(w, stores[..|stores| - 1])[last.index := last.value]
  }

  /**
   The `a`-th store of the square fill: pass `a / 2` stores 0.9 at its
   counter first, then -0.9 at the mirrored index.
   */
  function SquareStore(a: nat): Store {
    if a % 2 == 0 then Store(a / 2, 0.9) else Store(WaveSize - 1 - a / 2, -0.9)
  }

  /** A wave of `WaveSize` samples, all zero, as the cleared buffer holds it. */
  function ClearedWave(): (w: seq<real>)
    ensures |w| == WaveSize
  {
    seq(WaveSize, k => 0.0)
  }

  /** After `i` passes of the square fill: the first and last `i` samples are set. */
  predicate SquareValuesSoFar(wave: seq<real>, i: int) {
    0 <= i <= WaveSize / 2
    && |wave| == WaveSize
    && (forall k :: 0 <= k < i ==> wave[k] == 0.9)
    && (forall k :: WaveSize - i <= k < WaveSize ==> wave[k] == -0.9)
  }

  /** After `i` passes of the square fill: its `2i` stores, in order, replay to `wave`. */
  predicate SquareStoresSoFar(wave: seq<real>, stores: seq<Store>, i: int) {
    |stores| == 2 * i
    && (forall a :: 0 <= a < |stores| ==> stores[a] == SquareStore(a))
    && StoresInRange(stores, WaveSize)
    && wave == Replay(ClearedWave(), stores)
  }

  /** One pass of the square fill keeps the stored values. */
  lemma SquarePassValues(wave: seq<real>, i: int)
    requires 0 <= i < WaveSize / 2 && SquareValuesSoFar(wave, i)
    ensures SquareValuesSoFar(wave[i := 0.9][(WaveSize - i) - 1 := -0.9], i + 1)
  {
  }

  /** One pass of the square fill extends the store list by its two stores. */
  lemma SquarePassStores(wave: seq<real>, stores: seq<Store>, i: int)
    requires 0 <= i < WaveSize / 2 && SquareStoresSoFar(wave, stores, i)
    ensures SquareStoresSoFar(wave[i := 0.9][(WaveSize - i) - 1 := -0.9],
                              stores + [Store(i, 0.9), Store((WaveSize - i) - 1, -0.9)], i + 1)
  {
    var first, second := Store(i, 0.9), Store((WaveSize - i) - 1, -0.9);
    var stores' := stores + [first, second];
    assert first == SquareStore(2 * i) && second == SquareStore(2 * i + 1);
    assert forall a :: 0 <= a < |stores'| ==> stores'[a] == SquareStore(a);
    ReplayPair(ClearedWave(), stores, first, second);
  }

  /** Replaying two more stores is two more updates of the replayed wave. */
  lemma ReplayPair(w: seq<real>, stores: seq<Store>, first: Store, second: Store)
    requires StoresInRange(stores, |w|) && 0 <= first.index < |w| && 0 <= second.index < |w|
    ensures StoresInRange(stores + [first, second], |w|)
    ensures Replay(w, stores + [first, second])
         == Replay(w, stores)[first.index := first.value][second.index := second.value]
  {
    ReplayAppend(w, stores, first);
    ReplayAppend(w, stores + [first], second);
    assert stores + [first] + [second] == stores + [first, second];
  }

  /**
   The square test-wave fill: a cleared wave, then for `i` in the first half
   the pair of stores `i := 0.9` and `M - 1 - i := -0.9`. `stores` lists the
   stores in the order they are made, and replaying them on the cleared wave
   gives the result: every index of the wave is stored exactly once.
   */
  method FillSquare() returns (wave: seq<real>, ghost stores: seq<Store>)
    ensures |wave| == WaveSize
    ensures forall k :: 0 <= k < WaveSize ==> wave[k] == SquareValue(k)
    ensures |stores| == WaveSize && StoresInRange(stores, WaveSize)
    ensures forall a :: 0 <= a < |stores| ==> stores[a] == SquareStore(a)
    ensures wave == Replay(ClearedWave(), stores)
    ensures forall a, b :: 0 <= a < b < |stores| ==> stores[a].index != stores[b].index
  {
    wave := ClearedWave();
    stores := [];
    var i := 0;
    while i < WaveSize / 2
      invariant 0 <= i <= WaveSize / 2
      invariant SquareValuesSoFar(wave, i)
      invariant SquareStoresSoFar(wave, stores, i)
    {
      SquarePassValues(wave, i);
      SquarePassStores(wave, stores, i);
      wave := wave[i := 0.9];
      wave := wave[(WaveSize - i) - 1 := -0.9];
      stores := stores + [Store(i, 0.9), Store((WaveSize - i) - 1, -0.9)];
      i := i + 1;
    }
    SquareStoresDistinct(stores);
  }

  /** The square fill's stores hit pairwise different indices. */
  lemma SquareStoresDistinct(stores: seq<Store>)
    requires forall a :: 0 <= a < |stores| ==> stores[a] == SquareStore(a)
    requires |stores| <= WaveSize
    ensures forall a, b :: 0 <= a < b < |stores| ==> stores[a].index != stores[b].index
  {
    forall a, b | 0 <= a < b < |stores|
      ensures stores[a].index != stores[b].index
    {
      assert stores[a] == SquareStore(a) && stores[b] == SquareStore(b);
    }
  }

  /** Replaying one more store is one more update of the replayed wave. */
  lemma ReplayAppend(w: seq<real>, stores: seq<Store>, s: Store)
    requires StoresInRange(stores, |w|) && 0 <= s.index < |w|
    ensures StoresInRange(stores + [s], |w|)
    ensures Replay(w, stores + [s]) == Replay(w, stores)[s.index := s.value]
  {
    assert (stores + [s])[..|stores|] == stores;
  }

  /** The INDEX parameter's declared range is exactly the cursor domain of the lookup. */
  lemma IndexRangeIsCursorDomain(cursor: real)
    ensures Parameters.RangeOf(Parameters.Index).Contains(cursor)
        <==> 0.0 <= cursor <= (WaveAmount - 1) as real
    ensures Parameters.RangeOf(Parameters.Index).interval == 1.0
  {
  }
}
