/**
 The plug-in's parameter registry: the `PARAM` enumeration and the constant
 tables indexed by it (identifiers, names, ranges, defaults and display data).
 Every table is a sequence whose position `i` belongs to the parameter whose
 ordinal is `i`, exactly as the C++ `std::array`s are indexed by the enum.
 */
module Parameters {

  /** The three parameters, in declaration order. */
  datatype Param = InGain | Gain | Index

  /** `TOTAL_NUMBER_PARAMETERS`, the enumerator that follows the last parameter. */
  const TotalNumberParameters: nat := 3

  /** The enumerator value of a parameter. */
  function Ordinal(p: Param): (i: nat)
    ensures i < TotalNumberParameters
    ensures p == InGain <==> i == 0
    ensures p == Gain <==> i == 1
  {
    match p
    case InGain => 0
    case Gain => 1
    case Index => 2
  }

  /** The parameter whose enumerator value is `i`. */
  function FromOrdinal(i: nat): (p: Param)
    requires i < TotalNumberParameters
    ensures Ordinal(p) == i
  {
    if i == 0 then InGain else if i == 1 then Gain else Index
  }

  /** Ordinal and FromOrdinal are mutually inverse: the enum is a bijection onto [0, 3). */
  lemma OrdinalRoundTrip(p: Param)
    ensures FromOrdinal(Ordinal(p)) == p
  {
  }

  /**
   A `juce::NormalisableRange<float>(start, end, interval, skew)`: values from
   `start` to `end`, snapped to multiples of `interval` when it is positive.
   */
  datatype Range = Range(start: real, end: real, interval: real, skew: real)
  {
    predicate Contains(v: real) {
      start <= v <= end
    }

    /** The value the range lets through when `v` is requested: the nearest end for a value outside it. */
    function Clamp(v: real): (r: real)
      requires start <= end
      ensures Contains(r)
      ensures Contains(v) ==> r == v
      ensures v < start ==> r == start
      ensures v > end ==> r == end
    {
      if v < start then start else if v > end then end else v
    }
  }

  const ParameterIds: seq<string> := ["INGAIN", "GAIN", "INDEX"]
  const ParameterNames: seq<string> := ["INGAIN", "GAIN", "INDEX"]
  const ParameterRanges: seq<Range> := [
    Range(0.0, 100.0, 0.0, 1.0),
    Range(0.0, 100.0, 0.0, 1.0),
    Range(0.0, 255.0, 1.0, 1.0)
  ]
  const ParameterDefaults: seq<real> := [50.0, 50.0, 0.0]
  const ParameterAutomatable: seq<bool> := [true, true, true]
  const ParameterNicknames: seq<string> := ["Input Gain", "Output Gain", "Index"]
  const ParameterSuffixes: seq<string> := ["%", "%", ""]
  const ParameterTooltips: seq<string> := ["Input Loudness Parameter", "Output Loudness Parameter", "Wavetable Index"]

  /** Each table has one entry per enumerator, so indexing any of them by `Ordinal(p)` is in bounds. */
  lemma TablesHaveOneEntryPerParameter()
    ensures |ParameterIds| == TotalNumberParameters
    ensures |ParameterNames| == TotalNumberParameters
    ensures |ParameterRanges| == TotalNumberParameters
    ensures |ParameterDefaults| == TotalNumberParameters
    ensures |ParameterAutomatable| == TotalNumberParameters
    ensures |ParameterNicknames| == TotalNumberParameters
    ensures |ParameterSuffixes| == TotalNumberParameters
    ensures |ParameterTooltips| == TotalNumberParameters
  {
  }

  /** The identifier of a parameter, as the host sees it. */
  function Id(p: Param): (id: string)
    ensures id == ParameterNames[Ordinal(p)]
    ensures id in {"INGAIN", "GAIN", "INDEX"}
  {
    ParameterIds[Ordinal(p)]
  }

  /** The declared range of a parameter. */
  function RangeOf(p: Param): (r: Range)
    ensures r.start == 0.0 && r.start < r.end
    ensures r.end == (if p == Index then 255.0 else 100.0)
  {
    ParameterRanges[Ordinal(p)]
  }

  /** The value a parameter starts with. */
  function DefaultOf(p: Param): (d: real)
    ensures RangeOf(p).Contains(d)
    ensures p != Index ==> d == RangeOf(p).end / 2.0
    ensures p == Index ==> d == RangeOf(p).start
  {
    ParameterDefaults[Ordinal(p)]
  }

  /** Distinct parameters have distinct identifiers, so an identifier names one parameter. */
  lemma IdsAreDistinct(p: Param, q: Param)
    ensures Id(p) == Id(q) <==> p == q
  {
  }

  /** The identifier table and the name table agree entry by entry. */
  lemma IdsMatchNames()
    ensures forall i :: 0 <= i < TotalNumberParameters ==> ParameterIds[i] == ParameterNames[i]
  {
  }

  /**
   A gain parameter's value in [0, 100] divided by 100: the multiplier the
   block pass hands to the gain stages.
   */
  function NormaliseGain(v: real): (g: real)
    ensures g * 100.0 == v
    ensures RangeOf(Gain).Contains(v) <==> 0.0 <= g <= 1.0
  {
    v / 100.0
  }

  /** Both gains start at one half. */
  lemma DefaultGainsAreHalf()
    ensures NormaliseGain(DefaultOf(Gain)) == 0.5
    ensures NormaliseGain(DefaultOf(InGain)) == 0.5
  {
  }
}
