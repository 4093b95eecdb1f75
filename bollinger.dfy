/**
 * The Bollinger Bands engine of lib/indicators/bollinger.ts.
 *
 * Each helper of the source (`sma`, `standardDeviation`, `applyOffset`) is a
 * method with the source's loops, proved equal to a pure specification
 * function (`MovingAverage`, `SampleStdDev`, `Shifted`). `computeBollingerBands`
 * is a composition of maps and helpers and is modelled as a pure function over
 * those specifications.
 *
 * `Math.sqrt` is passed in as the parameter `sqrt`; `IsSqrt` says what a
 * square root is, and the lemmas that need its meaning require it.
 */
module Bollinger {
  import opened Wrappers
  import opened Types

  // ---------------------------------------------------------------------------
  // Sums over a window, accumulated left to right as the source's loops do
  // ---------------------------------------------------------------------------

  /** The sum of `s`, adding the elements from first to last. */
  function Sum(s: seq<real>): real
  {
    if |s| == 0 then 0.0 else Sum(s[..|s| - 1]) + s[|s| - 1]
  }

  /** The sum of the squared deviations of the elements of `s` from `mean`. */
  function SquaredDeviations(s: seq<real>, mean: real): real
  {
    if |s| == 0 then 0.0
    else SquaredDeviations(s[..|s| - 1], mean) + (s[|s| - 1] - mean) * (s[|s| - 1] - mean)
  }

  /** Extending the window `s[lo..j]` by `s[j]` adds `s[j]` to its sum. */
  lemma SumExtend(s: seq<real>, lo: int, j: int)
    requires 0 <= lo <= j < |s|
    ensures Sum(s[lo..j + 1]) == Sum(s[lo..j]) + s[j]
  {
    assert s[lo..j + 1][..j - lo] == s[lo..j];
  }

  /** Extending the window `s[lo..j]` by `s[j]` adds its squared deviation. */
  lemma SquaredDeviationsExtend(s: seq<real>, mean: real, lo: int, j: int)
    requires 0 <= lo <= j < |s|
    ensures SquaredDeviations(s[lo..j + 1], mean)
         == SquaredDeviations(s[lo..j], mean) + (s[j] - mean) * (s[j] - mean)
  {
    assert s[lo..j + 1][..j - lo] == s[lo..j];
  }

  /** The window of `period` values that ends at index `i` (inclusive). */
  function Window(values: seq<real>, period: int, i: int): (w: seq<real>)
    requires 1 <= period && period - 1 <= i < |values|
    ensures |w| == period
    ensures forall k :: 0 <= k < period ==> w[k] == values[i - period + 1 + k]
  {
    values[i - period + 1..i + 1]
  }

  /** The inner `for (let j = lo; j < hi; j++) sum += values[j]` loop. */
  method WindowSum(values: seq<real>, lo: int, hi: int) returns (sum: real)
    requires 0 <= lo <= hi <= |values|
    ensures sum == Sum(values[lo..hi])
  {
    sum := 0.0;
    for j := lo to hi
      invariant sum == Sum(values[lo..j])
    {
      SumExtend(values, lo, j);
      sum := sum + values[j];
    }
  }

  /** The inner loop accumulating `Math.pow(values[j] - mean, 2)` over `values[lo..hi]`. */
  method WindowSquaredDeviations(values: seq<real>, mean: real, lo: int, hi: int) returns (variance: real)
    requires 0 <= lo <= hi <= |values|
    ensures variance == SquaredDeviations(values[lo..hi], mean)
  {
    variance := 0.0;
    for j := lo to hi
      invariant variance == SquaredDeviations(values[lo..j], mean)
    {
      SquaredDeviationsExtend(values, mean, lo, j);
      variance := variance + (values[j] - mean) * (values[j] - mean);
    }
  }

  // ---------------------------------------------------------------------------
  // Stage 1: field selection
  // ---------------------------------------------------------------------------

  /** The price of `candle` named by `source`; an unrecognized name selects `close`. */
  function SelectPrice(candle: Ohlcv, source: PriceSource): (p: real)
    ensures p in {candle.open, candle.high, candle.low, candle.close}
    ensures source == Open ==> p == candle.open
    ensures source == High ==> p == candle.high
    ensures source == Low ==> p == candle.low
    ensures source == Close || source == Unrecognized ==> p == candle.close
  {
    match source
    case Open => candle.open
    case High => candle.high
    case Low => candle.low
    case Close => candle.close
    case Unrecognized => candle.close
  }

  /** The source series: one selected price per candle, in candle order. */
  function SourceValues(data: seq<Ohlcv>, source: PriceSource): (values: seq<real>)
    ensures |values| == |data|
    ensures forall i :: 0 <= i < |data| ==> values[i] == SelectPrice(data[i], source)
  {
    seq(|data|, i requires 0 <= i < |data| => SelectPrice(data[i], source))
  }

  // ---------------------------------------------------------------------------
  // Stage 2: the rolling simple moving average
  // ---------------------------------------------------------------------------

  /** The simple moving average at index `i`: NaN before a full window exists. */
  function SmaAt(values: seq<real>, period: int, i: int): Num
    requires period >= 1 && 0 <= i < |values|
  {
    if i < period - 1 then NaN
    else Finite(Sum(Window(values, period, i)) / (period as real))
  }

  /** The specification of `sma`. */
  function MovingAverage(values: seq<real>, period: int): (r: seq<Num>)
    requires period >= 1
    ensures |r| == |values|
    ensures forall i :: 0 <= i < |values| ==> (r[i].NaN? <==> i < period - 1)
    ensures |values| < period ==> forall i :: 0 <= i < |values| ==> r[i] == NaN
  {
    seq(|values|, i requires 0 <= i < |values| => SmaAt(values, period, i))
  }

  /** `sma(values, period)`: the source's nested loops. */
  method Sma(values: seq<real>, period: int) returns (result: seq<Num>)
    requires period >= 1
    ensures result == MovingAverage(values, period)
  {
    result := [];
    for i := 0 to |values|
      invariant |result| == i
      invariant forall k :: 0 <= k < i ==> result[k] == SmaAt(values, period, k)
    {
      if i < period - 1 {
        result := result + [NaN];
        continue;
      }
      var sum := WindowSum(values, i - period + 1, i + 1);
      result := result + [Finite(sum / (period as real))];
    }
  }

  // ---------------------------------------------------------------------------
  // Stage 3: the rolling sample standard deviation
  // ---------------------------------------------------------------------------

  /**
   * What it means for `sqrt` to be `Math.sqrt` on the non-negative reals. The
   * root of 0 follows from the first conjunct; it is stated because the
   * solver does not derive it.
   */
  ghost predicate IsSqrt(sqrt: real -> real)
  {
    (forall x: real :: 0.0 <= x ==> 0.0 <= sqrt(x) && sqrt(x) * sqrt(x) == x) &&
    sqrt(0.0) == 0.0
  }

  /** The sample variance of the full window ending at `i` (N - 1 denominator). */
  function SampleVariance(values: seq<real>, period: int, i: int): real
    requires period >= 2 && period - 1 <= i < |values|
  {
    var w := Window(values, period, i);
    SquaredDeviations(w, Sum(w) / (period as real)) / ((period - 1) as real)
  }

  /**
   * The standard deviation at index `i`: NaN before a full window exists, and
   * NaN everywhere when `period == 1`, where the variance is 0 / 0.
   */
  function StdDevAt(values: seq<real>, period: int, sqrt: real -> real, i: int): Num
    requires period >= 1 && 0 <= i < |values|
  {
    if i < period - 1 || period == 1 then NaN
    else Finite(sqrt(SampleVariance(values, period, i)))
  }

  /** The specification of `standardDeviation`. */
  function SampleStdDev(values: seq<real>, period: int, sqrt: real -> real): (r: seq<Num>)
    requires period >= 1
    ensures |r| == |values|
    ensures forall i :: 0 <= i < |values| ==> (r[i].NaN? <==> i < period - 1 || period == 1)
  {
    seq(|values|, i requires 0 <= i < |values| => StdDevAt(values, period, sqrt, i))
  }

  /**
   * With a window of one value the mean is that value, so the sum of squared
   * deviations that `standardDeviation` divides by `period - 1 == 0` is exactly
   * zero: JavaScript evaluates 0 / 0, which is NaN (and `Math.sqrt(NaN)` is NaN).
   */
  lemma SingleWindowHasNoDeviation(values: seq<real>, i: int)
    requires 0 <= i < |values|
    ensures SquaredDeviations(values[i..i + 1], Sum(values[i..i + 1]) / 1.0) == 0.0
  {
    var w := values[i..i + 1];
    assert w[..0] == [];
    assert Sum(w) == values[i];
  }

  /** `standardDeviation(values, period)`: the source's three nested loops. */
  method StandardDeviation(values: seq<real>, period: int, sqrt: real -> real) returns (result: seq<Num>)
    requires period >= 1
    ensures result == SampleStdDev(values, period, sqrt)
  {
    result := [];
    for i := 0 to |values|
      invariant |result| == i
      invariant forall k :: 0 <= k < i ==> result[k] == StdDevAt(values, period, sqrt, k)
    {
      if i < period - 1 {
        result := result + [NaN];
        continue;
      }
      var lo := i - period + 1;
      var sum := WindowSum(values, lo, i + 1);
      var mean := sum / (period as real);
      var variance := WindowSquaredDeviations(values, mean, lo, i + 1);
      if period == 1 {
        // the division below is 0 / 0
        SingleWindowHasNoDeviation(values, i);
        assert variance == 0.0;
        result := result + [NaN];
      } else {
        result := result + [Finite(sqrt(variance / ((period - 1) as real)))];
      }
    }
  }

  // ---------------------------------------------------------------------------
  // Stage 4: band assembly, offset and merge
  // ---------------------------------------------------------------------------

  /**
   * `basisValues.map(...)` for the upper band; `stdDev[i]` out of range reads as
   * `undefined`, for which `isNaN` is true.
   */
  function UpperBand(basis: seq<Num>, stdDev: seq<Num>, multiplier: real): (r: seq<Num>)
    ensures |r| == |basis|
    ensures forall i :: 0 <= i < |basis| ==>
      (r[i].NaN? <==> basis[i].NaN? || i >= |stdDev| || stdDev[i].NaN?)
  {
    seq(|basis|, i requires 0 <= i < |basis| =>
      if basis[i].NaN? || i >= |stdDev| || stdDev[i].NaN? then NaN
      else Finite(basis[i].value + multiplier * stdDev[i].value))
  }

  /** `basisValues.map(...)` for the lower band. */
  function LowerBand(basis: seq<Num>, stdDev: seq<Num>, multiplier: real): (r: seq<Num>)
    ensures |r| == |basis|
    ensures forall i :: 0 <= i < |basis| ==>
      (r[i].NaN? <==> basis[i].NaN? || i >= |stdDev| || stdDev[i].NaN?)
  {
    seq(|basis|, i requires 0 <= i < |basis| =>
      if basis[i].NaN? || i >= |stdDev| || stdDev[i].NaN? then NaN
      else Finite(basis[i].value - multiplier * stdDev[i].value))
  }

  /**
   * The specification of `applyOffset`: slot `t` holds `data[t - offset]` when
   * that index exists, and is a hole otherwise.
   */
  function Shifted<T>(data: seq<T>, offset: int): (r: seq<Option<T>>)
    ensures |r| == |data|
    ensures offset == 0 ==> forall i :: 0 <= i < |data| ==> r[i] == Some(data[i])
    ensures offset > 0 ==> forall t :: offset <= t < |data| ==> r[t] == Some(data[t - offset])
    ensures offset > 0 ==> forall t :: 0 <= t < |data| && t < offset ==> r[t] == None
    ensures offset < 0 ==> forall i :: 0 <= i < |data| && i - offset < |data| ==>
      r[i] == Some(data[i - offset])
    ensures offset < 0 ==> forall i :: 0 <= i < |data| && |data| <= i - offset ==> r[i] == None
  {
    seq(|data|, t requires 0 <= t < |data| =>
      if 0 <= t - offset < |data| then Some(data[t - offset]) else None)
  }

  /**
   * `applyOffset(data, offset)`: a fresh array of `data.length` holes, filled by
   * index. With offset 0 the source returns `data` itself, which has no holes.
   */
  method ApplyOffset<T>(data: seq<T>, offset: int) returns (result: seq<Option<T>>)
    ensures result == Shifted(data, offset)
  {
    if offset == 0 {
      return seq(|data|, i requires 0 <= i < |data| => Some(data[i]));
    }
    var slots := new Option<T>[|data|](_ => None);
    if offset > 0 {
      for i := 0 to |data|
        invariant forall t :: 0 <= t < |data| ==>
          slots[t] == if offset <= t < i + offset then Some(data[t - offset]) else None
      {
        var targetIndex := i + offset;
        if targetIndex < |data| {
          slots[targetIndex] := Some(data[i]);
        }
      }
    } else {
      for i := 0 to |data|
        invariant forall t :: 0 <= t < |data| ==>
          slots[t] == if t < i && t - offset < |data| then Some(data[t - offset]) else None
      {
        var sourceIndex := i - offset;
        if sourceIndex < |data| {
          slots[i] := Some(data[sourceIndex]);
        }
      }
    }
    result := slots[..];
  }

  /**
   * `slot || NaN`: a hole (`undefined`), NaN and 0 are all falsy in JavaScript,
   * so each of them becomes NaN; any other value is kept.
   */
  function OrNaN(slot: Option<Num>): (r: Num)
    ensures r.Finite? <==> slot.Some? && slot.value.Finite? && slot.value.value != 0.0
    ensures r.Finite? ==> r == slot.value
  {
    match slot
    case None => NaN
    case Some(NaN) => NaN
    case Some(Finite(v)) => if v == 0.0 then NaN else Finite(v)
  }

  /**
   * `data.map((candle, i) => ...)`: pairs each candle's timestamp with slot `i`
   * of the three shifted series, each passed through `|| NaN`.
   */
  function Merge(data: seq<Ohlcv>, basis: seq<Option<Num>>, upper: seq<Option<Num>>, lower: seq<Option<Num>>)
    : (r: seq<BollingerBandsData>)
    requires |basis| == |upper| == |lower| == |data|
    ensures |r| == |data|
    ensures forall i :: 0 <= i < |data| ==> r[i].timestamp == data[i].timestamp
    ensures forall i :: 0 <= i < |data| ==> r[i].basis.Finite? ==> basis[i] == Some(r[i].basis)
    ensures forall i :: 0 <= i < |data| ==> r[i].upper.Finite? ==> upper[i] == Some(r[i].upper)
    ensures forall i :: 0 <= i < |data| ==> r[i].lower.Finite? ==> lower[i] == Some(r[i].lower)
    ensures forall i :: 0 <= i < |data| ==>
      r[i].basis == OrNaN(basis[i]) && r[i].upper == OrNaN(upper[i]) && r[i].lower == OrNaN(lower[i])
  {
    seq(|data|, i requires 0 <= i < |data| =>
      BollingerBandsData(data[i].timestamp, OrNaN(basis[i]), OrNaN(upper[i]), OrNaN(lower[i])))
  }

  /**
   * The last stage of `computeBollingerBands`: the upper and lower bands from
   * the basis and standard-deviation series, the offset applied to all three,
   * and the merge against the candles.
   */
  function AssembleBands(data: seq<Ohlcv>, basisValues: seq<Num>, stdDevValues: seq<Num>, multiplier: real, offset: int)
    : (r: seq<BollingerBandsData>)
    requires |basisValues| == |data|
    ensures |r| == |data|
    ensures forall i :: 0 <= i < |data| ==> r[i].timestamp == data[i].timestamp
  {
    var upperValues := UpperBand(basisValues, stdDevValues, multiplier);
    var lowerValues := LowerBand(basisValues, stdDevValues, multiplier);
    var offsetBasis := Shifted(basisValues, offset);
    var offsetUpper := Shifted(upperValues, offset);
    var offsetLower := Shifted(lowerValues, offset);
    Merge(data, offsetBasis, offsetUpper, offsetLower)
  }

  /** `computeBollingerBands(data, inputs)`. */
  function ComputeBollingerBands(data: seq<Ohlcv>, inputs: BollingerBandsInputs, sqrt: real -> real)
    : (r: seq<BollingerBandsData>)
    requires inputs.length >= 1
    ensures |r| == |data|
    ensures forall i :: 0 <= i < |data| ==> r[i].timestamp == data[i].timestamp
  {
    if |data| == 0 then []
    else
      var sourceValues := SourceValues(data, inputs.source);
      var basisValues := MovingAverage(sourceValues, inputs.length);
      var stdDevValues := SampleStdDev(sourceValues, inputs.length, sqrt);
      AssembleBands(data, basisValues, stdDevValues, inputs.stdDevMultiplier, inputs.offset)
  }
}
