/**
 * Properties of the Bollinger Bands engine: exact windows, the shared
 * "insufficient history" prefix, the behaviour of the bands and of the offset,
 * and the quirks of the `|| NaN` merge and of a window of one value.
 */
module BollingerProperties {
  import opened Wrappers
  import opened Types
  import opened Bollinger

  // ---------------------------------------------------------------------------
  // Sums of constant and linearly rising windows
  // ---------------------------------------------------------------------------

  /** A window whose values all equal `c` sums to `|s| * c`. */
  lemma {:induction false} SumOfConstant(s: seq<real>, c: real)
    requires forall k :: 0 <= k < |s| ==> s[k] == c
    ensures Sum(s) == (|s| as real) * c
  {
    if |s| > 0 {
      SumOfConstant(s[..|s| - 1], c);
    }
  }

  /** Squared deviations of a constant window from its own value vanish. */
  lemma {:induction false} SquaredDeviationsOfConstant(s: seq<real>, c: real)
    requires forall k :: 0 <= k < |s| ==> s[k] == c
    ensures SquaredDeviations(s, c) == 0.0
  {
    if |s| > 0 {
      SquaredDeviationsOfConstant(s[..|s| - 1], c);
    }
  }

  /** Squared deviations are never negative, so neither is the sample variance. */
  lemma {:induction false} SquaredDeviationsNonNegative(s: seq<real>, mean: real)
    ensures SquaredDeviations(s, mean) >= 0.0
  {
    if |s| > 0 {
      SquaredDeviationsNonNegative(s[..|s| - 1], mean);
      var x := s[|s| - 1] - mean;
      if x < 0.0 {
        assert x * x == (-x) * (-x);
      }
      assert x * x >= 0.0;
    }
  }

  /** The sum of a concatenation is the sum of the parts. */
  lemma {:induction false} SumConcat(a: seq<real>, b: seq<real>)
    ensures Sum(a + b) == Sum(a) + Sum(b)
  {
    if |b| > 0 {
      assert (a + b)[..|a + b| - 1] == a + b[..|b| - 1];
      SumConcat(a, b[..|b| - 1]);
    } else {
      assert a + b == a;
    }
  }

  /**
   * Sliding the window one step to the right adds the value that enters it
   * and drops the value that leaves it: the running-sum formulation of the
   * same moving average.
   */
  lemma WindowSumSlides(values: seq<real>, period: int, i: int)
    requires period >= 1 && period - 1 <= i && i + 1 < |values|
    ensures Sum(Window(values, period, i + 1))
         == Sum(Window(values, period, i)) + values[i + 1] - values[i + 1 - period]
  {
    var lo := i - period + 1;
    var w := Window(values, period, i);
    var w' := Window(values, period, i + 1);
    assert w == [values[lo]] + w'[..period - 1];
    assert w' == w'[..period - 1] + [values[i + 1]];
    SumConcat([values[lo]], w'[..period - 1]);
    SumConcat(w'[..period - 1], [values[i + 1]]);
    assert Sum([values[lo]]) == values[lo] by { assert [values[lo]][..0] == []; }
    assert Sum([values[i + 1]]) == values[i + 1] by { assert [values[i + 1]][..0] == []; }
  }

  /** A window rising by 1 per step from `a` sums to `n * a + n * (n - 1) / 2`. */
  lemma {:induction false} SumOfRamp(s: seq<real>, a: real)
    requires forall k :: 0 <= k < |s| ==> s[k] == a + k as real
    ensures Sum(s) == (|s| as real) * a + (|s| as real) * ((|s| - 1) as real) / 2.0
  {
    if |s| > 0 {
      var n := |s| as real;
      SumOfRamp(s[..|s| - 1], a);
      assert Sum(s) == (n - 1.0) * a + (n - 1.0) * (n - 2.0) / 2.0 + (a + (n - 1.0));
    }
  }

  /**
   * The squared deviations of a window rising by 1 per step from `mean + d`:
   * `n * d^2 + d * n * (n - 1) + (n - 1) * n * (2n - 1) / 6`.
   */
  lemma {:induction false} SquaredDeviationsOfRamp(s: seq<real>, mean: real, d: real)
    requires forall k :: 0 <= k < |s| ==> s[k] == mean + d + k as real
    ensures var n := |s| as real;
      SquaredDeviations(s, mean) == n * d * d + d * n * (n - 1.0) + (n - 1.0) * n * (2.0 * n - 1.0) / 6.0
  {
    if |s| > 0 {
      var n := |s| as real;
      SquaredDeviationsOfRamp(s[..|s| - 1], mean, d);
      var e := d + (n - 1.0);
      assert s[|s| - 1] - mean == e;
      calc {
        SquaredDeviations(s, mean);
        SquaredDeviations(s[..|s| - 1], mean) + e * e;
        (n - 1.0) * d * d + d * (n - 1.0) * (n - 2.0) + (n - 2.0) * (n - 1.0) * (2.0 * n - 3.0) / 6.0 + e * e;
        { assert e * e == d * d + 2.0 * d * (n - 1.0) + (n - 1.0) * (n - 1.0); }
        n * d * d + d * n * (n - 1.0) + (n - 1.0) * n * (2.0 * n - 1.0) / 6.0;
      }
    }
  }

  // ---------------------------------------------------------------------------
  // The simple moving average (sma)
  // ---------------------------------------------------------------------------

  /** Every full window of a constant series averages to that constant. */
  lemma SmaOfConstantSeries(values: seq<real>, period: int, c: real, i: int)
    requires period >= 1 && period - 1 <= i < |values|
    requires forall k :: 0 <= k < |values| ==> values[k] == c
    ensures MovingAverage(values, period)[i] == Finite(c)
  {
    SumOfConstant(Window(values, period, i), c);
  }

  /** With a window of one value the moving average reproduces its input. */
  lemma SmaWindowOfOne(values: seq<real>, i: int)
    requires 0 <= i < |values|
    ensures MovingAverage(values, 1)[i] == Finite(values[i])
  {
    var w := Window(values, 1, i);
    assert w[..0] == [];
    assert Sum(w) == values[i];
    assert MovingAverage(values, 1)[i] == SmaAt(values, 1, i);
  }

  /** On a series rising by 1 per step the average lags the last value by `(period - 1) / 2`. */
  lemma SmaOfRamp(values: seq<real>, period: int, a: real, i: int)
    requires period >= 1 && period - 1 <= i < |values|
    requires forall k :: 0 <= k < |values| ==> values[k] == a + k as real
    ensures MovingAverage(values, period)[i] == Finite(a + i as real - ((period - 1) as real) / 2.0)
  {
    var w := Window(values, period, i);
    var start := a + (i - period + 1) as real;
    SumOfRamp(w, start);
    var p := period as real;
    var mean := start + (p - 1.0) / 2.0;
    assert Sum(w) == p * mean;
    assert Sum(w) / p == mean;
    assert MovingAverage(values, period)[i] == SmaAt(values, period, i);
  }

  // ---------------------------------------------------------------------------
  // The sample standard deviation (standardDeviation)
  // ---------------------------------------------------------------------------

  /** A window of one value gives NaN at every index: the variance is 0 / 0. */
  lemma StdDevOfWindowOfOne(values: seq<real>, sqrt: real -> real)
    ensures forall i :: 0 <= i < |values| ==> SampleStdDev(values, 1, sqrt)[i] == NaN
  {
  }

  /** The sample variance of a full window with `period >= 2` is non-negative. */
  lemma SampleVarianceNonNegative(values: seq<real>, period: int, i: int)
    requires period >= 2 && period - 1 <= i < |values|
    ensures SampleVariance(values, period, i) >= 0.0
  {
    var w := Window(values, period, i);
    SquaredDeviationsNonNegative(w, Sum(w) / (period as real));
    var num := SquaredDeviations(w, Sum(w) / (period as real));
    assert num / ((period - 1) as real) >= 0.0;
  }

  /** At a defined index the standard deviation is the non-negative root of the sample variance. */
  lemma StdDevIsRootOfVariance(values: seq<real>, period: int, sqrt: real -> real, i: int)
    requires IsSqrt(sqrt)
    requires period >= 2 && period - 1 <= i < |values|
    ensures SampleStdDev(values, period, sqrt)[i].Finite?
    ensures var sd := SampleStdDev(values, period, sqrt)[i].value;
      sd >= 0.0 && sd * sd == SampleVariance(values, period, i)
  {
    SampleVarianceNonNegative(values, period, i);
  }

  /** A constant series has standard deviation 0 at every defined index. */
  lemma StdDevOfConstantSeries(values: seq<real>, period: int, sqrt: real -> real, c: real, i: int)
    requires IsSqrt(sqrt)
    requires period >= 2 && period - 1 <= i < |values|
    requires forall k :: 0 <= k < |values| ==> values[k] == c
    ensures SampleStdDev(values, period, sqrt)[i] == Finite(0.0)
  {
    var w := Window(values, period, i);
    SumOfConstant(w, c);
    assert Sum(w) / (period as real) == c;
    SquaredDeviationsOfConstant(w, c);
    assert SampleVariance(values, period, i) == 0.0;
    assert SampleStdDev(values, period, sqrt)[i] == StdDevAt(values, period, sqrt, i);
  }

  /** For `period >= 2` the basis and the standard deviation are defined at exactly the same indices. */
  lemma BasisAndStdDevDefinedTogether(values: seq<real>, period: int, sqrt: real -> real, i: int)
    requires period >= 2 && 0 <= i < |values|
    ensures MovingAverage(values, period)[i].Finite? <==> SampleStdDev(values, period, sqrt)[i].Finite?
    ensures MovingAverage(values, period)[i].Finite? <==> i >= period - 1
  {
  }

  // ---------------------------------------------------------------------------
  // Upper and lower bands (before the offset)
  // ---------------------------------------------------------------------------

  /**
   * Where the upper band is defined the lower band is too, and both lie
   * `multiplier * stdDev` away from the basis, on either side.
   */
  lemma BandsSymmetric(basis: seq<Num>, stdDev: seq<Num>, m: real, i: int)
    requires |stdDev| == |basis| && 0 <= i < |basis|
    ensures UpperBand(basis, stdDev, m)[i].Finite? <==> LowerBand(basis, stdDev, m)[i].Finite?
    ensures UpperBand(basis, stdDev, m)[i].Finite? ==>
      UpperBand(basis, stdDev, m)[i].value - basis[i].value == m * stdDev[i].value &&
      basis[i].value - LowerBand(basis, stdDev, m)[i].value == m * stdDev[i].value
  {
  }

  /** A zero multiplier collapses both bands onto the basis wherever the deviation is defined. */
  lemma BandsWithZeroMultiplier(values: seq<real>, period: int, sqrt: real -> real, i: int)
    requires period >= 2 && period - 1 <= i < |values|
    ensures var basis := MovingAverage(values, period);
      var stdDev := SampleStdDev(values, period, sqrt);
      UpperBand(basis, stdDev, 0.0)[i] == basis[i] && LowerBand(basis, stdDev, 0.0)[i] == basis[i]
  {
  }

  /** With a non-negative multiplier the bands enclose the basis. */
  lemma BandsEncloseBasis(values: seq<real>, period: int, sqrt: real -> real, m: real, i: int)
    requires IsSqrt(sqrt) && m >= 0.0
    requires period >= 2 && period - 1 <= i < |values|
    ensures var basis := MovingAverage(values, period);
      var stdDev := SampleStdDev(values, period, sqrt);
      LowerBand(basis, stdDev, m)[i].value <= basis[i].value <= UpperBand(basis, stdDev, m)[i].value
  {
    StdDevIsRootOfVariance(values, period, sqrt, i);
    var sd := SampleStdDev(values, period, sqrt)[i].value;
    assert m * sd >= 0.0;
  }

  /** With a window of one value neither band is ever defined, although the basis is. */
  lemma BandsWithWindowOfOne(values: seq<real>, sqrt: real -> real, m: real, i: int)
    requires 0 <= i < |values|
    ensures var basis := MovingAverage(values, 1);
      var stdDev := SampleStdDev(values, 1, sqrt);
      basis[i].Finite? && UpperBand(basis, stdDev, m)[i] == NaN && LowerBand(basis, stdDev, m)[i] == NaN
  {
  }

  /** For a constant series with `period >= 2`, basis, upper and lower all equal the constant. */
  lemma BandsOfConstantSeries(values: seq<real>, period: int, sqrt: real -> real, m: real, c: real, k: int)
    requires IsSqrt(sqrt)
    requires period >= 2 && period - 1 <= k < |values|
    requires forall j :: 0 <= j < |values| ==> values[j] == c
    ensures var basis := MovingAverage(values, period);
      var stdDev := SampleStdDev(values, period, sqrt);
      basis[k] == Finite(c) && UpperBand(basis, stdDev, m)[k] == Finite(c) && LowerBand(basis, stdDev, m)[k] == Finite(c)
  {
    SmaOfConstantSeries(values, period, c, k);
    StdDevOfConstantSeries(values, period, sqrt, c, k);
  }

  /** The bands at index 19 of a series rising by 1 from 100, with length 20 and multiplier 2. */
  lemma BandsOfRamp(values: seq<real>, sqrt: real -> real)
    requires IsSqrt(sqrt)
    requires |values| >= 20 && forall j :: 0 <= j < |values| ==> values[j] == 100.0 + j as real
    ensures var basis := MovingAverage(values, 20);
      var stdDev := SampleStdDev(values, 20, sqrt);
      basis[19] == Finite(109.5) &&
      UpperBand(basis, stdDev, 2.0)[19] == Finite(109.5 + 2.0 * sqrt(35.0)) &&
      LowerBand(basis, stdDev, 2.0)[19] == Finite(109.5 - 2.0 * sqrt(35.0)) &&
      0.0 < 109.5 - 2.0 * sqrt(35.0)
  {
    SmaOfRamp(values, 20, 100.0, 19);
    RampVarianceOfTwenty(values, 100.0, 19);
    var s := sqrt(35.0);
    assert 0.0 <= s && s * s == 35.0;
    // s < 6 since s * s == 35 < 36
    assert (6.0 - s) * (6.0 + s) == 1.0;
    assert s < 6.0;
  }

  /** The sample variance of 20 consecutive values rising by 1 is 35. */
  lemma RampVarianceOfTwenty(values: seq<real>, a: real, i: int)
    requires 19 <= i < |values|
    requires forall k :: 0 <= k < |values| ==> values[k] == a + k as real
    ensures SampleVariance(values, 20, i) == 35.0
  {
    var w := Window(values, 20, i);
    var start := a + (i - 19) as real;
    SumOfRamp(w, start);
    var mean := Sum(w) / 20.0;
    assert mean == start + 9.5;
    SquaredDeviationsOfRamp(w, mean, -9.5);
    assert SquaredDeviations(w, mean) == 665.0;
  }

  // ---------------------------------------------------------------------------
  // The whole engine (computeBollingerBands)
  // ---------------------------------------------------------------------------

  /** Slot `t` of a shifted series holds the value `offset` places before it, when there is one. */
  lemma ShiftedAt<T>(data: seq<T>, offset: int, t: int)
    requires 0 <= t < |data| && 0 <= t - offset < |data|
    ensures Shifted(data, offset)[t] == Some(data[t - offset])
  {
  }

  /**
   * Assembled point `i` carries the three bands computed at index `i - offset`,
   * each passed through `|| NaN`.
   */
  lemma AssembledFromSource(data: seq<Ohlcv>, basis: seq<Num>, stdDev: seq<Num>, m: real, offset: int, i: int)
    requires |basis| == |data| && 0 <= i < |data| && 0 <= i - offset < |data|
    ensures var out := AssembleBands(data, basis, stdDev, m, offset)[i];
      out.basis == OrNaN(Some(basis[i - offset])) &&
      out.upper == OrNaN(Some(UpperBand(basis, stdDev, m)[i - offset])) &&
      out.lower == OrNaN(Some(LowerBand(basis, stdDev, m)[i - offset]))
  {
    var upper := UpperBand(basis, stdDev, m);
    var lower := LowerBand(basis, stdDev, m);
    ShiftedAt(basis, offset, i);
    ShiftedAt(upper, offset, i);
    ShiftedAt(lower, offset, i);
  }

  /** Assembled point `i` is NaN in all three bands when index `i - offset` does not exist. */
  lemma AssembledWithoutSource(data: seq<Ohlcv>, basis: seq<Num>, stdDev: seq<Num>, m: real, offset: int, i: int)
    requires |basis| == |data| && 0 <= i < |data|
    requires i - offset < 0 || |data| <= i - offset
    ensures var out := AssembleBands(data, basis, stdDev, m, offset)[i];
      out.basis == NaN && out.upper == NaN && out.lower == NaN
  {
  }

  /** For non-empty data the engine is the assembly stage applied to the basis and standard deviation. */
  lemma EngineStages(data: seq<Ohlcv>, inputs: BollingerBandsInputs, sqrt: real -> real)
    requires inputs.length >= 1 && |data| > 0
    ensures var values := SourceValues(data, inputs.source);
      ComputeBollingerBands(data, inputs, sqrt)
      == AssembleBands(data, MovingAverage(values, inputs.length), SampleStdDev(values, inputs.length, sqrt),
                       inputs.stdDevMultiplier, inputs.offset)
  {
  }

  /**
   * When source index `i - offset` does not exist, or has fewer than `length`
   * values up to it, output point `i` is NaN in all three bands.
   */
  lemma InsufficientHistoryIsNaN(data: seq<Ohlcv>, inputs: BollingerBandsInputs, sqrt: real -> real, i: int)
    requires inputs.length >= 1 && 0 <= i < |data|
    requires i - inputs.offset < inputs.length - 1 || |data| <= i - inputs.offset
    ensures var out := ComputeBollingerBands(data, inputs, sqrt)[i];
      out.basis == NaN && out.upper == NaN && out.lower == NaN
  {
    var values := SourceValues(data, inputs.source);
    var basis := MovingAverage(values, inputs.length);
    var stdDev := SampleStdDev(values, inputs.length, sqrt);
    var m, offset := inputs.stdDevMultiplier, inputs.offset;
    EngineStages(data, inputs, sqrt);
    if 0 <= i - offset < |data| {
      AssembledFromSource(data, basis, stdDev, m, offset, i);
      assert basis[i - offset] == NaN;
      assert UpperBand(basis, stdDev, m)[i - offset] == NaN;
      assert LowerBand(basis, stdDev, m)[i - offset] == NaN;
    } else {
      AssembledWithoutSource(data, basis, stdDev, m, offset, i);
    }
  }

  /** Fewer candles than `length`: every output point is NaN in all three bands, whatever the offset. */
  lemma ShortInputIsAllNaN(data: seq<Ohlcv>, inputs: BollingerBandsInputs, sqrt: real -> real)
    requires inputs.length >= 1 && |data| < inputs.length
    ensures forall i :: 0 <= i < |data| ==>
      var out := ComputeBollingerBands(data, inputs, sqrt)[i];
      out.basis == NaN && out.upper == NaN && out.lower == NaN
  {
    forall i | 0 <= i < |data|
      ensures var out := ComputeBollingerBands(data, inputs, sqrt)[i];
        out.basis == NaN && out.upper == NaN && out.lower == NaN
    {
      InsufficientHistoryIsNaN(data, inputs, sqrt, i);
    }
  }

  /**
   * The `|| NaN` merge treats a legitimate 0 like a missing slot: candles whose
   * selected price is always 0 have an all-NaN basis, although the moving
   * average is 0 at every full window.
   */
  lemma ZeroBasisBecomesNaN(data: seq<Ohlcv>, inputs: BollingerBandsInputs, sqrt: real -> real)
    requires inputs.length >= 1
    requires forall k :: 0 <= k < |data| ==> SelectPrice(data[k], inputs.source) == 0.0
    ensures forall k :: inputs.length - 1 <= k < |data| ==>
      MovingAverage(SourceValues(data, inputs.source), inputs.length)[k] == Finite(0.0)
    ensures forall i :: 0 <= i < |data| ==> ComputeBollingerBands(data, inputs, sqrt)[i].basis == NaN
  {
    var values := SourceValues(data, inputs.source);
    var basis := MovingAverage(values, inputs.length);
    var stdDev := SampleStdDev(values, inputs.length, sqrt);
    forall k | inputs.length - 1 <= k < |data|
      ensures basis[k] == Finite(0.0)
    {
      SmaOfConstantSeries(values, inputs.length, 0.0, k);
    }
    forall i | 0 <= i < |data|
      ensures ComputeBollingerBands(data, inputs, sqrt)[i].basis == NaN
    {
      if inputs.length - 1 <= i - inputs.offset < |data| {
        EngineStages(data, inputs, sqrt);
        AssembledFromSource(data, basis, stdDev, inputs.stdDevMultiplier, inputs.offset, i);
      } else {
        InsufficientHistoryIsNaN(data, inputs, sqrt, i);
      }
    }
  }

  /** The only non-negative square root of 1 is 1. */
  lemma RootOfOne(s: real)
    requires 0.0 <= s && s * s == 1.0
    ensures s == 1.0
  {
    var a, b := 1.0 - s, 1.0 + s;
    assert a * b == 1.0 - s * s == 0.0;
    PositiveProduct(a, b);
    assert s <= 1.0;
  }

  /** A product of two positive reals is positive. */
  lemma PositiveProduct(a: real, b: real)
    ensures a > 0.0 && b > 0.0 ==> a * b > 0.0
  {
  }

  /** Closes 0, 1, 2 with length 3 and multiplier 1: basis 1, upper 2 and a lower band of exactly 0. */
  lemma BandsReachingZero(values: seq<real>, sqrt: real -> real)
    requires IsSqrt(sqrt)
    requires values == [0.0, 1.0, 2.0]
    ensures var basis := MovingAverage(values, 3);
      var stdDev := SampleStdDev(values, 3, sqrt);
      basis[2] == Finite(1.0) &&
      UpperBand(basis, stdDev, 1.0)[2] == Finite(2.0) &&
      LowerBand(basis, stdDev, 1.0)[2] == Finite(0.0)
  {
    SmaOfRamp(values, 3, 0.0, 2);
    var w := Window(values, 3, 2);
    SumOfRamp(w, 0.0);
    SquaredDeviationsOfRamp(w, 1.0, -1.0);
    assert SampleVariance(values, 3, 2) == 1.0;
    var s := sqrt(1.0);
    RootOfOne(s);
    assert SampleStdDev(values, 3, sqrt)[2] == StdDevAt(values, 3, sqrt, 2);
  }

  /**
   * The merge can split the bands: a lower band of exactly 0 becomes NaN through
   * `|| NaN` while the basis and the upper band at the same point stay defined.
   */
  lemma ZeroLowerBandSplitsOutput(data: seq<Ohlcv>, inputs: BollingerBandsInputs, sqrt: real -> real)
    requires IsSqrt(sqrt)
    requires |data| == 3 && forall k :: 0 <= k < 3 ==> data[k].close == k as real
    requires inputs == BollingerBandsInputs(3, SMA, Close, 1.0, 0)
    ensures var out := ComputeBollingerBands(data, inputs, sqrt)[2];
      out.basis == Finite(1.0) && out.upper == Finite(2.0) && out.lower == NaN
  {
    var values := SourceValues(data, Close);
    assert values == [0.0, 1.0, 2.0];
    EngineStages(data, inputs, sqrt);
    AssembledFromSource(data, MovingAverage(values, 3), SampleStdDev(values, 3, sqrt), 1.0, 0, 2);
    BandsReachingZero(values, sqrt);
  }

  /** A window of one value: the bands are NaN everywhere and the basis is the shifted source value (0 becoming NaN). */
  lemma WindowOfOneOutput(data: seq<Ohlcv>, inputs: BollingerBandsInputs, sqrt: real -> real, i: int)
    requires inputs.length == 1 && 0 <= i < |data|
    ensures var out := ComputeBollingerBands(data, inputs, sqrt)[i];
      var values := SourceValues(data, inputs.source);
      out.upper == NaN && out.lower == NaN &&
      out.basis == (if 0 <= i - inputs.offset < |data| then OrNaN(Some(Finite(values[i - inputs.offset]))) else NaN)
  {
    var values := SourceValues(data, inputs.source);
    var basis := MovingAverage(values, 1);
    var stdDev := SampleStdDev(values, 1, sqrt);
    var m, offset := inputs.stdDevMultiplier, inputs.offset;
    EngineStages(data, inputs, sqrt);
    if 0 <= i - offset < |data| {
      AssembledFromSource(data, basis, stdDev, m, offset, i);
      SmaWindowOfOne(values, i - offset);
      BandsWithWindowOfOne(values, sqrt, m, i - offset);
    } else {
      AssembledWithoutSource(data, basis, stdDev, m, offset, i);
    }
  }

  /**
   * A constant non-zero price series with `length >= 2`: wherever a full window
   * lands after the offset, basis, upper and lower all equal that price.
   */
  lemma ConstantSeriesBands(data: seq<Ohlcv>, inputs: BollingerBandsInputs, sqrt: real -> real, c: real, i: int)
    requires IsSqrt(sqrt) && c != 0.0
    requires inputs.length >= 2 && 0 <= i < |data|
    requires inputs.length - 1 <= i - inputs.offset < |data|
    requires forall k :: 0 <= k < |data| ==> SelectPrice(data[k], inputs.source) == c
    ensures var out := ComputeBollingerBands(data, inputs, sqrt)[i];
      out.basis == Finite(c) && out.upper == Finite(c) && out.lower == Finite(c)
  {
    var values := SourceValues(data, inputs.source);
    var basis := MovingAverage(values, inputs.length);
    var stdDev := SampleStdDev(values, inputs.length, sqrt);
    EngineStages(data, inputs, sqrt);
    AssembledFromSource(data, basis, stdDev, inputs.stdDevMultiplier, inputs.offset, i);
    BandsOfConstantSeries(values, inputs.length, sqrt, inputs.stdDevMultiplier, c, i - inputs.offset);
  }

  // ---------------------------------------------------------------------------
  // A worked series: 25 closes rising by 1 from 100, length 20, multiplier 2
  // ---------------------------------------------------------------------------

  /** The output point `i` whose source index `i - offset` is 19. */
  lemma RampOutputAt(data: seq<Ohlcv>, inputs: BollingerBandsInputs, sqrt: real -> real, i: int)
    requires IsSqrt(sqrt)
    requires |data| == 25 && forall k :: 0 <= k < 25 ==> data[k].close == 100.0 + k as real
    requires inputs.length == 20 && inputs.source == Close && inputs.stdDevMultiplier == 2.0
    requires 0 <= i < 25 && i - inputs.offset == 19
    ensures var out := ComputeBollingerBands(data, inputs, sqrt)[i];
      out.basis == Finite(109.5) &&
      out.upper == Finite(109.5 + 2.0 * sqrt(35.0)) &&
      out.lower == Finite(109.5 - 2.0 * sqrt(35.0))
  {
    var values := SourceValues(data, Close);
    assert forall k :: 0 <= k < |values| ==> values[k] == 100.0 + k as real;
    EngineStages(data, inputs, sqrt);
    AssembledFromSource(data, MovingAverage(values, 20), SampleStdDev(values, 20, sqrt), 2.0, inputs.offset, i);
    BandsOfRamp(values, sqrt);
  }

  /**
   * With offset 0, points 0 to 18 are NaN and point 19 has basis 109.5 and
   * bands `2 * sqrt(35)` above and below it.
   */
  lemma RampScenario(data: seq<Ohlcv>, inputs: BollingerBandsInputs, sqrt: real -> real)
    requires IsSqrt(sqrt)
    requires |data| == 25 && forall k :: 0 <= k < 25 ==> data[k].close == 100.0 + k as real
    requires inputs == BollingerBandsInputs(20, SMA, Close, 2.0, 0)
    ensures var out := ComputeBollingerBands(data, inputs, sqrt);
      (forall i :: 0 <= i < 19 ==> out[i].basis == NaN && out[i].upper == NaN && out[i].lower == NaN) &&
      out[19].basis == Finite(109.5) &&
      out[19].upper == Finite(109.5 + 2.0 * sqrt(35.0)) &&
      out[19].lower == Finite(109.5 - 2.0 * sqrt(35.0))
  {
    var out := ComputeBollingerBands(data, inputs, sqrt);
    forall i | 0 <= i < 19
      ensures out[i].basis == NaN && out[i].upper == NaN && out[i].lower == NaN
    {
      InsufficientHistoryIsNaN(data, inputs, sqrt, i);
    }
    RampOutputAt(data, inputs, sqrt, 19);
  }

  /** With offset 5 the point of index 19 moves to index 24, and points 0 to 23 are NaN. */
  lemma RampScenarioWithOffset(data: seq<Ohlcv>, inputs: BollingerBandsInputs, sqrt: real -> real)
    requires IsSqrt(sqrt)
    requires |data| == 25 && forall k :: 0 <= k < 25 ==> data[k].close == 100.0 + k as real
    requires inputs == BollingerBandsInputs(20, SMA, Close, 2.0, 5)
    ensures var out := ComputeBollingerBands(data, inputs, sqrt);
      (forall i :: 0 <= i < 24 ==> out[i].basis == NaN && out[i].upper == NaN && out[i].lower == NaN) &&
      out[24].basis == Finite(109.5) &&
      out[24].upper == Finite(109.5 + 2.0 * sqrt(35.0)) &&
      out[24].lower == Finite(109.5 - 2.0 * sqrt(35.0))
  {
    var out := ComputeBollingerBands(data, inputs, sqrt);
    forall i | 0 <= i < 24
      ensures out[i].basis == NaN && out[i].upper == NaN && out[i].lower == NaN
    {
      InsufficientHistoryIsNaN(data, inputs, sqrt, i);
    }
    RampOutputAt(data, inputs, sqrt, 24);
  }
}
