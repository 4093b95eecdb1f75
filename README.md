# Bollinger Bands engine — a Dafny model

This project models the indicator engine of a Bollinger Bands chart application,
`lib/indicators/bollinger.ts`, together with the record shapes it uses from
`lib/types.ts`. Given a sequence of OHLCV candles and the parameters
`length`, `source`, `stdDevMultiplier` and `offset`, the engine produces one
`{ timestamp, basis, upper, lower }` point per candle in four stages:

1. **Field selection**: one price (open, high, low or close) per candle. Close is the default.
2. **Rolling simple moving average** (`sma`): NaN until a full window of `length` values exists. After that, the window sum divided by `length`.
3. **Rolling sample standard deviation** (`standardDeviation`): the same NaN prefix. After that, the square root of Σ(x − mean)² / (length − 1).
4. **Band assembly, offset and merge**:
   - upper and lower are basis ± multiplier · stddev, or NaN when either input is NaN;
   - all three series are shifted by `offset` (`applyOffset`);
   - the series are merged with the candle timestamps through `value || NaN`.

Files:

- `wrappers.dfy`: `Option`, whose `None` is a hole in a JavaScript array (a slot never assigned).
- `types.dfy`: the record shapes, as datatypes (`Ohlcv`, `BollingerBandsData`, `BollingerBandsInputs`, `PriceSource`, `MaType`). It also defines `Num = NaN | Finite(real)`, a JavaScript number idealised as a real number or NaN.
- `bollinger.dfy`: the engine, with two kinds of member.
  - Imperative: `sma`, `standardDeviation` and `applyOffset` are methods. They keep the source's loops, its `push` onto a result list and its array filled by index. Each is proved equal to a pure specification function: `MovingAverage`, `SampleStdDev` or `Shifted`.
  - Pure: `computeBollingerBands` is a composition of maps, so it is a function, `ComputeBollingerBands`, over those specifications. Its last stage (band assembly, offset and merge) is its own function, `AssembleBands`.
- `properties.dfy`: lemmas about exact windows, the insufficient-history prefix, the bands, the offset, and the quirks of the merge and of a window of one value.

Behaviours of the code that are easy to miss, kept as written:

- The merge `offsetX[i] || NaN` turns a band value of exactly `0` into NaN, not only holes and NaN, although 0 is a real value (`OrNaN`, `ZeroBasisBecomesNaN`).
- With `length == 1` the variance is `0 / 0`, which is NaN in JavaScript. So the standard deviation, upper and lower are NaN at every index, while the basis is defined (`BandsWithWindowOfOne`, `WindowOfOneOutput`).
- Consequently basis, upper and lower are defined at the same indices only before the merge, and only for `length >= 2` (`BasisAndStdDevDefinedTogether`, `BandsSymmetric`). After the merge a band value of exactly 0 becomes NaN while the other two stay defined: closes 0, 1, 2 with length 3 and multiplier 1 give basis 1, upper 2 and an output lower band of NaN (`ZeroLowerBandSplitsOutput`).

## Model

| member | source | states |
|---|---|---|
| `Bollinger.SelectPrice` | lib/indicators/bollinger.ts:106-114 | `Open`, `High`, `Low` and `Close` each pick their own field of the candle; an unrecognised selector gives `close` |
| `Bollinger.SourceValues` | lib/indicators/bollinger.ts:106-114 | one selected price per candle, same length and order as the candles |
| `Bollinger.WindowSum` | lib/indicators/bollinger.ts:15-18 | the inner accumulation loop yields exactly the sum of `values[lo..hi)` |
| `Bollinger.WindowSquaredDeviations` | lib/indicators/bollinger.ts:45-48 | the inner variance loop yields exactly the sum of `(values[j] - mean)^2` over the window |
| `Bollinger.MovingAverage` | lib/indicators/bollinger.ts:6-13 | same length as the input; NaN exactly at indices `i < period - 1`; all NaN when the input is shorter than `period` |
| `Bollinger.Sma` | lib/indicators/bollinger.ts:6-23 | the loop's result is the moving-average specification: NaN prefix, then the window sum over `values[i-period+1..i]` divided by `period` |
| `Bollinger.SampleStdDev` | lib/indicators/bollinger.ts:28-35 | same length as the input; NaN exactly at `i < period - 1`, and everywhere when `period == 1` |
| `Bollinger.SingleWindowHasNoDeviation` | lib/indicators/bollinger.ts:37-51 | for a window of one value the squared-deviation sum about its own mean is exactly 0, so the division by `period - 1 == 0` is 0 / 0 (NaN) |
| `Bollinger.StandardDeviation` | lib/indicators/bollinger.ts:28-55 | the loops' result is the sample-standard-deviation specification: root of Σ(x − mean)² / (period − 1) at full windows, NaN elsewhere |
| `Bollinger.UpperBand` | lib/indicators/bollinger.ts:123-126 | same length as the basis; NaN exactly where the basis or the standard deviation is NaN (or missing) |
| `Bollinger.LowerBand` | lib/indicators/bollinger.ts:128-131 | same length as the basis; NaN exactly where the basis or the standard deviation is NaN (or missing) |
| `Bollinger.Shifted` | lib/indicators/bollinger.ts:60-84 | length preserved; offset 0 is the identity; offset > 0 puts `data[t-offset]` at `t >= offset` and leaves slots below `offset` missing; offset < 0 puts `data[i-offset]` at `i` when that index exists and leaves the tail missing |
| `Bollinger.ApplyOffset` | lib/indicators/bollinger.ts:60-84 | the two index-assignment loops over a fresh array of holes produce exactly the shift specification |
| `Bollinger.OrNaN` | lib/indicators/bollinger.ts:141-143 | `slot \|\| NaN` is a finite value exactly when the slot holds a finite non-zero value, and then it is that value |
| `Bollinger.Merge` | lib/indicators/bollinger.ts:139-144 | one point per candle, with that candle's timestamp; each band value is its slot through `\|\| NaN`, so a finite non-zero slot is kept and a hole, NaN or 0 becomes NaN |
| `Bollinger.AssembleBands` | lib/indicators/bollinger.ts:123-144 | one point per candle, in order, carrying the candle's timestamp |
| `Bollinger.ComputeBollingerBands` | lib/indicators/bollinger.ts:97-145 | one point per candle (none for empty data), in order, each with its candle's timestamp, for any offset |
| `BollingerProperties.SumOfConstant` | lib/indicators/bollinger.ts:15-18 | a window of constant `c` sums to `n * c` |
| `BollingerProperties.SumConcat` | lib/indicators/bollinger.ts:15-18 | the window sum splits over concatenation |
| `BollingerProperties.WindowSumSlides` | lib/indicators/bollinger.ts:15-19 | each window sum is the previous one plus the entering value minus the leaving value (the running-sum form of the same average) |
| `BollingerProperties.SmaOfConstantSeries` | lib/indicators/bollinger.ts:15-19 | a constant series averages to that constant at every full window |
| `BollingerProperties.SmaWindowOfOne` | lib/indicators/bollinger.ts:6-23 | with `period == 1` the moving average reproduces its input |
| `BollingerProperties.SumOfRamp` | lib/indicators/bollinger.ts:15-18 | a window rising by 1 from `a` sums to `n*a + n(n-1)/2` |
| `BollingerProperties.SmaOfRamp` | lib/indicators/bollinger.ts:15-19 | on a series rising by 1, the average at `i` is `a + i - (period-1)/2` |
| `BollingerProperties.SquaredDeviationsNonNegative` | lib/indicators/bollinger.ts:45-48 | the accumulated squared deviations are never negative |
| `BollingerProperties.SquaredDeviationsOfConstant` | lib/indicators/bollinger.ts:45-48 | a constant window has zero squared deviation about its value |
| `BollingerProperties.SquaredDeviationsOfRamp` | lib/indicators/bollinger.ts:45-48 | closed form of the squared deviations of a window rising by 1 |
| `BollingerProperties.SampleVarianceNonNegative` | lib/indicators/bollinger.ts:45-49 | with `period >= 2` the sample variance is non-negative |
| `BollingerProperties.StdDevOfWindowOfOne` | lib/indicators/bollinger.ts:49-51 | with `period == 1` every standard deviation is NaN |
| `BollingerProperties.StdDevIsRootOfVariance` | lib/indicators/bollinger.ts:37-51 | at a full window with `period >= 2` the standard deviation is defined, non-negative, and squares to the sample variance |
| `BollingerProperties.StdDevOfConstantSeries` | lib/indicators/bollinger.ts:37-51 | a constant series has standard deviation 0 at every full window |
| `BollingerProperties.BasisAndStdDevDefinedTogether` | lib/indicators/bollinger.ts:9-13 | for `period >= 2` basis and standard deviation are defined at the same indices, exactly `i >= period - 1` |
| `BollingerProperties.BandsSymmetric` | lib/indicators/bollinger.ts:123-131 | upper is defined iff lower is, and both lie `m * sd` from the basis on either side |
| `BollingerProperties.BandsWithZeroMultiplier` | lib/indicators/bollinger.ts:123-131 | multiplier 0 gives upper = lower = basis at every full window (period >= 2) |
| `BollingerProperties.BandsEncloseBasis` | lib/indicators/bollinger.ts:123-131 | with a non-negative multiplier, lower <= basis <= upper |
| `BollingerProperties.BandsWithWindowOfOne` | lib/indicators/bollinger.ts:123-131 | with `period == 1` the basis is defined but neither band is |
| `BollingerProperties.BandsOfConstantSeries` | lib/indicators/bollinger.ts:117-131 | for a constant series basis, upper and lower all equal the constant at full windows |
| `BollingerProperties.RampVarianceOfTwenty` | lib/indicators/bollinger.ts:37-49 | 20 consecutive values rising by 1 have sample variance 35 |
| `BollingerProperties.BandsOfRamp` | lib/indicators/bollinger.ts:117-131 | closes 100, 101, … with length 20 and multiplier 2 give basis 109.5 and bands 109.5 ± 2·sqrt(35) at index 19, the lower one positive |
| `BollingerProperties.ShiftedAt` | lib/indicators/bollinger.ts:65-81 | slot `t` of a shift holds `data[t - offset]` whenever that index exists |
| `BollingerProperties.AssembledFromSource` | lib/indicators/bollinger.ts:123-144 | output point `i` carries basis, upper and lower of index `i - offset`, each through `\|\| NaN` |
| `BollingerProperties.AssembledWithoutSource` | lib/indicators/bollinger.ts:133-144 | when index `i - offset` does not exist, all three values at `i` are NaN |
| `BollingerProperties.EngineStages` | lib/indicators/bollinger.ts:103-136 | for non-empty data the engine is assembly applied to the moving average and standard deviation of the selected prices |
| `BollingerProperties.InsufficientHistoryIsNaN` | lib/indicators/bollinger.ts:97-145 | output `i` is NaN in all three bands when `i - offset` is missing or precedes the first full window |
| `BollingerProperties.ShortInputIsAllNaN` | lib/indicators/bollinger.ts:97-145 | with fewer candles than `length`, every output value is NaN whatever the offset |
| `BollingerProperties.ZeroBasisBecomesNaN` | lib/indicators/bollinger.ts:141 | prices that are all 0 give a moving average of 0 at full windows, yet an all-NaN output basis |
| `BollingerProperties.BandsReachingZero` | lib/indicators/bollinger.ts:117-131 | closes 0, 1, 2 with length 3 and multiplier 1 give basis 1, upper band 2 and a lower band of exactly 0 at index 2 |
| `BollingerProperties.ZeroLowerBandSplitsOutput` | lib/indicators/bollinger.ts:97-145 | for those closes the output point 2 has basis 1 and upper 2 defined but lower NaN: the merge separates the bands |
| `BollingerProperties.WindowOfOneOutput` | lib/indicators/bollinger.ts:97-145 | with `length == 1` upper and lower are NaN everywhere and the basis is the shifted selected price (0 becoming NaN) |
| `BollingerProperties.ConstantSeriesBands` | lib/indicators/bollinger.ts:97-145 | a constant non-zero price with `length >= 2` yields basis = upper = lower = that price wherever a full window lands after the offset |
| `BollingerProperties.RampOutputAt` | lib/indicators/bollinger.ts:97-145 | for closes rising by 1 from 100, the output point whose source index is 19 has basis 109.5 and bands 109.5 ± 2·sqrt(35) |
| `BollingerProperties.RampScenario` | lib/indicators/bollinger.ts:97-145 | 25 rising closes, length 20, multiplier 2, offset 0: points 0–18 NaN, point 19 has basis 109.5 and symmetric bands |
| `BollingerProperties.RampScenarioWithOffset` | lib/indicators/bollinger.ts:60-84 | the same with offset 5: points 0–23 NaN, the index-19 values appear at point 24 |

## Left out

- `Math.sqrt` is not defined in the model. The engine takes it as a parameter `sqrt: real -> real`. Lemmas that need its meaning require `IsSqrt(sqrt)`: the result is non-negative and squares back to its argument on non-negative inputs.
- Floating point. Values are mathematical reals: no rounding, overflow or `-0`. `Math.pow(x, 2)` is `x * x`.
- Non-finite candle fields, and how NaN spreads from them through a window, are not modelled. Candle prices are finite reals.
- Infinity is not modelled. The one division by zero in the engine has a zero numerator (see `SingleWindowHasNoDeviation`).
- `length <= 0` and non-integer `length` or `offset` are excluded by precondition (`length >= 1`, `offset: int`). The code does not guard them, and the settings form only hints at `min="1"`.
- `applyOffset` with offset 0 returns the caller's own array object. The model returns a value sequence. Aliasing does not matter here because no stage mutates its input.
- `computeBollingerBands` is stated per index in lemmas, not in its own contract. Its contract gives length and timestamps. The band values at each index come from `EngineStages` with `AssembledFromSource` / `AssembledWithoutSource`.
- `maType` (only `'SMA'`) and `volume` are carried in the datatypes but never read by the engine, as in the code.
- `components/Chart.tsx`: rendering through an external chart library and a canvas. It is presentation only.
- `components/BollingerSettings.tsx`: the settings form and its input-parsing fallbacks. It is user-interface glue.
- `app/page.tsx`: fetching the candle file, loading and error state, and recompute-on-change effects. These are I/O and UI state.
- `app/layout.tsx`: static page metadata and markup.
