# pico-scale core, modelled in Dafny

pico-scale drives a load-cell scale from a Raspberry Pi Pico. This project
models the two pieces that hold its logic:

- **the mass value type** (`mass.dfy`, module `Mass`). A mass is an amount
  in micrograms together with a display unit. The model covers the ten units
  with their ratio and name tables, conversion between units, arithmetic,
  the in-place variants, epsilon-equality and ordering, and the text
  rendering;
- **the sampling and calibration engine** (`scale.dfy`, module `Scale`). It
  has two collectors, one taking a fixed number of blocking reads and one
  taking as many timed reads as fit before a deadline. On top of them sit
  `scale_read`, `scale_zero` (tare), `scale_normalise` and `scale_weight`.

The scale adaptor is the value-source interface the engine reads samples
through (`scale_adaptor.dfy`, module `Adaptor`). It is a class whose sensor
is an oracle: given the index of a call and what the call asked for, it says
whether the read succeeded and with which value. The adaptor records every
call in a log. Each collector is specified by a function giving the exact
sequence of calls it makes:

- `BlockingRun` for the fixed count;
- `TimedRun` for the time box.

Each collector method is proved to make exactly those calls and to store
exactly the values of the successful ones. Lemmas then state what those runs
are: which reads are made, when they stop, and what they collect.

Doubles are modelled as exact reals. Every ratio in the table is an exact
rational, so conversions and their round trips are proved exactly. The
clock of the timed collector is a parameter: it gives the microseconds
elapsed since the deadline was set, at each check of the deadline. The
median and average helpers are also a parameter.

## Model

| member | source | states |
|---|---|---|
| `Mass.Index` | include/mass.h:68-79 | each unit's enumeration value, below 10, which indexes both tables |
| `Mass.UnitAt` | include/mass.h:65-79 | the unit at enumeration value i has value i |
| `Mass.IndexBijective` | include/mass.h:65-79 | enumeration values 0..9 and the ten units correspond one to one |
| `Mass.RatiosTable` | include/mass.h:37-61 | both tables have ten entries; every ratio is at least 1 and only the microgram's is exactly 1 |
| `Mass.Ratio` | include/mass.h:97-99 | the ratio of a unit is entry Index(u) of the table, at least 1, and exactly 1 only for the microgram |
| `Mass.Name` | include/mass.h:87-89 | the name of a unit is a non-empty entry of the name table |
| `Mass.Convert` | src/mass.c:40-62 | the corrected two-hop conversion preserves the mass: result * ratio(to) == amount * ratio(from) |
| `Mass.ConvertAsWritten` | src/mass.c:40-62 | the conversion as written agrees with Convert whenever the units agree or one of them is the microgram, and is amount * ratio(to) otherwise |
| `Mass.ConvertRoundTrip` | src/mass.c:40-62 | converting to any unit and back returns the amount exactly |
| `Mass.ConvertSameUnit` | src/mass.c:49-50 | converting within one unit returns the amount unchanged |
| `Mass.ConvertAsWrittenRoundTripFails` | src/mass.c:58-59 | 1 mg converts to 10^6 g as written and does not round-trip; the corrected conversion gives 0.001 g and round-trips |
| `Mass.Init` | src/mass.c:64-73 | mass_init, through the conversion as written, stores the unit and ug == val * ratio(unit) |
| `Mass.GetValue` | src/mass.c:76-85 | mass_get_value, through the conversion as written: the value read back, times the unit's ratio, is the stored microgram amount |
| `Mass.InitGetValue` | include/mass.h:127-154 | reading a freshly initialised mass gives back exactly the value it was made from, for every unit |
| `Mass.GetValueInit` | include/mass.h:127-154 | initialising from a mass's displayed value in its unit rebuilds the same mass |
| `Mass.Add` | src/mass.c:87-99 | the sum of the microgram amounts, in the left operand's unit |
| `Mass.Sub` | src/mass.c:101-113 | the difference of the microgram amounts, in the left operand's unit |
| `Mass.Mul` | src/mass.c:115-127 | the product of the microgram amounts, in the left operand's unit |
| `Mass.Div` | src/mass.c:129-147 | fails exactly when the divisor is within epsilon of zero, then the result is left as it was; otherwise the quotient in the left operand's unit |
| `Mass.AddSubInverse` | include/mass.h:163-201 | subtraction undoes addition and addition undoes subtraction |
| `Mass.AddCommutes` | include/mass.h:163-180 | addition commutes on the microgram amount |
| `Mass.MulDivInverse` | include/mass.h:202-246 | dividing a product by a divisor that is not near zero succeeds and gives the other factor back |
| `Mass.AddEq` | src/mass.c:149-153 | the in-place sum is the three-operand sum with res = self |
| `Mass.SubEq` | src/mass.c:155-159 | the in-place difference is the three-operand difference with res = self |
| `Mass.MulEq` | src/mass.c:161-165 | the in-place product is the three-operand product with res = self |
| `Mass.DivEq` | src/mass.c:167-171 | the in-place division fails exactly when rhs is near zero, and then leaves self unchanged |
| `Mass.Eq` | src/mass.c:173-183 | equal exactly when the microgram amounts differ by less than epsilon |
| `Mass.Neq` | src/mass.c:185-194 | not equal exactly when the amounts differ by at least epsilon |
| `Mass.Lt` | src/mass.c:196-205 | a strict comparison of microgram amounts, with no tolerance |
| `Mass.Gt` | src/mass.c:207-216 | greater exactly when the left amount exceeds the right |
| `Mass.Lteq` | src/mass.c:218-227 | at most exactly when the left amount does not exceed the right |
| `Mass.Gteq` | src/mass.c:229-238 | at least exactly when the left amount is not below the right |
| `Mass.EqIsTolerance` | include/mass.h:306-335 | eq is reflexive and symmetric; neq is its exact negation |
| `Mass.EqToleranceLimits` | src/mass.c:173-183 | eq is not transitive, and two masses can be both eq and lt |
| `Mass.OrderingLaws` | include/mass.h:345-411 | lt is irreflexive and transitive; gt(a,b) == lt(b,a), lteq == !gt, gteq == !lt; lteq is total |
| `Mass.FracPart` | src/mass.c:250-251 | fabs(modf(n)) lies in [0, 1) and is 0 exactly for whole values |
| `Mass.Decimals` | src/mass.c:251-257 | 0 decimals when the fractional part is below epsilon; otherwise ceil(1 - log10 frac), between 2 and 17, the least d with frac * 10^(d-1) >= 1 |
| `Mass.DecimalsExamples` | src/mass.c:251-257 | whole values get 0 decimals, 1.5 gets 2, 0.003 gets 4, and the header's example 32.4762 gets 2 |
| `Mass.ToString` | src/mass.c:241-267 | the text is the number, one space and the unit's name, truncated below the 64-byte buffer; the count returned is the untruncated length |
| `Mass.ToStringSuffix` | src/mass.c:259-265 | when it fits, the text ends with one space and MASS_NAMES[unit] |
| `Adaptor.Outcome` | src/scale.c:86 | the k-th call on the adaptor records the request it was made with |
| `Adaptor.ScaleAdaptor.GetValue` | src/scale.c:86 | one blocking read is appended to the log; ok exactly when the sensor answered, and then with its value |
| `Adaptor.ScaleAdaptor.GetValueTimeout` | src/scale.c:131 | one timed read with the given timeout is appended to the log; ok exactly when the sensor answered, and then with its value |
| `Scale.StrategyOf` | src/scale.c:165-184 | the time strategy exactly for code 1; every other code falls to the fixed count (the switch Read uses is `Scale.ReadRun`) |
| `Scale.ReadOf` | src/scale.c:191-200 | the average exactly for code 1; every other code falls to the median (the switch Read uses is `Scale.Aggregate`) |
| `Scale.EnumEncodings` | include/scale.h:37-45 | samples = 0, time = 1, median = 0, average = 1, and each code decodes back to its value |
| `Scale.Usable` | src/scale.c:102-106 | what scale_read's asserts demand (src/scale.c:105, 177): a buffer, room in it for the fixed count, and a non-empty capacity for the time box |
| `Scale.GetDefaultOptions` | include/scale.h:54-59 | fixed count, median, 3 samples, 1000000 us timeout |
| `Scale.Successes` | src/scale.c:85-91 | no more samples than calls |
| `Scale.SuccessesAppend` | src/scale.c:131-145 | a call adds its value to the samples exactly when it succeeded |
| `Scale.SuccessesOfRun` | src/scale.c:85-91 | in a run where only the last call may fail, the samples are the answers of every call but a failed last one, in call order |
| `Scale.BlockingRun` | src/scale.c:85-91 | the fixed-count collector makes at most n calls |
| `Scale.BlockingRunShape` | src/scale.c:85-91 | call p is the adaptor's (k+p)-th blocking read; every call but the last succeeded; fewer than n calls only when the last one failed |
| `Scale.BlockingRunCollects` | src/scale.c:85-91 | all n samples arrive exactly when the sensor answers n blocking reads in a row, and the samples are those answers in call order |
| `Scale.BlockingRunStopsAtFirstFailure` | src/scale.c:86-88 | when the f-th read is the first to fail, the run makes exactly f+1 calls and keeps f samples |
| `Scale.FixedCountScript` | src/scale.c:85-91 | with a sensor that answers m reads and then fails, the fixed count succeeds exactly when n <= m |
| `Scale.TimeLeft` | src/scale.c:124 | the time left never exceeds the timeout |
| `Scale.Budget` | src/scale.c:131 | when time is left, the timeout handed to the read is exactly the time left, positive and at most the timeout |
| `Scale.TimedRun` | src/scale.c:114-147 | the timed collector makes at most arrlen calls |
| `Scale.BlockingLoopRun` | src/scale.c:85-91 | the loop-shaped description of the fixed-count collector gives exactly BlockingRun |
| `Scale.TimedLoopRun` | src/scale.c:116-147 | the loop-shaped description of the timed collector gives exactly TimedRun |
| `Scale.TimedRunCalls` | src/scale.c:124-131 | every timed read is made with time left, asks for exactly the time left, and is the adaptor's next call |
| `Scale.TimedRunStops` | src/scale.c:118-145 | every call but the last succeeded; the run stops before arrlen only on a failed read or on the deadline |
| `Scale.TimedRunValues` | src/scale.c:131-139 | sample p is the answer of the read made at check p, with time left |
| `Scale.TimedRunFirst` | src/scale.c:149 | some sample arrives exactly when the first read was made and succeeded |
| `Scale.TimedRunCollects` | src/scale.c:114-149 | at most arrlen samples, the answers of the successful reads in order, and some exactly when the first read succeeded |
| `Scale.TimedFillsBuffer` | src/scale.c:116-147 | with time to spare and a sensor that always answers, all arrlen slots are filled |
| `Scale.TimedPartialSuccess` | src/scale.c:141-145 | a sensor that answers twice and then fails leaves three calls and two samples |
| `Scale.TimedFirstReadFails` | src/scale.c:141-149 | a failed first read leaves one call and no samples |
| `Scale.ReadRun` | src/scale.c:165-184 | the calls of the strategy switch: the timed run for code 1, the fixed-count run for every other code, with at most bufflen or samples calls |
| `Scale.Collected` | src/scale.c:165-189 | the fixed count yields exactly `samples` values and the time box between 1 and bufflen, in both cases the successful reads' values |
| `Scale.ZeroCountCollectsEmpty` | src/scale.c:175-189 | a fixed count of 0 makes no call and succeeds with no samples, so the empty buffer is aggregated |
| `Scale.Aggregate` | src/scale.c:191-200 | the read switch: the average for code 1, the median for every other code |
| `Scale.Round` | src/scale.c:222 | round() is within a half of its argument, halfway cases away from zero |
| `Scale.RoundToInt32` | src/scale.c:222 | (int32_t)round(x) is round(x), in range for every aggregate |
| `Scale.Scale.constructor` | src/scale.c:39-55 | scale_init demands ref_unit != 0 and stores the adaptor, unit, ref_unit and offset as given |
| `Scale.Scale.Normalise` | src/scale.c:57-74 | fails exactly when ref_unit is 0; otherwise (raw - offset) / ref_unit, from which raw is recovered |
| `Scale.Scale.GetValuesSamples` | src/scale.c:76-93 | makes exactly the calls of BlockingRun, stores the successful values in order at the front of arr, leaves the rest of arr alone, and succeeds exactly when all len samples arrived |
| `Scale.Scale.GetValuesTimeout` | src/scale.c:95-151 | makes exactly the calls of TimedRun, sets len to the number of samples (at most arrlen), stores them in order in arr[0..len), leaves the rest of arr alone, and succeeds exactly when len > 0 |
| `Scale.Scale.Read` | src/scale.c:153-204 | makes the configured strategy's calls; on success the value is the chosen aggregate of the collected samples; on failure the value is untouched; the calibration is unchanged |
| `Scale.Scale.Zero` | src/scale.c:206-229 | ref_unit is restored whatever the outcome; the offset becomes the rounded aggregate exactly when the read succeeded and is untouched otherwise |
| `Scale.Scale.Weight` | src/scale.c:231-256 | on success the mass has the scale's unit and ug = ((aggregate - offset) / ref_unit) * ratio(unit); on failure the mass is untouched |
| `Scale.TareCentresReading` | src/scale.c:206-229 | after a tare, normalising the same aggregate gives at most half a raw unit, and normalising the offset gives exactly zero |

## Left out

- Floating point is modelled as exact reals. IEEE rounding in conversions, arithmetic and comparisons is not captured. Every round trip is proved exactly.
- `Mass.ToString`: the digits come from a parameter `fixed`, so `printf("%01.*f")` itself is not modelled. The decimal count is computed exactly in reals; the rounding of the C library's `log10` and `ceil` is not captured. The buffer bound is counted in characters, not in UTF-8 bytes (so "μg" is two characters, not three bytes).
- util.h is not part of this model. `util_median` and `util_average` are the parameter `Aggregators`. The only thing assumed of them is that their result lies in the range of a 32-bit sample.
- `Scale.Aggregate`: a fixed count of 0 succeeds without a read (src/scale.c:85-91) and scale_read then aggregates an empty buffer (`Scale.ZeroCountCollectsEmpty`). The model assumes the aggregators give an in-range value for the empty sequence too. The source does not show what they do there. The in-range offset of `Scale.Scale.Zero` rests on that assumption.
- `Scale.Scale.Read`: the buffer contents after aggregation are not stated. The source's median may sort the buffer in place, and that code is not part of this model.
- The platform clock (`make_timeout_time_us`, `get_absolute_time`, `absolute_time_diff_us`) is the parameter `Clock`. It gives the elapsed microseconds at each check of the deadline. The 64-bit `diff` is assumed not to overflow.
- The concrete adaptor (hx711_scale_adaptor.c) is not part of this model. The sensor is an arbitrary oracle, so the proofs hold for every adaptor, including the hx711 one, whose blocking read always succeeds (src/hx711_scale_adaptor.c:74-76).
- The C pointer aliasing between `val` and `normalised` in `scale_normalise`, and between `res` and `self` in the in-place arithmetic, is not modelled separately. All of them are whole-value writes, so aliasing does not change the outcome.
- NULL-pointer asserts become the types (non-null references) or preconditions (`Scale.Usable`).
- include/scale.h is out of date with src/scale.c. Its `scale_t` holds `_hx`, not `_adaptor`, and its `scale_options_t` has no `buffer` or `bufflen`. The model follows src/scale.c.
- The `default:` arms of scale_read's switches handle out-of-range enum codes. The datatypes here have no such values, so those arms are modelled by `Scale.StrategyOf` and `Scale.ReadOf`.
- The decimal rule gives 1.5 two decimals ("1.50") and 0.003 four. The header's example "32.4762 mg" (include/mass.h:414) is not what the rule gives: a fractional part of 0.4762 gets two decimals, "32.48 mg" (`Mass.DecimalsExamples`). The model follows the code.

## Findings

| source | as written | input that shows it | evidently intended | confidence | as-written member | corrected member |
|---|---|---|---|---|---|---|
| src/mass.c:58-59 | when neither unit is the microgram, the recursive call converts from toUnit to micrograms, giving amount * ratio(toUnit) | 1 mg to g gives 1000000 instead of 0.001, and the round trip back to mg gives 10^9 | convert from fromUnit to micrograms, then from micrograms to toUnit | high (not executed) | `Mass.ConvertAsWrittenRoundTripFails` | `Mass.ConvertRoundTrip` |

The callers in the repository (`mass_init`, `mass_get_value`) always have the
microgram on one side, so they never reach the faulty branch. The model's
`Mass.Init` and `Mass.GetValue` call `Mass.ConvertAsWritten`, as the source
does. It is proved to agree with the corrected `Mass.Convert` on every input
they pass it.
