# Monitoring dashboard series generators

The monitoring dashboard (`monitoring/app.js`) fabricates every value it plots.
On page load, four generators build time series of `[time, value]` samples,
one simulated minute apart:

- `generateMockData` makes uniform random values;
- `generateConstantData` makes a flat series;
- `generateMetricData` makes a rise / sustain / decay load curve with an `isStable` flag;
- `generateRealisticLoadData` runs the same curve without the flag.

This project models those four generators and proves what their series look
like. The rest of the page is glue around the charting library.

Each generator is modelled as a Dafny method whose loop pushes one sample per
iteration onto a growing sequence (`MonitoringApp`). The two load generators
also carry the running `currentLoad` from one iteration to the next. The
browser's two ambient inputs are parameters:

- the clock is `now: int`, the millisecond value `new Date().getTime()` returns;
- `Math.random()` is a sequence `rs: seq<real>`. The k-th draw a generator makes
  is `rs[k]`, and every generator returns `used`, the number of draws it took.

The load curve is specified in `LoadProfile` as functions of the loop index:

- `PhaseOf(i, n)` is the phase of iteration `i`: rise while `i < n * 0.3`,
  sustain while `i < n * 0.7`, decay afterwards, compared exactly over the reals;
- `DrawsBefore(i, n, isStable)` is how many draws the first `i` iterations take.
  A stable sustain step takes none, because `isStable ? 0 : Math.random()…` does
  not evaluate `Math.random()`;
- `LoadAfter(i, …)` is `currentLoad` after `i` iterations;
- `MetricSample(i, …)` is the i-th emitted sample: the load after iteration
  `i` (that is, `LoadAfter(i + 1, …)`) floored at zero, stamped `n - i`
  minutes before `now`;
- `MetricSeries(m, …)` is the first `m` samples.

Both load methods are proved to return `MetricSeries`. That proves that
`generateRealisticLoadData(n, a, b)` and `generateMetricData(n, a, b, false)`
produce the same samples from the same clock and draws; `LoadGeneratorsAgree`
states it in one contract. The lemmas then state,
phase by phase, what those samples look like.

`TimeSeries` holds the shared vocabulary: `Sample`, the one-minute spacing
`MinuteMs = 60000`, and what a draw promises (`0 <= r < 1`).

Some consequences of the code as written:

- The phase boundaries are the literal comparisons `i < n * 0.3` and
  `i < n * 0.7`, not truncated indices. For a 61-sample run the rise phase is
  samples 0 to 18.
- Before `toFixed` rounds it, and in exact real arithmetic, a uniform value
  lies in `[minValue, maxValue)` (it equals `minValue` when the bounds
  coincide). The rounded string can equal `maxValue`; rounding is not modelled.
- In exact real arithmetic a decay factor `0.95 - r * 0.05` lies in
  `(0.90, 0.95]`. Under IEEE-754 the largest draws can round it to just below
  `0.90`; floating point is not modelled.
- Only `generateMockData` ends its series at `now`. The other three generators
  stamp their last sample one minute before `now`.

## Model

| member | source | states |
|---|---|---|
| `MonitoringApp.GenerateMockData` | monitoring/app.js:3-12 | exactly `dataPoints` samples and exactly that many draws taken; sample k is stamped `dataPoints - 1 - k` minutes before `now` and valued `rs[k] * (max - min) + min`; neighbours are one minute apart and the last is stamped `now`; with draws in [0, 1) and `min <= max`, every value before `toFixed` is at least `min` and below `max` when `min < max` |
| `MonitoringApp.MockValueInRange` | monitoring/app.js:8 | before `toFixed`, a draw in [0, 1) scaled by `(max - min)` and shifted by `min` lands in `[min, max)`, or exactly on `min` when `min == max` |
| `MonitoringApp.GenerateConstantData` | monitoring/app.js:14-23 | exactly `dataPoints` samples, every value equal to `constantValue`; sample k is stamped `dataPoints - k` minutes before `now`, so the series runs from `dataPoints` minutes before `now` to one minute before it, one minute apart |
| `MonitoringApp.GenerateMetricData` | monitoring/app.js:26-47 | the loop yields exactly `MetricSeries(n, n, …)` and takes exactly `DrawsBefore(n, n, isStable)` draws; the series has `n` samples, one minute apart, the last one minute before `now`, and no value below zero |
| `MonitoringApp.GenerateRealisticLoadData` | monitoring/app.js:62-87 | given `n` draws, the loop takes all `n` of them and yields exactly `MetricSeries(n, n, …)` with `isStable` false: the same samples `generateMetricData(n, a, b, false)` produces from the same clock and draws |
| `MonitoringApp.LoadGeneratorsAgree` | monitoring/app.js:62-87 | on the same clock and draws, `generateRealisticLoadData(n, a, b)` and `generateMetricData(n, a, b, false)` return the same samples and take the same number of draws |
| `LoadProfile.PhaseOf` | monitoring/app.js:35-41 | the real-valued tests `i < n * 0.3` and `i < n * 0.7` classify iteration `i` as rise exactly when `10i < 3n`, sustain exactly when `3n <= 10i < 7n`, and decay exactly when `7n <= 10i` |
| `LoadProfile.PhaseOrdered` | monitoring/app.js:35-41 | the phases come in order: an iteration before a rise iteration is a rise iteration, and one after a decay iteration is a decay iteration |
| `LoadProfile.PhasesOfSixty` | monitoring/app.js:90-92 | for the dashboard's 60-sample runs, rise is samples 0-17, sustain 18-41 and decay 42-59 |
| `LoadProfile.DrawsMonotone` | monitoring/app.js:35-41 | the number of draws taken never decreases from one iteration to the next |
| `LoadProfile.DrawsUnstable` | monitoring/app.js:72-81 | without the stable flag every iteration takes exactly one draw, so `i` iterations take `i` draws |
| `LoadProfile.DrawsStable` | monitoring/app.js:38 | with the stable flag a run takes at most one draw per iteration, and exactly one per iteration through the rise phase |
| `LoadProfile.LoadStep` | monitoring/app.js:35-41 | one iteration advances the draw count by the draw it takes; a drawing iteration applies its phase's update to the previous load with the next draw; a stable sustain iteration sets the load to `maxLoad` |
| `LoadProfile.MetricSeriesAt` | monitoring/app.js:31-45 | the series built by pushing one sample per iteration has `m` samples, and sample k is `MetricSample(k, …)` |
| `LoadProfile.MetricSeriesShape` | monitoring/app.js:31-45 | a full run has `n` samples one minute apart; the first is `n` minutes before `now` and the last one minute before `now`; every value is at least zero |
| `LoadProfile.RiseStep` | monitoring/app.js:36 | with a draw in [0, 1) and a load at most `maxLoad`, one rise step never lowers the load and never passes `maxLoad` |
| `LoadProfile.RiseBounded` | monitoring/app.js:35-36 | while every iteration so far was a rise step, a load that started in `[0, maxLoad]` stays between `initialLoad` and `maxLoad` and never decreases |
| `LoadProfile.RiseSamples` | monitoring/app.js:35-44 | every rise-phase sample lies in `[initialLoad, maxLoad]` and is at least the sample before it |
| `LoadProfile.SustainStable` | monitoring/app.js:37-38 | with the stable flag the load of every sustain iteration is exactly `maxLoad`; the emitted sample is `maxLoad` floored at zero, so exactly `maxLoad` when `maxLoad >= 0` |
| `LoadProfile.StableSustainOfSixty` | monitoring/app.js:37-38 | in a stable 60-sample run with `maxLoad >= 0`, samples 18 to 41 all equal `maxLoad` |
| `LoadProfile.SustainJitter` | monitoring/app.js:75-77 | without the stable flag every sustain load lies in `[maxLoad - 0.05, maxLoad + 0.05)`, and so does the emitted sample when `maxLoad >= 0` |
| `LoadProfile.DecayStep` | monitoring/app.js:40 | in exact real arithmetic, a decay step multiplies a positive load by a factor in `(0.90, 0.95]` |
| `LoadProfile.DecayPositive` | monitoring/app.js:39-40 | once the decay phase starts with a positive load, every later step keeps the load positive and never raises it |
| `LoadProfile.DecaySamples` | monitoring/app.js:39-44 | from the first decay sample on, the emitted values stay positive and never increase, provided the load entering decay is positive |
| `LoadProfile.DecayEntryPositive` | monitoring/app.js:37-40 | the load entering the decay phase after a sustain step is positive when `maxLoad > 0` (stable) or `maxLoad > 0.05` (not stable) |
| `LoadProfile.NeverClamped` | monitoring/app.js:31-44 | when `0 < initialLoad <= maxLoad` and the peak clears the jitter, every running load is positive, so every emitted sample is the running load itself and the zero floor never fires; the dashboard's own calls (app.js:90-92, 272-274) are of this kind |
| `TimeSeries.MinuteSpacedTimes` | monitoring/app.js:18-20 | in a series whose neighbours are one minute apart, samples j <= k are `k - j` minutes apart, so the timestamps strictly increase |

## Left out

- `initChart`, `document.getElementById`, `echarts.init`, `setOption` and the window `resize` listener (monitoring/app.js:50-59, 287-292): DOM and charting-library calls with no logic of their own.
- The `DOMContentLoaded` wrapper (monitoring/app.js:1, 294): a browser event hook.
- The chart option literals and the `series[0].data` overwrites (monitoring/app.js:95-269, 279-285): static presentation data. The load-average chart takes three `generateRealisticLoadData(60, 0.2, …)` series. The CPU, memory and throughput charts take `generateMetricData(60, …)`. The availability chart takes `generateConstantData(60, 100)`. The option literals first fill five charts with `generateMockData` (app.js:160-267); only the latency chart keeps that series.
- monitoring/custom-theme.js is not part of this model: it is a static style tree handed once to the charting library.
- GenerateMockData: has no `fixedDecimal` parameter and models the value before `toFixed`. The source returns a decimal string rounded to `fixedDecimal` digits; string formatting is not modelled.
- IEEE-754 rounding: all arithmetic, including `dataPoints * 0.3` and `dataPoints * 0.7`, is exact over the reals.
- `Date` objects: a timestamp is its integer millisecond value.
- `Math.random()`: a finite sequence of draws replaces it. Each method requires the sequence to be long enough for the draws its run takes. The properties that need draws in [0, 1) assume it through `AllDraws`.
- `dataPoints` is a natural number. Negative or fractional counts, which JavaScript would accept, are not modelled.
- The default `isStable = false` of `generateMetricData`: callers of `GenerateMetricData` pass the flag explicitly.
- The rise, sustain and decay properties are lemmas about `MetricSeries`, not extra `ensures` on the two load methods. The methods' `ensures` ties their output to `MetricSeries`.
