/**
 The values every generator of the monitoring dashboard shares: a sample is a
 `[time, value]` pair, a series is the sequence of samples handed to a chart,
 and the two ambient inputs of the browser (the clock and `Math.random`) are
 made explicit.

 - The clock is an integer `now`, in milliseconds since the epoch, the value
   `new Date().getTime()` would return when the generator starts.
 - The random source is a sequence `rs` of draws; the k-th call to
   `Math.random()` made by a generator returns `rs[k]`.
 */
module TimeSeries {

  /** One simulated minute in milliseconds: the spacing of every generated series. */
  const MinuteMs: int := 60000

  /** One `[time, value]` pair; `time` is a timestamp in milliseconds. */
  datatype Sample = Sample(time: int, value: real)

  /** What `Math.random()` promises of a single draw. */
  predicate IsDraw(r: real) {
    0.0 <= r < 1.0
  }

  /** Every draw the random source supplies lies in [0, 1). */
  predicate AllDraws(rs: seq<real>) {
    forall k :: 0 <= k < |rs| ==> IsDraw(rs[k])
  }

  /** Consecutive samples are exactly one simulated minute apart. */
  predicate MinuteSpaced(s: seq<Sample>) {
    forall k :: 0 < k < |s| ==> s[k].time == s[k - 1].time + MinuteMs
  }

  /**
   In a series whose neighbours are a minute apart, any two samples are
   `k - j` minutes apart, so the timestamps strictly increase.
   */
  lemma {:induction false} MinuteSpacedTimes(s: seq<Sample>, j: nat, k: nat)
    requires MinuteSpaced(s)
    requires j <= k < |s|
    ensures s[k].time == s[j].time + (k - j) * MinuteMs
    ensures j < k ==> s[j].time < s[k].time
  {
    if j < k {
      MinuteSpacedTimes(s, j, k - 1);
    }
  }
}
