/**
 The rise / sustain / decay load trajectory that `generateMetricData` and
 `generateRealisticLoadData` both compute, written as functions of the loop
 index so that properties of a whole run can be stated and proved.

 Iteration `i` of an `n`-sample run is in one of three phases, decided by the
 tests `i < n * 0.3` and `i < n * 0.7` taken literally over the reals. It
 takes at most one draw from the random source, updates the running load, and
 emits the load floored at zero.
 */
module LoadProfile {
  import opened TimeSeries

  datatype Phase = Rise | Sustain | Decay

  /** The phase of iteration `i` in a run of `n` samples. */
  function PhaseOf(i: nat, n: nat): (p: Phase)
    ensures p == Rise <==> 10 * i < 3 * n
    ensures p == Sustain <==> 3 * n <= 10 * i < 7 * n
    ensures p == Decay <==> 7 * n <= 10 * i
  {
    if (i as real) < (n as real) * 0.3 then Rise
    else if (i as real) < (n as real) * 0.7 then Sustain
    else Decay
  }

  /** The phases come in order: a later iteration is never in an earlier phase. */
  lemma PhaseOrdered(i: nat, j: nat, n: nat)
    requires i <= j
    ensures PhaseOf(j, n) == Rise ==> PhaseOf(i, n) == Rise
    ensures PhaseOf(i, n) == Decay ==> PhaseOf(j, n) == Decay
  {
  }

  /** Draws one iteration takes: none in a stable sustain, where `isStable ? 0 : …` short-circuits. */
  function DrawCost(phase: Phase, isStable: bool): nat {
    if phase == Sustain && isStable then 0 else 1
  }

  /** Draws taken by iterations `0 .. i-1`; also the index of the draw iteration `i` uses. */
  function DrawsBefore(i: nat, n: nat, isStable: bool): nat {
    if i == 0 then 0 else DrawsBefore(i - 1, n, isStable) + DrawCost(PhaseOf(i - 1, n), isStable)
  }

  /** The random source holds every draw an `n`-sample run asks for. */
  predicate EnoughDraws(n: nat, isStable: bool, rs: seq<real>) {
    DrawsBefore(n, n, isStable) <= |rs|
  }

  lemma {:induction false} DrawsMonotone(i: nat, j: nat, n: nat, isStable: bool)
    requires i <= j
    ensures DrawsBefore(i, n, isStable) <= DrawsBefore(j, n, isStable)
  {
    if i < j {
      DrawsMonotone(i, j - 1, n, isStable);
    }
  }

  /** Without the stable flag every iteration takes exactly one draw. */
  lemma {:induction false} DrawsUnstable(i: nat, n: nat)
    ensures DrawsBefore(i, n, false) == i
  {
    if i > 0 {
      DrawsUnstable(i - 1, n);
    }
  }

  /** With the stable flag the sustain phase takes no draws, so a run takes at most one per sample. */
  lemma {:induction false} DrawsStable(i: nat, n: nat)
    ensures DrawsBefore(i, n, true) <= i
    ensures forall j :: i <= j && PhaseOf(j, n) == Rise ==> DrawsBefore(i, n, true) == i
  {
    if i > 0 {
      DrawsStable(i - 1, n);
      forall j | i <= j && PhaseOf(j, n) == Rise
        ensures DrawsBefore(i, n, true) == i
      {
        PhaseOrdered(i - 1, j, n);
      }
    }
  }

  /** A rise step: `currentLoad += (maxLoad - currentLoad) * (r * 0.1)`. */
  function RiseLoad(currentLoad: real, maxLoad: real, r: real): real {
    currentLoad + (maxLoad - currentLoad) * (r * 0.1)
  }

  /** A decay step: `currentLoad *= 0.95 - r * 0.05`. */
  function DecayLoad(currentLoad: real, r: real): real {
    currentLoad * (0.95 - r * 0.05)
  }

  /** The update one iteration makes to `currentLoad`, given the draw `r` it took. */
  function NextLoad(phase: Phase, currentLoad: real, maxLoad: real, isStable: bool, r: real): real {
    match phase
    case Rise => RiseLoad(currentLoad, maxLoad, r)
    case Sustain => maxLoad + (if isStable then 0.0 else r * 0.1 - 0.05)
    case Decay => DecayLoad(currentLoad, r)
  }

  /** The emitted value: `currentLoad > 0 ? currentLoad : 0`. */
  function Clamp(load: real): real {
    if load > 0.0 then load else 0.0
  }

  /** `currentLoad` after the first `i` iterations of an `n`-sample run. */
  function LoadAfter(i: nat, n: nat, initialLoad: real, maxLoad: real, isStable: bool, rs: seq<real>): real
    requires i <= n && EnoughDraws(n, isStable, rs)
  {
    if i == 0 then initialLoad
    else
      var phase := PhaseOf(i - 1, n);
      var k := DrawsBefore(i - 1, n, isStable);
      DrawsMonotone(i, n, n, isStable);
      var r := if DrawCost(phase, isStable) == 1 then rs[k] else 0.0;
      NextLoad(phase, LoadAfter(i - 1, n, initialLoad, maxLoad, isStable, rs), maxLoad, isStable, r)
  }

  /** One iteration of the loop: the draw it takes, if any, and the load it leaves behind. */
  lemma LoadStep(i: nat, n: nat, initialLoad: real, maxLoad: real, isStable: bool, rs: seq<real>)
    requires i < n && EnoughDraws(n, isStable, rs)
    ensures DrawsBefore(i + 1, n, isStable) == DrawsBefore(i, n, isStable) + DrawCost(PhaseOf(i, n), isStable)
    ensures DrawCost(PhaseOf(i, n), isStable) == 1 ==>
      DrawsBefore(i, n, isStable) < |rs| &&
      LoadAfter(i + 1, n, initialLoad, maxLoad, isStable, rs)
        == NextLoad(PhaseOf(i, n), LoadAfter(i, n, initialLoad, maxLoad, isStable, rs), maxLoad, isStable, rs[DrawsBefore(i, n, isStable)])
    ensures DrawCost(PhaseOf(i, n), isStable) == 0 ==> LoadAfter(i + 1, n, initialLoad, maxLoad, isStable, rs) == maxLoad
  {
    DrawsMonotone(i + 1, n, n, isStable);
  }

  /** The `i`-th sample of the run: stamped `n - i` minutes before `now`, valued at the clamped load. */
  function MetricSample(i: nat, n: nat, initialLoad: real, maxLoad: real, isStable: bool, now: int, rs: seq<real>): Sample
    requires i < n && EnoughDraws(n, isStable, rs)
  {
    Sample(now - (n - i) * MinuteMs, Clamp(LoadAfter(i + 1, n, initialLoad, maxLoad, isStable, rs)))
  }

  /** The first `m` samples of the run, in the order the loop pushes them. */
  function MetricSeries(m: nat, n: nat, initialLoad: real, maxLoad: real, isStable: bool, now: int, rs: seq<real>): seq<Sample>
    requires m <= n && EnoughDraws(n, isStable, rs)
  {
    if m == 0 then []
    else MetricSeries(m - 1, n, initialLoad, maxLoad, isStable, now, rs) + [MetricSample(m - 1, n, initialLoad, maxLoad, isStable, now, rs)]
  }

  /** Sample k of the series is `MetricSample(k, …)`. */
  lemma {:induction false} MetricSeriesAt(m: nat, n: nat, initialLoad: real, maxLoad: real, isStable: bool, now: int, rs: seq<real>)
    requires m <= n && EnoughDraws(n, isStable, rs)
    ensures |MetricSeries(m, n, initialLoad, maxLoad, isStable, now, rs)| == m
    ensures forall k :: 0 <= k < m ==>
      MetricSeries(m, n, initialLoad, maxLoad, isStable, now, rs)[k] == MetricSample(k, n, initialLoad, maxLoad, isStable, now, rs)
  {
    if m > 0 {
      MetricSeriesAt(m - 1, n, initialLoad, maxLoad, isStable, now, rs);
    }
  }

  /**
   The whole series: `n` samples one minute apart, the last one a minute
   before `now`, and no value below zero.
   */
  lemma MetricSeriesShape(n: nat, initialLoad: real, maxLoad: real, isStable: bool, now: int, rs: seq<real>)
    requires EnoughDraws(n, isStable, rs)
    ensures var s := MetricSeries(n, n, initialLoad, maxLoad, isStable, now, rs);
      |s| == n && MinuteSpaced(s) &&
      (n > 0 ==> s[0].time == now - n * MinuteMs && s[n - 1].time == now - MinuteMs) &&
      forall k :: 0 <= k < n ==> s[k].value >= 0.0
  {
    MetricSeriesAt(n, n, initialLoad, maxLoad, isStable, now, rs);
  }

  // ---------------------------------------------------------------------------
  // Rise phase

  /** Multiplying by a non-negative number keeps an order, strictly when it is positive. */
  lemma Scale(a: real, b: real, c: real)
    requires a >= 0.0 && b <= c
    ensures a * b <= a * c
    ensures a > 0.0 && b < c ==> a * b < a * c
  {
  }

  /** One rise step moves the load toward `maxLoad` without overshooting it. */
  lemma RiseStep(currentLoad: real, maxLoad: real, isStable: bool, r: real)
    requires IsDraw(r) && currentLoad <= maxLoad
    ensures currentLoad <= NextLoad(Rise, currentLoad, maxLoad, isStable, r) <= maxLoad
  {
    var gap := maxLoad - currentLoad;
    Scale(gap, 0.0, r * 0.1);
    Scale(gap, r * 0.1, 1.0);
    assert gap * 1.0 == gap;
    assert RiseLoad(currentLoad, maxLoad, r) == currentLoad + gap * (r * 0.1);
  }

  /**
   While every iteration so far was a rise step, a load that started in
   [0, maxLoad] has never decreased and never passed `maxLoad`.
   */
  lemma {:induction false} RiseBounded(i: nat, n: nat, initialLoad: real, maxLoad: real, isStable: bool, rs: seq<real>)
    requires i <= n && EnoughDraws(n, isStable, rs) && AllDraws(rs)
    requires 0.0 <= initialLoad <= maxLoad
    requires i == 0 || PhaseOf(i - 1, n) == Rise
    ensures initialLoad <= LoadAfter(i, n, initialLoad, maxLoad, isStable, rs) <= maxLoad
    ensures i > 0 ==> LoadAfter(i - 1, n, initialLoad, maxLoad, isStable, rs) <= LoadAfter(i, n, initialLoad, maxLoad, isStable, rs)
  {
    if i > 0 {
      assert i - 1 == 0 || PhaseOf(i - 2, n) == Rise by {
        if i >= 2 { PhaseOrdered(i - 2, i - 1, n); }
      }
      RiseBounded(i - 1, n, initialLoad, maxLoad, isStable, rs);
      DrawsMonotone(i, n, n, isStable);
      var k := DrawsBefore(i - 1, n, isStable);
      RiseStep(LoadAfter(i - 1, n, initialLoad, maxLoad, isStable, rs), maxLoad, isStable, rs[k]);
    }
  }

  /**
   In the rise phase the emitted values lie in [initialLoad, maxLoad] and
   never decrease from one sample to the next.
   */
  lemma RiseSamples(i: nat, n: nat, initialLoad: real, maxLoad: real, isStable: bool, now: int, rs: seq<real>)
    requires i < n && EnoughDraws(n, isStable, rs) && AllDraws(rs)
    requires 0.0 <= initialLoad <= maxLoad
    requires PhaseOf(i, n) == Rise
    ensures initialLoad <= MetricSample(i, n, initialLoad, maxLoad, isStable, now, rs).value <= maxLoad
    ensures i > 0 ==> MetricSample(i - 1, n, initialLoad, maxLoad, isStable, now, rs).value
                      <= MetricSample(i, n, initialLoad, maxLoad, isStable, now, rs).value
  {
    RiseBounded(i + 1, n, initialLoad, maxLoad, isStable, rs);
    if i > 0 {
      PhaseOrdered(i - 1, i, n);
      RiseBounded(i, n, initialLoad, maxLoad, isStable, rs);
    }
  }

  // ---------------------------------------------------------------------------
  // Sustain phase

  /** With the stable flag every sustain sample is exactly `maxLoad` (floored at zero). */
  lemma SustainStable(i: nat, n: nat, initialLoad: real, maxLoad: real, now: int, rs: seq<real>)
    requires i < n && EnoughDraws(n, true, rs)
    requires PhaseOf(i, n) == Sustain
    ensures LoadAfter(i + 1, n, initialLoad, maxLoad, true, rs) == maxLoad
    ensures MetricSample(i, n, initialLoad, maxLoad, true, now, rs).value == Clamp(maxLoad)
    ensures maxLoad >= 0.0 ==> MetricSample(i, n, initialLoad, maxLoad, true, now, rs).value == maxLoad
  {
  }

  /** Without the stable flag every sustain load lies in [maxLoad - 0.05, maxLoad + 0.05). */
  lemma SustainJitter(i: nat, n: nat, initialLoad: real, maxLoad: real, now: int, rs: seq<real>)
    requires i < n && EnoughDraws(n, false, rs) && AllDraws(rs)
    requires PhaseOf(i, n) == Sustain
    ensures maxLoad - 0.05 <= LoadAfter(i + 1, n, initialLoad, maxLoad, false, rs) < maxLoad + 0.05
    ensures maxLoad >= 0.0 ==>
      maxLoad - 0.05 <= MetricSample(i, n, initialLoad, maxLoad, false, now, rs).value < maxLoad + 0.05
  {
    DrawsMonotone(i + 1, n, n, false);
    assert IsDraw(rs[DrawsBefore(i, n, false)]);
  }

  // ---------------------------------------------------------------------------
  // Decay phase

  /** One decay step multiplies the load by a factor in (0.90, 0.95]. */
  lemma DecayStep(currentLoad: real, maxLoad: real, isStable: bool, r: real)
    requires IsDraw(r) && currentLoad > 0.0
    ensures currentLoad * 0.90 < NextLoad(Decay, currentLoad, maxLoad, isStable, r) <= currentLoad * 0.95
  {
  }

  /**
   Once the decay phase starts (at iteration `start`) with a positive load,
   every later decay step keeps the load positive and never increases it.
   */
  lemma {:induction false} DecayPositive(start: nat, i: nat, n: nat, initialLoad: real, maxLoad: real, isStable: bool, rs: seq<real>)
    requires start <= i < n && EnoughDraws(n, isStable, rs) && AllDraws(rs)
    requires PhaseOf(start, n) == Decay
    requires LoadAfter(start, n, initialLoad, maxLoad, isStable, rs) > 0.0
    ensures 0.0 < LoadAfter(i + 1, n, initialLoad, maxLoad, isStable, rs) <= LoadAfter(i, n, initialLoad, maxLoad, isStable, rs)
  {
    if start < i {
      DecayPositive(start, i - 1, n, initialLoad, maxLoad, isStable, rs);
    }
    PhaseOrdered(start, i, n);
    DrawsMonotone(i + 1, n, n, isStable);
    var k := DrawsBefore(i, n, isStable);
    DecayStep(LoadAfter(i, n, initialLoad, maxLoad, isStable, rs), maxLoad, isStable, rs[k]);
  }

  /**
   From the first decay sample on, the emitted values stay positive and never
   increase, provided the load entering the decay phase is positive.
   */
  lemma DecaySamples(start: nat, i: nat, n: nat, initialLoad: real, maxLoad: real, isStable: bool, now: int, rs: seq<real>)
    requires 0 < start <= i < n && EnoughDraws(n, isStable, rs) && AllDraws(rs)
    requires PhaseOf(start, n) == Decay
    requires LoadAfter(start, n, initialLoad, maxLoad, isStable, rs) > 0.0
    ensures 0.0 < MetricSample(i, n, initialLoad, maxLoad, isStable, now, rs).value
                <= MetricSample(i - 1, n, initialLoad, maxLoad, isStable, now, rs).value
  {
    DecayPositive(start, i, n, initialLoad, maxLoad, isStable, rs);
    if start < i {
      DecayPositive(start, i - 1, n, initialLoad, maxLoad, isStable, rs);
    }
  }

  /**
   The load entering the decay phase is positive whenever the sustain phase
   just before it ran with a large enough peak: `maxLoad > 0` when stable,
   `maxLoad > 0.05` otherwise.
   */
  lemma DecayEntryPositive(start: nat, n: nat, initialLoad: real, maxLoad: real, isStable: bool, rs: seq<real>)
    requires 0 < start < n && EnoughDraws(n, isStable, rs) && AllDraws(rs)
    requires PhaseOf(start - 1, n) == Sustain
    requires if isStable then maxLoad > 0.0 else maxLoad > 0.05
    ensures LoadAfter(start, n, initialLoad, maxLoad, isStable, rs) > 0.0
  {
    DrawsMonotone(start, n, n, isStable);
    if !isStable {
      assert IsDraw(rs[DrawsBefore(start - 1, n, isStable)]);
    }
  }

  // ---------------------------------------------------------------------------
  // Whole runs

  /**
   A run that starts with a positive load no larger than the peak, and whose
   peak clears the sustain jitter, never hits the zero floor: every emitted
   value is the positive running load itself.
   */
  lemma {:induction false} NeverClamped(i: nat, n: nat, initialLoad: real, maxLoad: real, isStable: bool, now: int, rs: seq<real>)
    requires i < n && EnoughDraws(n, isStable, rs) && AllDraws(rs)
    requires 0.0 < initialLoad <= maxLoad
    requires if isStable then maxLoad > 0.0 else maxLoad > 0.05
    ensures LoadAfter(i + 1, n, initialLoad, maxLoad, isStable, rs) > 0.0
    ensures MetricSample(i, n, initialLoad, maxLoad, isStable, now, rs).value
            == LoadAfter(i + 1, n, initialLoad, maxLoad, isStable, rs)
  {
    match PhaseOf(i, n)
    case Rise =>
      RiseBounded(i + 1, n, initialLoad, maxLoad, isStable, rs);
    case Sustain =>
      if !isStable {
        SustainJitter(i, n, initialLoad, maxLoad, now, rs);
      }
    case Decay =>
      assert i > 0;
      NeverClamped(i - 1, n, initialLoad, maxLoad, isStable, now, rs);
      DrawsMonotone(i + 1, n, n, isStable);
      var k := DrawsBefore(i, n, isStable);
      DecayStep(LoadAfter(i, n, initialLoad, maxLoad, isStable, rs), maxLoad, isStable, rs[k]);
  }

  // ---------------------------------------------------------------------------
  // The dashboard's 60-sample runs

  /** With 60 samples the rise phase is samples 0-17, sustain 18-41 and decay 42-59. */
  lemma PhasesOfSixty(i: nat)
    ensures PhaseOf(i, 60) == Rise <==> i < 18
    ensures PhaseOf(i, 60) == Sustain <==> 18 <= i < 42
    ensures PhaseOf(i, 60) == Decay <==> 42 <= i
  {
  }

  /** A stable 60-sample run holds exactly at its (non-negative) peak for samples 18 to 41. */
  lemma StableSustainOfSixty(i: nat, initialLoad: real, maxLoad: real, now: int, rs: seq<real>)
    requires 18 <= i < 42 && EnoughDraws(60, true, rs)
    requires maxLoad >= 0.0
    ensures MetricSample(i, 60, initialLoad, maxLoad, true, now, rs).value == maxLoad
  {
  }
}
