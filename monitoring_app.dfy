/**
 The four synthetic series generators of the monitoring dashboard. Each one
 starts from an empty array, runs one counting loop and pushes one
 `[time, value]` pair per iteration; the two load generators also carry a
 running `currentLoad` from one iteration to the next.

 The clock reading `now` and the random draws `rs` are parameters (see
 module TimeSeries); each generator also returns `used`, the number of draws
 it took from `rs`.
 */
module MonitoringApp {
  import opened TimeSeries
  import opened LoadProfile

  /** The value `generateMockData` draws before formatting: `r * (max - min) + min`. */
  function MockValue(r: real, minValue: real, maxValue: real): real {
    r * (maxValue - minValue) + minValue
  }

  /** A draw in [0, 1) maps into [minValue, maxValue), or onto minValue when the bounds coincide. */
  lemma MockValueInRange(r: real, minValue: real, maxValue: real)
    requires IsDraw(r) && minValue <= maxValue
    ensures minValue <= MockValue(r, minValue, maxValue)
    ensures minValue < maxValue ==> MockValue(r, minValue, maxValue) < maxValue
    ensures minValue == maxValue ==> MockValue(r, minValue, maxValue) == minValue
  {
    var spread := maxValue - minValue;
    Scale(spread, 0.0, r);
    Scale(spread, r, 1.0);
    assert spread * 1.0 == spread;
    assert MockValue(r, minValue, maxValue) == spread * r + minValue;
    assert minValue < maxValue ==> MockValue(r, minValue, maxValue) < spread + minValue;
  }

  /**
   Uniform random samples. The loop counts `i` down from `dataPoints - 1` to
   0, so the k-th pushed sample is stamped `dataPoints - 1 - k` minutes
   before `now` and takes the k-th draw.
   */
  method GenerateMockData(dataPoints: nat, minValue: real, maxValue: real, now: int, rs: seq<real>)
    returns (data: seq<Sample>, used: nat)
    requires dataPoints <= |rs|
    ensures |data| == dataPoints && used == dataPoints
    ensures forall k :: 0 <= k < dataPoints ==>
      data[k] == Sample(now - (dataPoints - 1 - k) * MinuteMs, MockValue(rs[k], minValue, maxValue))
    ensures MinuteSpaced(data)
    ensures dataPoints > 0 ==> data[dataPoints - 1].time == now
    ensures AllDraws(rs) && minValue <= maxValue ==>
      forall k :: 0 <= k < dataPoints ==>
        minValue <= data[k].value && (minValue < maxValue ==> data[k].value < maxValue)
  {
    data := [];
    used := 0;
    var i: int := dataPoints - 1;
    while i >= 0
      invariant -1 <= i < dataPoints
      invariant |data| == dataPoints - 1 - i && used == |data|
      invariant forall k :: 0 <= k < |data| ==>
        data[k] == Sample(now - (dataPoints - 1 - k) * MinuteMs, MockValue(rs[k], minValue, maxValue))
    {
      var time := now - i * MinuteMs;
      var value := rs[used] * (maxValue - minValue) + minValue;
      data := data + [Sample(time, value)];
      used := used + 1;
      i := i - 1;
    }
    if AllDraws(rs) && minValue <= maxValue {
      forall k | 0 <= k < dataPoints
        ensures minValue <= data[k].value && (minValue < maxValue ==> data[k].value < maxValue)
      {
        MockValueInRange(rs[k], minValue, maxValue);
      }
    }
  }

  /**
   A flat series: every value is `constantValue`, and the samples run from
   `dataPoints` minutes before `now` up to one minute before `now`.
   */
  method GenerateConstantData(dataPoints: nat, constantValue: real, now: int) returns (data: seq<Sample>)
    ensures |data| == dataPoints
    ensures forall k :: 0 <= k < dataPoints ==> data[k].value == constantValue
    ensures forall k :: 0 <= k < dataPoints ==> data[k].time == now - (dataPoints - k) * MinuteMs
    ensures MinuteSpaced(data)
    ensures dataPoints > 0 ==> data[0].time == now - dataPoints * MinuteMs && data[dataPoints - 1].time == now - MinuteMs
  {
    data := [];
    for i := 0 to dataPoints
      invariant |data| == i
      invariant forall k :: 0 <= k < i ==> data[k] == Sample(now - (dataPoints - k) * MinuteMs, constantValue)
    {
      var time := now - (dataPoints - i) * MinuteMs;
      data := data + [Sample(time, constantValue)];
    }
  }

  /**
   The rise / sustain / decay generator with the `isStable` flag: the run
   `MetricSeries`, whose sample i is the load after i + 1 iterations, floored
   at zero, stamped `dataPoints - i` minutes before `now`.
   */
  method GenerateMetricData(dataPoints: nat, initialLoad: real, maxLoad: real, isStable: bool, now: int, rs: seq<real>)
    returns (data: seq<Sample>, used: nat)
    requires EnoughDraws(dataPoints, isStable, rs)
    ensures data == MetricSeries(dataPoints, dataPoints, initialLoad, maxLoad, isStable, now, rs)
    ensures used == DrawsBefore(dataPoints, dataPoints, isStable)
    ensures |data| == dataPoints && MinuteSpaced(data)
    ensures dataPoints > 0 ==> data[dataPoints - 1].time == now - MinuteMs
    ensures forall i :: 0 <= i < dataPoints ==> data[i].value >= 0.0
  {
    data := [];
    used := 0;
    var currentLoad := initialLoad;
    for i := 0 to dataPoints
      invariant data == MetricSeries(i, dataPoints, initialLoad, maxLoad, isStable, now, rs)
      invariant used == DrawsBefore(i, dataPoints, isStable)
      invariant currentLoad == LoadAfter(i, dataPoints, initialLoad, maxLoad, isStable, rs)
    {
      LoadStep(i, dataPoints, initialLoad, maxLoad, isStable, rs);
      var time := now - (dataPoints - i) * MinuteMs;
      if (i as real) < (dataPoints as real) * 0.3 {
        currentLoad := RiseLoad(currentLoad, maxLoad, rs[used]);
        used := used + 1;
      } else if (i as real) < (dataPoints as real) * 0.7 {
        if isStable {
          currentLoad := maxLoad + 0.0;
        } else {
          currentLoad := maxLoad + (rs[used] * 0.1 - 0.05);
          used := used + 1;
        }
      } else {
        currentLoad := DecayLoad(currentLoad, rs[used]);
        used := used + 1;
      }
      assert currentLoad == LoadAfter(i + 1, dataPoints, initialLoad, maxLoad, isStable, rs);
      var value := if currentLoad > 0.0 then currentLoad else 0.0;
      assert Sample(time, value) == MetricSample(i, dataPoints, initialLoad, maxLoad, isStable, now, rs);
      data := data + [Sample(time, value)];
    }
    MetricSeriesShape(dataPoints, initialLoad, maxLoad, isStable, now, rs);
  }

  /**
   The system-load generator: the same loop as `GenerateMetricData` without
   the flag, always drawing in the sustain phase. Its output is exactly that
   of `GenerateMetricData` with `isStable` false on the same clock and draws.
   */
  method GenerateRealisticLoadData(dataPoints: nat, initialLoad: real, maxLoad: real, now: int, rs: seq<real>)
    returns (data: seq<Sample>, used: nat)
    requires dataPoints <= |rs|
    ensures EnoughDraws(dataPoints, false, rs)
    ensures data == MetricSeries(dataPoints, dataPoints, initialLoad, maxLoad, false, now, rs)
    ensures used == dataPoints
  {
    DrawsUnstable(dataPoints, dataPoints);
    data := [];
    used := 0;
    var currentLoad := initialLoad;
    for i := 0 to dataPoints
      invariant data == MetricSeries(i, dataPoints, initialLoad, maxLoad, false, now, rs)
      invariant used == i
      invariant currentLoad == LoadAfter(i, dataPoints, initialLoad, maxLoad, false, rs)
    {
      LoadStep(i, dataPoints, initialLoad, maxLoad, false, rs);
      DrawsUnstable(i, dataPoints);
      var time := now - (dataPoints - i) * MinuteMs;
      if (i as real) < (dataPoints as real) * 0.3 {
        currentLoad := RiseLoad(currentLoad, maxLoad, rs[used]);
      } else if (i as real) < (dataPoints as real) * 0.7 {
        currentLoad := maxLoad + (rs[used] * 0.1 - 0.05);
      } else {
        currentLoad := DecayLoad(currentLoad, rs[used]);
      }
      used := used + 1;
      assert currentLoad == LoadAfter(i + 1, dataPoints, initialLoad, maxLoad, false, rs);
      var value := if currentLoad > 0.0 then currentLoad else 0.0;
      assert Sample(time, value) == MetricSample(i, dataPoints, initialLoad, maxLoad, false, now, rs);
      data := data + [Sample(time, value)];
    }
  }

  /**
   The two load generators agree: on the same clock and draws,
   `generateRealisticLoadData(n, a, b)` and `generateMetricData(n, a, b, false)`
   push the same samples and take the same number of draws.
   */
  method LoadGeneratorsAgree(dataPoints: nat, initialLoad: real, maxLoad: real, now: int, rs: seq<real>)
    returns (loadData: seq<Sample>, loadUsed: nat, metricData: seq<Sample>, metricUsed: nat)
    requires dataPoints <= |rs|
    ensures loadData == metricData && loadUsed == metricUsed
  {
    loadData, loadUsed := GenerateRealisticLoadData(dataPoints, initialLoad, maxLoad, now, rs);
    metricData, metricUsed := GenerateMetricData(dataPoints, initialLoad, maxLoad, false, now, rs);
    DrawsUnstable(dataPoints, dataPoints);
  }
}
