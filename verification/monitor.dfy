/** NeuronMonitor: per observed neuron, a rising-edge spike detector feeding a
    queue of spike timestamps, an exponential moving average of the output,
    and a sliding-window eviction that keeps `spikeCount` equal to the number
    of recent spikes. `Time.time * 1000` is the `nowMs` parameter. */
module Monitor {
  import opened Prims
  import opened RealSeq

  /** The monitor's public tuning fields. */
  datatype MonitorParams = MonitorParams(spikeThreshold: real, spikeWindowDuration: real, emaAlpha: real)

  /** The field initialisers: threshold 0.1, window 100 ms, alpha 0.1. */
  const DefaultParams: MonitorParams := MonitorParams(0.1, 100.0, 0.1)

  /** The monitor's state. `spikeFlag` arms the detector; `isFirstEma` marks
      that the EMA has not been seeded yet. */
  datatype Monitor = Monitor(
    spikeTimestamps: seq<real>, spikeFlag: bool, isFirstEma: bool,
    emaVoltage: real, spikeCount: real)

  /** The state after Start: empty queue, armed detector, unseeded EMA. */
  const Initial: Monitor := Monitor([], true, true, 0.0, 0.0)

  /** One observation of the neuron's output at time `nowMs`. */
  datatype Sample = Sample(output: real, nowMs: real)

  /** DetectSpike: enqueue `nowMs` on an armed detector seeing output at or above
      the threshold and disarm; re-arm on output below the threshold. */
  function DetectSpike(p: MonitorParams, m: Monitor, output: real, nowMs: real): (r: Monitor)
    ensures r.spikeFlag <==> output < p.spikeThreshold
    ensures |r.spikeTimestamps| == |m.spikeTimestamps| + 1 <==> output >= p.spikeThreshold && m.spikeFlag
    ensures r.spikeTimestamps == m.spikeTimestamps || r.spikeTimestamps == m.spikeTimestamps + [nowMs]
    ensures r.(spikeTimestamps := m.spikeTimestamps, spikeFlag := m.spikeFlag) == m
  {
    if output >= p.spikeThreshold && m.spikeFlag then
      m.(spikeTimestamps := m.spikeTimestamps + [nowMs], spikeFlag := false)
    else if output < p.spikeThreshold && !m.spikeFlag then
      m.(spikeFlag := true)
    else
      m
  }

  /** MeasureEMAVoltage: the first sample seeds the average; later samples move
      it a fraction alpha of the way towards the output. */
  function MeasureEma(p: MonitorParams, m: Monitor, output: real): (r: Monitor)
    ensures !r.isFirstEma
    ensures m.isFirstEma ==> r.emaVoltage == output
    ensures !m.isFirstEma ==> r.emaVoltage - m.emaVoltage == p.emaAlpha * (output - m.emaVoltage)
    ensures !m.isFirstEma && 0.0 <= p.emaAlpha <= 1.0 ==>
      Min(output, m.emaVoltage) <= r.emaVoltage <= Max(output, m.emaVoltage)
    ensures r.(isFirstEma := m.isFirstEma, emaVoltage := m.emaVoltage) == m
  {
    if m.isFirstEma then
      m.(emaVoltage := output, isFirstEma := false)
    else
      var ema := p.emaAlpha * output + (1.0 - p.emaAlpha) * m.emaVoltage;
      EmaStep(p.emaAlpha, output, m.emaVoltage, ema);
      m.(emaVoltage := ema)
  }

  /** One EMA step moves the average a fraction alpha of the way from e to
      x; for alpha in [0, 1] it stays between the two. */
  lemma EmaStep(alpha: real, x: real, e: real, ema: real)
    requires ema == alpha * x + (1.0 - alpha) * e
    ensures ema - e == alpha * (x - e)
    ensures 0.0 <= alpha <= 1.0 ==> Min(x, e) <= ema <= Max(x, e)
  {
    var d := x - e;
    var k := alpha * d;
    assert ema == e + k;
    if 0.0 <= alpha <= 1.0 {
      if d >= 0.0 {
        FractionLow(alpha, d);
        FractionHigh(alpha, d);
      } else {
        FractionLowNegative(alpha, d);
        FractionHighNegative(alpha, d);
      }
      Between(x, e, k);
    }
  }

  /** A step of k from e towards x that does not overshoot stays between them. */
  lemma Between(x: real, e: real, k: real)
    requires x >= e ==> 0.0 <= k && k <= x - e
    requires x < e ==> x - e <= k && k <= 0.0
    ensures Min(x, e) <= e + k <= Max(x, e)
  {
  }

  lemma FractionLow(alpha: real, d: real)
    requires 0.0 <= alpha && d >= 0.0
    ensures 0.0 <= alpha * d
  {
    ScaleMonotone(d, 0.0, alpha);
  }

  lemma FractionHigh(alpha: real, d: real)
    requires alpha <= 1.0 && d >= 0.0
    ensures alpha * d <= d
  {
    ScaleMonotone(d, alpha, 1.0);
  }

  lemma FractionLowNegative(alpha: real, d: real)
    requires alpha <= 1.0 && d <= 0.0
    ensures d <= alpha * d
  {
    ScaleMonotone(-d, alpha, 1.0);
  }

  lemma FractionHighNegative(alpha: real, d: real)
    requires 0.0 <= alpha && d <= 0.0
    ensures alpha * d <= 0.0
  {
    ScaleMonotone(alpha, d, 0.0);
  }

  /** The eviction loop of UpdateSpikeCount: drop timestamps from the front
      while they are strictly older than the window. */
  function Evict(q: seq<real>, nowMs: real, window: real): (r: seq<real>)
    ensures |r| <= |q| && r == q[|q| - |r|..]
    ensures forall i :: 0 <= i < |q| - |r| ==> nowMs - q[i] > window
    ensures |r| > 0 ==> nowMs - r[0] <= window
    decreases |q|
  {
    if |q| > 0 && nowMs - q[0] > window then Evict(q[1..], nowMs, window) else q
  }

  /** UpdateSpikeCount: evict, then publish the queue length. */
  function UpdateSpikeCount(p: MonitorParams, m: Monitor, nowMs: real): (r: Monitor)
    ensures r.spikeTimestamps == Evict(m.spikeTimestamps, nowMs, p.spikeWindowDuration)
    ensures r.spikeCount == |r.spikeTimestamps| as real
    ensures r.(spikeTimestamps := m.spikeTimestamps, spikeCount := m.spikeCount) == m
  {
    var q := Evict(m.spikeTimestamps, nowMs, p.spikeWindowDuration);
    m.(spikeTimestamps := q, spikeCount := |q| as real)
  }

  /** Update: detect, then EMA, then count, all at the same `nowMs`; nothing
      happens when no neuron is attached. */
  function Update(p: MonitorParams, m: Monitor, output: Option<real>, nowMs: real): (r: Monitor)
    ensures output.None? ==> r == m
    ensures output.Some? ==> r.spikeCount == |r.spikeTimestamps| as real >= 0.0
    ensures output.Some? ==> !r.isFirstEma
    ensures |r.spikeTimestamps| <= |m.spikeTimestamps| + 1
  {
    match output
    case None => m
    case Some(out) =>
      var detected := DetectSpike(p, m, out, nowMs);
      UpdateSpikeCount(p, MeasureEma(p, detected, out), nowMs)
  }

  /** Timestamps in non-decreasing order, as the queue receives them. */
  predicate Sorted(q: seq<real>) {
    forall i, j :: 0 <= i <= j < |q| ==> q[i] <= q[j]
  }

  /** Every stored timestamp lies in [now - window, now]. */
  predicate InWindow(q: seq<real>, nowMs: real, window: real) {
    forall i :: 0 <= i < |q| ==> nowMs - window <= q[i] <= nowMs
  }

  /** With a non-decreasing clock, every update leaves the queue sorted and
      every timestamp in it within the window ending now. */
  lemma UpdateKeepsWindow(p: MonitorParams, m: Monitor, output: real, nowMs: real)
    requires Sorted(m.spikeTimestamps)
    requires forall i :: 0 <= i < |m.spikeTimestamps| ==> m.spikeTimestamps[i] <= nowMs
    ensures var r := Update(p, m, Some(output), nowMs);
      Sorted(r.spikeTimestamps) && InWindow(r.spikeTimestamps, nowMs, p.spikeWindowDuration)
  {
    var d := DetectSpike(p, m, output, nowMs);
    DetectKeepsSorted(p, m, output, nowMs);
    EvictSortedInWindow(d.spikeTimestamps, nowMs, p.spikeWindowDuration);
  }

  lemma DetectKeepsSorted(p: MonitorParams, m: Monitor, output: real, nowMs: real)
    requires Sorted(m.spikeTimestamps)
    requires forall i :: 0 <= i < |m.spikeTimestamps| ==> m.spikeTimestamps[i] <= nowMs
    ensures var q := DetectSpike(p, m, output, nowMs).spikeTimestamps;
      Sorted(q) && forall i :: 0 <= i < |q| ==> q[i] <= nowMs
  {
  }

  lemma EvictSortedInWindow(q: seq<real>, nowMs: real, window: real)
    requires Sorted(q)
    requires forall i :: 0 <= i < |q| ==> q[i] <= nowMs
    ensures Sorted(Evict(q, nowMs, window)) && InWindow(Evict(q, nowMs, window), nowMs, window)
  {
    var r := Evict(q, nowMs, window);
    var k := |q| - |r|;
    assert r == q[k..];
    forall i | 0 <= i < |r| ensures nowMs - window <= r[i] <= nowMs {
      assert r[i] == q[k + i];
      assert r[0] == q[k];
    }
  }

  /** Detection over a run of samples (the other phases do not touch the queue's tail). */
  function DetectRun(p: MonitorParams, m: Monitor, samples: seq<Sample>): Monitor
    decreases |samples|
  {
    if samples == [] then m
    else
      var last := samples[|samples| - 1];
      DetectSpike(p, DetectRun(p, m, samples[..|samples| - 1]), last.output, last.nowMs)
  }

  /** A run of consecutive at-or-above-threshold samples enqueues at most one
      timestamp, and none when the detector starts disarmed. */
  lemma {:induction false} AboveThresholdRunCountsOnce(p: MonitorParams, m: Monitor, samples: seq<Sample>)
    requires forall i :: 0 <= i < |samples| ==> samples[i].output >= p.spikeThreshold
    ensures |DetectRun(p, m, samples).spikeTimestamps| <= |m.spikeTimestamps| + 1
    ensures !m.spikeFlag ==> DetectRun(p, m, samples).spikeTimestamps == m.spikeTimestamps
    ensures samples != [] ==> !DetectRun(p, m, samples).spikeFlag
    decreases |samples|
  {
    if samples != [] {
      var init := samples[..|samples| - 1];
      AboveThresholdRunCountsOnce(p, m, init);
      var before := DetectRun(p, m, init);
      if init != [] {
        assert !before.spikeFlag;
      }
    }
  }

  /** A run of updates from a given state. */
  function Run(p: MonitorParams, m: Monitor, samples: seq<Sample>): Monitor
    decreases |samples|
  {
    if samples == [] then m
    else
      var last := samples[|samples| - 1];
      Update(p, Run(p, m, samples[..|samples| - 1]), Some(last.output), last.nowMs)
  }

  function Outputs(samples: seq<Sample>): (r: seq<real>)
    ensures |r| == |samples|
  {
    MapSeq((s: Sample) => s.output, samples)
  }

  /** With alpha in [0, 1] the EMA of a fresh monitor always lies between the
      least and the greatest output observed so far. */
  lemma {:induction false} EmaWithinObserved(p: MonitorParams, samples: seq<Sample>)
    requires 0.0 <= p.emaAlpha <= 1.0
    requires |samples| > 0
    ensures var r := Run(p, Initial, samples);
      !r.isFirstEma && MinOf(Outputs(samples)) <= r.emaVoltage <= MaxOf(Outputs(samples))
    decreases |samples|
  {
    var n := |samples| - 1;
    var last := samples[n];
    var init := samples[..n];
    var before := Run(p, Initial, init);
    RunSnoc(p, samples);
    UpdateEma(p, before, last.output, last.nowMs);
    OutputsSnoc(samples);
    if init == [] {
      assert before == Initial;
    } else {
      EmaWithinObserved(p, init);
      SnocMinMax(Outputs(init), last.output);
      EmaStepWithin(MinOf(Outputs(init)), MaxOf(Outputs(init)), before.emaVoltage, last.output,
                    Run(p, Initial, samples).emaVoltage);
    }
  }

  lemma RunSnoc(p: MonitorParams, samples: seq<Sample>)
    requires |samples| > 0
    ensures var last := samples[|samples| - 1];
      Run(p, Initial, samples) == Update(p, Run(p, Initial, samples[..|samples| - 1]), Some(last.output), last.nowMs)
  {
  }

  lemma OutputsSnoc(samples: seq<Sample>)
    requires |samples| > 0
    ensures Outputs(samples) == Outputs(samples[..|samples| - 1]) + [samples[|samples| - 1].output]
  {
    var n := |samples| - 1;
    assert samples == samples[..n] + [samples[n]];
    MapSeqAppend((s: Sample) => s.output, samples[..n], [samples[n]]);
  }

  /** One EMA step keeps the value within the observed range extended by the
      new output. */
  lemma EmaStepWithin(lo: real, hi: real, before: real, x: real, after: real)
    requires lo <= before <= hi
    requires Min(x, before) <= after <= Max(x, before)
    ensures Min(lo, x) <= after <= Max(hi, x)
  {
  }

  lemma SnocMinMax(s: seq<real>, x: real)
    requires |s| > 0
    ensures MinOf(s + [x]) == Min(MinOf(s), x)
    ensures MaxOf(s + [x]) == Max(MaxOf(s), x)
  {
    assert (s + [x])[..|s|] == s;
  }

  /** The EMA part of an update is exactly MeasureEma on the prior state. */
  lemma UpdateEma(p: MonitorParams, m: Monitor, output: real, nowMs: real)
    ensures Update(p, m, Some(output), nowMs).emaVoltage == MeasureEma(p, m, output).emaVoltage
    ensures !Update(p, m, Some(output), nowMs).isFirstEma
  {
    var d := DetectSpike(p, m, output, nowMs);
    assert d.emaVoltage == m.emaVoltage && d.isFirstEma == m.isFirstEma;
  }
}
