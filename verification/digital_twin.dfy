/**
  The digital twin's latency generator: one latency sample for the
  AI-native 6G model or for the legacy 5G model, and the fixed-length time
  series built from such samples. The random source is a parameter: every
  draw is a unit value u in [0, 1), which the uniform distribution scales to
  its interval as low + (high - low) * u.
 */
module DigitalTwin {

  /** A unit draw of the random source. */
  predicate IsUnitDraw(u: real)
  {
    0.0 <= u < 1.0
  }

  /** A value drawn uniformly from the half-open interval [low, high), the
      way numpy's `uniform` scales a unit draw. Every interval the engine
      uses has constant ends, so the bounds of each draw are stated where
      the interval is known (Noise, Jitter). */
  function Uniform(low: real, high: real, u: real): real
  {
    low + (high - low) * u
  }

  /** The 6G noise term lies in [-0.02, 0.05). */
  function Noise(u: real): (r: real)
    requires IsUnitDraw(u)
    ensures -0.02 <= r < 0.05
  {
    Uniform(-0.02, 0.05, u)
  }

  /** Legacy jitter switches regime above 50% load: [5, 50) beyond the
      threshold, [2, 10) at or below it. */
  function Jitter(load: int, u: real): (r: real)
    requires IsUnitDraw(u)
    ensures load > 50 ==> 5.0 <= r < 50.0
    ensures load <= 50 ==> 2.0 <= r < 10.0
  {
    if load > 50 then Uniform(5.0, 50.0, u) else Uniform(2.0, 10.0, u)
  }

  /** One latency sample in milliseconds. The 6G sample grows by 0.001 ms per
      percent of load plus a small noise term; the legacy sample grows by
      0.5 ms per percent of load plus jitter. */
  function LiveMetric(base: real, load: int, is6G: bool, u: real): (r: real)
    requires IsUnitDraw(u)
    ensures is6G ==>
      base + 0.001 * load as real - 0.02 <= r < base + 0.001 * load as real + 0.05
    ensures !is6G && load > 50 ==>
      base + 0.5 * load as real + 5.0 <= r < base + 0.5 * load as real + 50.0
    ensures !is6G && load <= 50 ==>
      base + 0.5 * load as real + 2.0 <= r < base + 0.5 * load as real + 10.0
  {
    if is6G then base + load as real * 0.001 + Noise(u)
    else base + load as real * 0.5 + Jitter(load, u)
  }

  /** 6G latency over the whole load range, and at its two ends. */
  lemma NextGenBounds(base: real, load: int, u: real)
    requires 0 <= load <= 100 && IsUnitDraw(u)
    ensures base - 0.02 <= LiveMetric(base, load, true, u) < base + 0.15
    ensures load == 0 ==> base - 0.02 <= LiveMetric(base, load, true, u) < base + 0.05
    ensures load == 100 ==> base + 0.08 <= LiveMetric(base, load, true, u) < base + 0.15
  {
  }

  /** Legacy latency over the whole load range, idle, and at 80% load. */
  lemma LegacyBounds(base: real, load: int, u: real)
    requires 0 <= load <= 100 && IsUnitDraw(u)
    ensures base + 2.0 <= LiveMetric(base, load, false, u) < base + 100.0
    ensures load == 0 ==> base + 2.0 <= LiveMetric(base, load, false, u) < base + 10.0
    ensures load == 80 ==> base + 45.0 <= LiveMetric(base, load, false, u) < base + 90.0
  {
  }

  /** For the same base latency, every legacy sample exceeds every 6G sample,
      whatever the two loads in [0, 100] and the two draws. */
  lemma LegacyAboveNextGen(base: real, legacyLoad: int, nextGenLoad: int, u: real, v: real)
    requires 0 <= legacyLoad <= 100 && 0 <= nextGenLoad <= 100
    requires IsUnitDraw(u) && IsUnitDraw(v)
    ensures LiveMetric(base, legacyLoad, false, u) > LiveMetric(base, nextGenLoad, true, v)
  {
    LegacyBounds(base, legacyLoad, u);
    NextGenBounds(base, nextGenLoad, v);
  }

  /** Number of time steps in each series. */
  const Steps := 10

  /** Every value of `draws` is a unit draw. */
  predicate UnitDraws(draws: seq<real>)
  {
    forall i :: 0 <= i < |draws| ==> IsUnitDraw(draws[i])
  }

  /** The series for time steps 0 .. Steps - 1: each element is an independent
      sample for the same base latency and load, taken with that step's draw. */
  function Series(base: real, load: int, is6G: bool, draws: seq<real>): (s: seq<real>)
    requires |draws| == Steps && UnitDraws(draws)
    ensures |s| == Steps
    ensures forall t :: 0 <= t < Steps ==> s[t] == LiveMetric(base, load, is6G, draws[t])
  {
    seq(Steps, t requires 0 <= t < Steps => LiveMetric(base, load, is6G, draws[t]))
  }

  /** Pointwise in time, and across time steps, the legacy series lies above
      the 6G series built for the same base latency. */
  lemma LegacySeriesAbove(base: real, load: int, legacyDraws: seq<real>, nextGenDraws: seq<real>)
    requires 0 <= load <= 100
    requires |legacyDraws| == Steps && UnitDraws(legacyDraws)
    requires |nextGenDraws| == Steps && UnitDraws(nextGenDraws)
    ensures forall t, t' :: 0 <= t < Steps && 0 <= t' < Steps ==>
      Series(base, load, false, legacyDraws)[t] > Series(base, load, true, nextGenDraws)[t']
  {
    forall t, t' | 0 <= t < Steps && 0 <= t' < Steps
      ensures Series(base, load, false, legacyDraws)[t] > Series(base, load, true, nextGenDraws)[t']
    {
      LegacyAboveNextGen(base, load, load, legacyDraws[t], nextGenDraws[t']);
    }
  }
}
