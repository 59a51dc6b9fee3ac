/**
  One orchestration pass: look up the primary (and, when deployed, the
  secondary) service, build the slice resource pool, decide the contention
  reasoning, pick the decision weights of the primary's type and generate
  the legacy and 6G latency series for the primary's target latency.
 */
module Engine {
  import opened Wrappers
  import opened Catalog
  import opened Orchestrator
  import opened DigitalTwin

  /** Everything one pass produces. `reasoning` is present only when a
      second, distinct service is deployed. */
  datatype Report = Report(
    pool: seq<PoolRow>,
    reasoning: Option<Reasoning>,
    weights: seq<real>,
    legacy: seq<real>,
    nextGen: seq<real>)

  /** An orchestration pass for primary `s1`, secondary selection `s2` (the
      string "None" when nothing is selected) and network load `load` in
      percent. `draws` are the random source's unit draws in the order they
      are consumed: the legacy series' ten, then the 6G series' ten. */
  function Orchestrate(s1: string, s2: string, load: int, draws: seq<real>): (r: Result<Report, Error>)
    requires |draws| == 2 * Steps && UnitDraws(draws)
    ensures r.Failure? <==> s1 !in Services || (SecondDeployed(s1, s2) && s2 !in Services)
    ensures r.Failure? ==> r.error == UnknownService(if s1 !in Services then s1 else s2)
    ensures r.Success? ==>
      |r.value.pool| == (if SecondDeployed(s1, s2) then 2 else 1) &&
      r.value.pool[0].service == s1 &&
      (r.value.reasoning.Some? <==> SecondDeployed(s1, s2))
    ensures r.Success? && r.value.reasoning.Some? ==>
      (r.value.reasoning.value == OrthogonalSlicing <==> Services[s1].slice == Services[s2].slice)
    ensures r.Success? ==> r.value.pool == Pool(s1, s2)
    ensures r.Success? ==>
      r.value.weights == Weights(Services[s1].kind) &&
      |r.value.weights| == |Features| &&
      forall i :: 0 <= i < |r.value.weights| ==> 0.0 <= r.value.weights[i] <= 1.0
    ensures r.Success? ==>
      |r.value.legacy| == Steps && |r.value.nextGen| == Steps &&
      (forall t :: 0 <= t < Steps ==>
        r.value.legacy[t] == LiveMetric(Services[s1].latency, load, false, draws[t])) &&
      (forall t :: 0 <= t < Steps ==>
        r.value.nextGen[t] == LiveMetric(Services[s1].latency, load, true, draws[Steps + t]))
  {
    match Lookup(s1)
    case None => Failure(UnknownService(s1))
    case Some(p1) =>
      if SecondDeployed(s1, s2) && s2 !in Services then
        Failure(UnknownService(s2))
      else
        var reasoning := if SecondDeployed(s1, s2) then Some(Reason(p1, Services[s2])) else None;
        var legacyDraws, nextGenDraws := draws[..Steps], draws[Steps..];
        assert forall t :: 0 <= t < Steps ==> nextGenDraws[t] == draws[Steps + t];
        Success(Report(
          Pool(s1, s2),
          reasoning,
          Weights(p1.kind),
          Series(p1.latency, load, false, legacyDraws),
          Series(p1.latency, load, true, nextGenDraws)))
  }

  /** With no second service, or the primary selected twice, the pass
      deploys the primary alone and runs no contention analysis. */
  lemma SingleServicePass(s1: string, s2: string, load: int, draws: seq<real>)
    requires |draws| == 2 * Steps && UnitDraws(draws)
    requires s1 in Services && (s2 == "None" || s2 == s1)
    ensures Orchestrate(s1, s2, load, draws).Success?
    ensures Orchestrate(s1, s2, load, draws).value.pool ==
      [PoolRow(s1, Services[s1].slice, ResourceLock(Services[s1].slice))]
    ensures Orchestrate(s1, s2, load, draws).value.reasoning == None
  {
        assert Pool(s1, s2)[0] == PoolRow(s1, Services[s1].slice, ResourceLock(Services[s1].slice));
  }

  /** Swapping the two distinct services of a successful pass keeps the
      contention branch. */
  lemma SwapKeepsReasoning(s1: string, s2: string, load: int, draws: seq<real>)
    requires |draws| == 2 * Steps && UnitDraws(draws)
    requires s1 in Services && s2 in Services && s2 != s1 && s1 != "None" && s2 != "None"
    ensures Orchestrate(s1, s2, load, draws).value.reasoning
         == Orchestrate(s2, s1, load, draws).value.reasoning
  {
    ReasonSymmetric(Services[s1], Services[s2]);
  }

  /** When a distinct second service is deployed, the pool lists the two
      services in order, each with its slice and that slice's lock. */
  lemma PairPool(s1: string, s2: string)
    requires s1 in Services && s2 in Services && SecondDeployed(s1, s2)
    ensures Pool(s1, s2) == [
      PoolRow(s1, Services[s1].slice, ResourceLock(Services[s1].slice)),
      PoolRow(s2, Services[s2].slice, ResourceLock(Services[s2].slice))]
  {
    var pool := Pool(s1, s2);
    assert |pool| == 2 && pool[0].service == s1 && pool[1].service == s2;
  }

  /** Remote Surgery with Autonomous Vehicle at 20% load: both sit on the
      hardware-locked ultra-reliable slice, the slice is shared so it is
      sliced orthogonally, and the weights are those of mURLLC.
      The names and the load are parameters fixed by `requires`: written as
      literals inside the contract, they make the solver unfold the
      substring tests on the literal strings, and the proof runs out of
      resource. */
  lemma SurgeryWithVehicle(s1: string, s2: string, load: int, draws: seq<real>)
    requires s1 == "Remote Surgery" && s2 == "Autonomous Vehicle" && load == 20
    requires |draws| == 2 * Steps && UnitDraws(draws)
    ensures var r := Orchestrate(s1, s2, load, draws);
      r.Success? &&
      r.value.pool == [PoolRow(s1, UltraReliable, HardwareLocked), PoolRow(s2, UltraReliable, HardwareLocked)] &&
      r.value.reasoning == Some(OrthogonalSlicing) &&
      r.value.weights == CriticalWeights
  {
    assert Services[s1].slice == UltraReliable == Services[s2].slice;
    assert Services[s1].kind == "mURLLC";
    PairPool(s1, s2);
    UltraReliableLocked();
    WeightsOfTypes();
  }

  /** 8K Holographic Video with Smart Factory Sensors at 70% load: the two
      software-defined slices differ, so they are isolated, and the weights
      are those of feMBB.
      The names and the load are parameters fixed by `requires`: written as
      literals inside the contract, they make the solver unfold the
      substring tests on the literal strings, and the proof runs out of
      resource. */
  lemma HologramWithSensors(s1: string, s2: string, load: int, draws: seq<real>)
    requires s1 == "8K Holographic Video" && s2 == "Smart Factory Sensors" && load == 70
    requires |draws| == 2 * Steps && UnitDraws(draws)
    ensures var r := Orchestrate(s1, s2, load, draws);
      r.Success? &&
      r.value.pool == [PoolRow(s1, HighBandwidth, SoftwareDefined), PoolRow(s2, MassiveIoT, SoftwareDefined)] &&
      r.value.reasoning == Some(EdgeIsolation) &&
      r.value.weights == BroadbandWeights
  {
    var r := Orchestrate(s1, s2, load, draws);
    assert Services[s1].slice == HighBandwidth && Services[s2].slice == MassiveIoT;
    assert Services[s1].kind == "feMBB";
    assert r.Success? && SecondDeployed(s1, s2);
    assert r.value.pool == [PoolRow(s1, HighBandwidth, SoftwareDefined), PoolRow(s2, MassiveIoT, SoftwareDefined)] by {
      PairPool(s1, s2);
      HighBandwidthSoftware();
      MassiveIoTSoftware();
    }
    assert r.value.weights == BroadbandWeights by {
      WeightsOfTypes();
    }
  }

  /** In the same pass the load is above the 50% threshold, so every legacy
      sample of the 10 ms hologram carries the wide jitter band:
      10 + 35 + [5, 50) ms.
      The names and the load are parameters fixed by `requires`: written as
      literals inside the contract, they make the solver unfold the
      substring tests on the literal strings, and the proof runs out of
      resource. */
  lemma HologramLegacyJitter(s1: string, s2: string, load: int, draws: seq<real>)
    requires s1 == "8K Holographic Video" && s2 == "Smart Factory Sensors" && load == 70
    requires |draws| == 2 * Steps && UnitDraws(draws)
    ensures var r := Orchestrate(s1, s2, load, draws);
      r.Success? && forall t :: 0 <= t < Steps ==> 50.0 <= r.value.legacy[t] < 95.0
  {
    var r := Orchestrate(s1, s2, load, draws);
    assert r.Success? && Services[s1].latency == 10.0;
    forall t | 0 <= t < Steps
      ensures 50.0 <= r.value.legacy[t] < 95.0
    {
      assert r.value.legacy[t] == LiveMetric(10.0, 70, false, draws[t]);
    }
  }
}
