/**
  The rule-based decisions the orchestrator takes for one or two requested
  services: which services are deployed, the resource lock of each slice,
  which contention reasoning applies, and the explanatory decision weights.
 */
module Orchestrator {
  import Text
  import opened Catalog

  // ---------------------------------------------------------------------
  // Resource lock
  // ---------------------------------------------------------------------

  datatype Lock = HardwareLocked | SoftwareDefined

  /** The marker that designates the hardware-locked slice group. */
  const LockMarker := "Slice 1"

  /** A slice is hardware-locked exactly when its identifier mentions
      "Slice 1"; every other identifier, malformed ones included, is
      software-defined. */
  function ResourceLock(slice: string): (r: Lock)
    ensures r == HardwareLocked <==> exists i :: Text.OccursAt(slice, LockMarker, i)
    ensures r == SoftwareDefined <==> !exists i :: Text.OccursAt(slice, LockMarker, i)
  {
    if Text.Contains(slice, LockMarker) then HardwareLocked else SoftwareDefined
  }

  /** The ultra-reliable slice mentions the marker. */
  lemma UltraReliableLocked()
    ensures ResourceLock(UltraReliable) == HardwareLocked
  {
    assert Text.OccursAt(UltraReliable, LockMarker, 0);
  }

  /** The high-bandwidth slice has no '1' in it, so it cannot mention the
      marker. */
  lemma HighBandwidthSoftware()
    ensures ResourceLock(HighBandwidth) == SoftwareDefined
  {
    assert '1' in LockMarker && '1' !in HighBandwidth;
    if Text.Contains(HighBandwidth, LockMarker) {
      Text.ContainsChar(HighBandwidth, LockMarker, '1');
    }
  }

  /** Likewise for the massive-IoT slice. */
  lemma MassiveIoTSoftware()
    ensures ResourceLock(MassiveIoT) == SoftwareDefined
  {
    assert '1' in LockMarker && '1' !in MassiveIoT;
    if Text.Contains(MassiveIoT, LockMarker) {
      Text.ContainsChar(MassiveIoT, LockMarker, '1');
    }
  }

  /** Of the catalog's three slice identifiers, only the ultra-reliable one
      is hardware-locked. */
  lemma CatalogSliceLock(slice: string)
    requires slice in {UltraReliable, HighBandwidth, MassiveIoT}
    ensures ResourceLock(slice) == HardwareLocked <==> slice == UltraReliable
  {
    if slice == UltraReliable {
      UltraReliableLocked();
    } else if slice == HighBandwidth {
      HighBandwidthSoftware();
    } else {
      MassiveIoTSoftware();
    }
  }

  /** In the shipped catalog, Remote Surgery, Autonomous Vehicle and
      Emergency VoIP are hardware-locked and the other three services are
      software-defined. */
  lemma ShippedLocks()
    ensures forall name :: name in Services ==>
      (ResourceLock(Services[name].slice) == HardwareLocked <==> name in UltraReliableGroup)
  {
    forall name | name in Services
      ensures ResourceLock(Services[name].slice) == HardwareLocked <==> name in UltraReliableGroup
    {
      SliceOf(name);
      CatalogSliceLock(Services[name].slice);
    }
  }

  // ---------------------------------------------------------------------
  // Deployment gating and the slice resource pool
  // ---------------------------------------------------------------------

  /** The second selection is deployed only when it is a service and not
      the primary one again. */
  predicate SecondDeployed(s1: string, s2: string)
  {
    s2 != "None" && s2 != s1
  }

  /** The services that are deployed, primary first. */
  function Deployed(s1: string, s2: string): (names: seq<string>)
    ensures 1 <= |names| <= 2 && names[0] == s1
    ensures |names| == 2 <==> SecondDeployed(s1, s2)
    ensures |names| == 2 ==> names[1] == s2 && names[1] != names[0] && names[1] != "None"
  {
    [s1] + (if SecondDeployed(s1, s2) then [s2] else [])
  }

  /** One row of the active slice resource pool. */
  datatype PoolRow = PoolRow(service: string, sliceId: string, lock: Lock)

  /** The resource-pool table: one row per deployed service, each showing
      the service's slice and that slice's lock. */
  function Pool(s1: string, s2: string): (rows: seq<PoolRow>)
    requires s1 in Services
    requires SecondDeployed(s1, s2) ==> s2 in Services
    ensures |rows| == (if SecondDeployed(s1, s2) then 2 else 1)
    ensures rows[0].service == s1
    ensures |rows| == 2 ==> rows[1].service == s2
    ensures forall i :: 0 <= i < |rows| ==>
      rows[i].service in Services &&
      rows[i].sliceId == Services[rows[i].service].slice &&
      rows[i].lock == ResourceLock(rows[i].sliceId)
  {
    var names := Deployed(s1, s2);
    seq(|names|, i requires 0 <= i < |names| =>
      PoolRow(names[i], Services[names[i]].slice, ResourceLock(Services[names[i]].slice)))
  }

  // ---------------------------------------------------------------------
  // Contention reasoning
  // ---------------------------------------------------------------------

  datatype Reasoning =
    | OrthogonalSlicing   // shared slice: the primary gets a queue-priority boost
    | EdgeIsolation       // distinct slices: split at the edge cloud, independent SLAs

  /** Two services that share a slice are sliced orthogonally; services on
      different slices are isolated. */
  function Reason(p1: Service, p2: Service): (r: Reasoning)
    ensures r == OrthogonalSlicing <==> p1.slice == p2.slice
    ensures r == EdgeIsolation <==> p1.slice != p2.slice
  {
    if p1.slice == p2.slice then OrthogonalSlicing else EdgeIsolation
  }

  /** Which branch is taken does not depend on the order of the two
      services. */
  lemma ReasonSymmetric(p1: Service, p2: Service)
    ensures Reason(p1, p2) == Reason(p2, p1)
  {
  }

  /** Over every pair of distinct shipped services, slicing is orthogonal
      exactly for two ultra-reliable services or two high-bandwidth ones. */
  lemma ShippedContention()
    ensures forall a, b :: a in Services && b in Services && a != b ==>
      (Reason(Services[a], Services[b]) == OrthogonalSlicing <==>
       (a in UltraReliableGroup && b in UltraReliableGroup) ||
       (a in HighBandwidthGroup && b in HighBandwidthGroup))
  {
    assert UltraReliable != HighBandwidth && UltraReliable != MassiveIoT && HighBandwidth != MassiveIoT;
    forall a, b | a in Services && b in Services && a != b
      ensures Reason(Services[a], Services[b]) == OrthogonalSlicing <==>
              (a in UltraReliableGroup && b in UltraReliableGroup) ||
              (a in HighBandwidthGroup && b in HighBandwidthGroup)
    {
      SliceOf(a);
      SliceOf(b);
    }
  }

  // ---------------------------------------------------------------------
  // Decision weights
  // ---------------------------------------------------------------------

  const Features: seq<string> :=
    ["Latency Priority", "Reliability Weight", "Bandwidth Gain", "Resource Guardrail"]

  const CriticalWeights: seq<real> := [0.98, 0.96, 0.20, 0.90]
  const BroadbandWeights: seq<real> := [0.40, 0.35, 0.99, 0.60]
  const DefaultWeights: seq<real> := [0.30, 0.85, 0.15, 0.95]

  /** The decision-weight vector of a service type: one weight per feature,
      each a value in [0, 1]. Any type mentioning "mURLLC" gets the critical
      vector, even when it also mentions "feMBB"; otherwise any type
      mentioning "feMBB" gets the broadband vector; every other type gets
      the default. */
  function Weights(kind: string): (w: seq<real>)
    ensures |w| == |Features| == 4
    ensures forall i :: 0 <= i < |w| ==> 0.0 <= w[i] <= 1.0
    ensures (exists i :: Text.OccursAt(kind, "mURLLC", i)) ==> w == CriticalWeights
    ensures (!(exists i :: Text.OccursAt(kind, "mURLLC", i)) &&
             (exists i :: Text.OccursAt(kind, "feMBB", i))) ==> w == BroadbandWeights
    ensures (!(exists i :: Text.OccursAt(kind, "mURLLC", i)) &&
             !(exists i :: Text.OccursAt(kind, "feMBB", i))) ==> w == DefaultWeights
  {
    if Text.Contains(kind, "mURLLC") then CriticalWeights
    else if Text.Contains(kind, "feMBB") then BroadbandWeights
    else DefaultWeights
  }

  /** The weights of the five service types: "URLLC", "eMBB" and "umMTC"
      contain neither marker and fall through to the default vector. */
  lemma WeightsOfTypes()
    ensures Weights("mURLLC") == CriticalWeights
    ensures Weights("feMBB") == BroadbandWeights
    ensures Weights("URLLC") == DefaultWeights
    ensures Weights("eMBB") == DefaultWeights
    ensures Weights("umMTC") == DefaultWeights
  {
    assert "mURLLC"[..6] == "mURLLC";
    assert "feMBB"[..5] == "feMBB";
    assert 'm' in "mURLLC" && 'R' in "mURLLC" && 'f' in "feMBB";
    if Text.Contains("feMBB", "mURLLC") { Text.ContainsChar("feMBB", "mURLLC", 'R'); }
    if Text.Contains("URLLC", "mURLLC") { Text.ContainsChar("URLLC", "mURLLC", 'm'); }
    if Text.Contains("URLLC", "feMBB") { Text.ContainsChar("URLLC", "feMBB", 'f'); }
    if Text.Contains("eMBB", "mURLLC") { Text.ContainsChar("eMBB", "mURLLC", 'R'); }
    if Text.Contains("eMBB", "feMBB") { Text.ContainsChar("eMBB", "feMBB", 'f'); }
    if Text.Contains("umMTC", "mURLLC") { Text.ContainsChar("umMTC", "mURLLC", 'R'); }
    if Text.Contains("umMTC", "feMBB") { Text.ContainsChar("umMTC", "feMBB", 'f'); }
  }
}
