/**
  The static service knowledge base: each offerable service with its type,
  target latency (ms), target reliability (%), bandwidth (Mbps) and the
  slice it is pinned to.
 */
module Catalog {
  import opened Wrappers

  datatype Service = Service(
    kind: string,          // service type, e.g. "mURLLC"
    latency: real,         // target latency in milliseconds
    reliability: real,     // target reliability in percent
    bandwidth: int,        // required bandwidth in Mbps
    slice: string)         // slice identifier

  /** Indexing the catalog with a name it does not hold (Python's KeyError). */
  datatype Error = UnknownService(name: string)

  const UltraReliable := "Slice 1 (Ultra-Reliable)"
  const HighBandwidth := "Slice 2 (High-Bandwidth)"
  const MassiveIoT := "Slice 3 (Massive IoT)"

  /** The shipped catalog, keyed by service name. */
  const Services: map<string, Service> := map[
    "Remote Surgery" := Service("mURLLC", 0.5, 99.999, 10, UltraReliable),
    "Autonomous Vehicle" := Service("mURLLC", 1.0, 99.99, 50, UltraReliable),
    "8K Holographic Video" := Service("feMBB", 10.0, 95.0, 1000, HighBandwidth),
    "Cloud Gaming" := Service("eMBB", 15.0, 98.0, 150, HighBandwidth),
    "Smart Factory Sensors" := Service("umMTC", 50.0, 99.0, 5, MassiveIoT),
    "Emergency VoIP" := Service("URLLC", 2.0, 99.9, 1, UltraReliable)
  ]

  /** A catalog entry is well formed when its targets are positive and its
      reliability is a percentage. */
  predicate WellFormed(p: Service)
  {
    p.latency > 0.0 && 0.0 < p.reliability <= 100.0 && p.bandwidth > 0
  }

  /** `SERVICES[name]`: the entry for a catalog key, and nothing (Python's
      KeyError) for any other name. */
  function Lookup(name: string): (r: Option<Service>)
    ensures r.Some? <==> name in Services
    ensures r.Some? ==> WellFormed(r.value)
    ensures r.Some? ==> r.value.slice in {UltraReliable, HighBandwidth, MassiveIoT}
    ensures r.Some? ==> r.value.kind in {"mURLLC", "URLLC", "eMBB", "feMBB", "umMTC"}
  {
    if name in Services then Some(Services[name]) else None
  }

  /** The ultra-reliable services of the catalog. */
  const UltraReliableGroup := {"Remote Surgery", "Autonomous Vehicle", "Emergency VoIP"}

  /** The high-bandwidth services of the catalog. */
  const HighBandwidthGroup := {"8K Holographic Video", "Cloud Gaming"}

  /** Which slice each catalog service is pinned to. */
  lemma SliceOf(name: string)
    requires name in Services
    ensures Services[name].slice == UltraReliable <==> name in UltraReliableGroup
    ensures Services[name].slice == HighBandwidth <==> name in HighBandwidthGroup
    ensures Services[name].slice == MassiveIoT <==> name == "Smart Factory Sensors"
  {
  }

  /** The catalog offers exactly six services, and their slices fall into
      three groups. */
  lemma ShippedCatalog()
    ensures Services.Keys == {"Remote Surgery", "Autonomous Vehicle", "8K Holographic Video",
                              "Cloud Gaming", "Smart Factory Sensors", "Emergency VoIP"}
    ensures (set name | name in Services :: Services[name].slice)
            == {UltraReliable, HighBandwidth, MassiveIoT}
  {
    var slices := set name | name in Services :: Services[name].slice;
    assert Services["Remote Surgery"].slice == UltraReliable;
    assert Services["8K Holographic Video"].slice == HighBandwidth;
    assert Services["Smart Factory Sensors"].slice == MassiveIoT;
    assert UltraReliable in slices && HighBandwidth in slices && MassiveIoT in slices;
  }
}
