# 6G AI-native multi-service orchestrator: the decision engine

This project models, in Dafny, the deterministic decision engine inside the
orchestrator page `App.py`. The engine has five parts:

- **Service knowledge base.** A fixed map from service name to its type,
  target latency, reliability, bandwidth and slice (`Catalog.Services`).
- **Deployment gating.** The secondary selection is deployed only when it is
  not `"None"` and not the primary service again (`Orchestrator.SecondDeployed`).
- **Resource lock.** A slice is "Hardware-Locked" when its identifier
  contains `"Slice 1"`. Every other slice is "Software-Defined"
  (`Orchestrator.ResourceLock`).
- **Contention reasoning.** A two-branch choice: orthogonal slicing when the
  two services share a slice, edge isolation otherwise (`Orchestrator.Reason`).
- **Decision weights.** A four-entry vector chosen by substring tests on the
  primary service's type (`Orchestrator.Weights`).
- **Digital twin.** One latency sample for the 6G model or the legacy model
  (`DigitalTwin.LiveMetric`). It is used to build the two ten-step series.

`Engine.Orchestrate` puts these together into one orchestration pass.

Modules:

- `Wrappers`: Option and Result.
- `Text`: Python's substring test.
- `Catalog`: the knowledge base.
- `Orchestrator`: lock, gating, pool, reasoning and weights.
- `DigitalTwin`: latency samples and series.
- `Engine`: the pass and its end-to-end scenarios.

Modelling decisions:

- **Randomness is a parameter.** numpy's global generator is replaced by a
  unit draw `u` in [0, 1) for every random value. `uniform(low, high)` then
  becomes `low + (high - low) * u`, which gives numpy's half-open interval.
  A pass takes twenty such draws, in the order the page uses them: first
  the ten legacy samples (`data_5g` is built first), then the ten 6G samples.
- **Latency uses exact reals.** The model uses `real` arithmetic, not IEEE
  doubles. The load is an `int`, as the slider delivers it.
- **Service types are strings.** The code tests them by substring
  (`"mURLLC" in type`), so the model does the same rather than using an
  enumeration of service classes.
- **The lock is a substring test.** The lock rule is "contains `Slice 1`",
  not equality with one designated slice identifier. The model follows the
  code. An identifier that does not mention `Slice 1` is software-defined.
- **An unknown name is an error.** Indexing the catalog with an unknown name
  raises KeyError in Python. `Orchestrate` returns `Failure(UnknownService(name))`
  instead. The primary service is looked up first, as in the code.
- **No load range check.** The code does not reject a load outside [0, 100],
  so `Orchestrate` does not either: it has no error for that case and no
  requirement on the load. The bounds lemmas assume a load in [0, 100].

## Model

| member | source | states |
|---|---|---|
| `Text.Contains` | App.py:83 | `needle in s` holds exactly when `needle` occurs at some index of `s`; the empty needle occurs everywhere |
| `Catalog.Services` | App.py:11-18 | the catalog table itself: a constant map with the six services, their types, targets and slices as written; it has no contract, and its contents are stated by `Catalog.Lookup`, `Catalog.SliceOf` and `Catalog.ShippedCatalog` |
| `Catalog.Lookup` | App.py:11-18 | a name yields an entry exactly when it is a catalog key. Every entry has positive latency and bandwidth, and reliability in (0, 100]. Its slice is one of the three slice identifiers, and its type is one of mURLLC, URLLC, eMBB, feMBB and umMTC |
| `Catalog.SliceOf` | App.py:11-18 | Remote Surgery, Autonomous Vehicle and Emergency VoIP are on the ultra-reliable slice; 8K Holographic Video and Cloud Gaming are on the high-bandwidth slice; Smart Factory Sensors is on the massive-IoT slice |
| `Catalog.ShippedCatalog` | App.py:11-18 | the catalog has exactly the six shipped names, and their slices form exactly three groups |
| `Orchestrator.ResourceLock` | App.py:83 | the lock is HardwareLocked exactly when the slice identifier contains "Slice 1", and SoftwareDefined exactly when it does not |
| `Orchestrator.UltraReliableLocked` | App.py:83 | the ultra-reliable slice is hardware-locked |
| `Orchestrator.HighBandwidthSoftware` | App.py:83 | the high-bandwidth slice is software-defined, because it has no '1' in it |
| `Orchestrator.MassiveIoTSoftware` | App.py:83 | the massive-IoT slice is software-defined |
| `Orchestrator.CatalogSliceLock` | App.py:83 | among the catalog's three slices, only the ultra-reliable one is hardware-locked |
| `Orchestrator.ShippedLocks` | App.py:83 | a catalog service is hardware-locked exactly when it is Remote Surgery, Autonomous Vehicle or Emergency VoIP |
| `Orchestrator.SecondDeployed` | App.py:47 | the gate: the second selection is deployed exactly when it is not "None" and not s1. It is a predicate with no contract; `Orchestrator.Deployed`, `Orchestrator.Pool` and `Engine.Orchestrate` state what follows from it |
| `Orchestrator.Deployed` | App.py:84 | the deployed list starts with the primary; it has a second entry exactly when s2 is neither "None" nor s1; that entry is s2, it differs from s1 and it is not "None" |
| `Orchestrator.Pool` | App.py:82-84 | the pool has two rows exactly when the second service is deployed, and one row otherwise; the first row is s1 and the second is s2; every row holds its service's catalog slice and that slice's lock |
| `Orchestrator.Reason` | App.py:68-73 | the result is orthogonal slicing exactly when the two slices are equal, and edge isolation exactly when they differ |
| `Orchestrator.ReasonSymmetric` | App.py:68 | swapping the two services does not change the branch |
| `Orchestrator.ShippedContention` | App.py:68-73 | for the distinct catalog pairs, slicing is orthogonal exactly when both services are ultra-reliable or both are high-bandwidth |
| `Orchestrator.Weights` | App.py:89-96 | the vector has exactly one weight per feature, there are exactly four features, and each weight is in [0, 1]. For any type: one containing "mURLLC" gets [0.98, 0.96, 0.20, 0.90], even if it also contains "feMBB". Otherwise one containing "feMBB" gets [0.40, 0.35, 0.99, 0.60]. Any other type gets [0.30, 0.85, 0.15, 0.95] |
| `Orchestrator.WeightsOfTypes` | App.py:91-96 | mURLLC gets [0.98, 0.96, 0.20, 0.90] and feMBB gets [0.40, 0.35, 0.99, 0.60]; URLLC, eMBB and umMTC contain neither marker and get the default [0.30, 0.85, 0.15, 0.95] |
| `DigitalTwin.Uniform` | App.py:35 | numpy's `uniform(low, high)` scaling of a unit draw, `low + (high - low) * u`, for both the 6G noise and the legacy jitter (App.py:38). It has no contract; the bounds of each draw are proved in `DigitalTwin.Noise` and `DigitalTwin.Jitter` |
| `DigitalTwin.Noise` | App.py:35 | the 6G noise lies in [-0.02, 0.05) |
| `DigitalTwin.Jitter` | App.py:38 | the legacy jitter lies in [5, 50) when the load is above 50, and in [2, 10) when it is at most 50 (so load 50 uses the low band) |
| `DigitalTwin.LiveMetric` | App.py:31-39 | a 6G sample is base + 0.001·load plus a value in [-0.02, 0.05); a legacy sample is base + 0.5·load plus jitter from the band that the load selects |
| `DigitalTwin.NextGenBounds` | App.py:34-36 | for load in [0, 100] a 6G sample is in [base - 0.02, base + 0.15); at load 0 it is in [base - 0.02, base + 0.05); at load 100 it is in [base + 0.08, base + 0.15) |
| `DigitalTwin.LegacyBounds` | App.py:37-39 | for load in [0, 100] a legacy sample is in [base + 2, base + 100); at load 0 it is in [base + 2, base + 10); at load 80 it is in [base + 45, base + 90) |
| `DigitalTwin.LegacyAboveNextGen` | App.py:31-39 | for the same base and any two loads in [0, 100], every legacy sample is strictly greater than every 6G sample |
| `DigitalTwin.Series` | App.py:107-109 | a series has exactly 10 entries, and entry t is one sample for the same base and load, taken with step t's draw |
| `DigitalTwin.LegacySeriesAbove` | App.py:107-109 | every entry of the legacy series is above every entry of the 6G series built for the same service and load |
| `Engine.Orchestrate` | App.py:44-109 | a pass fails exactly when s1 is unknown, or when s2 is deployed and unknown; the error names s1 first. On success: the pool is the pool table of s1 and s2, with 2 rows exactly when the gate passes, starting with s1. Reasoning is present exactly when the gate passes, and it is orthogonal exactly when the slices match. The weights are those of the primary's type: four values in [0, 1]. Each series has 10 samples of the primary's latency at the given load; legacy uses the first ten draws and 6G the last ten |
| `Engine.SingleServicePass` | App.py:47 | when s2 is "None" or equals s1, the pass succeeds with one pool row for s1 and no reasoning |
| `Engine.SwapKeepsReasoning` | App.py:68-73 | swapping two distinct catalog services keeps the reasoning branch |
| `Engine.PairPool` | App.py:82-84 | with a distinct second service, the pool is exactly the two rows, in order, each with its slice and lock |
| `Engine.SurgeryWithVehicle` | App.py:12-13 | Remote Surgery with Autonomous Vehicle at load 20: two hardware-locked rows on the ultra-reliable slice, orthogonal slicing, and the mURLLC weights |
| `Engine.HologramWithSensors` | App.py:14-16 | 8K Holographic Video with Smart Factory Sensors at load 70: two software-defined rows on different slices, edge isolation, and the feMBB weights |
| `Engine.HologramLegacyJitter` | App.py:38-39 | in that pass, every legacy sample uses the wide jitter band and lies in [50, 95) ms |

## Left out

- Streamlit page calls are not modelled. This covers the page setup, the sidebar widgets, the button, columns, info/warning/success messages and the idle message (App.py:20-28, App.py:41, App.py:125-126). They are presentation only.
- pandas tables and plotly charts are not modelled (App.py:63, App.py:85, App.py:98-99, App.py:111-123). They are rendering through foreign libraries.
- The wording of the reasoning texts and the comparison-table labels is not modelled; only the branch taken is. Two label quirks are therefore not captured. The isolation text always calls the first slice "Hardware-Locked" and the second "Software-Defined" (App.py:72), whatever the lock rule at App.py:83 says. The table always labels s1 "CRITICAL" and s2 "STANDARD" (App.py:60-61).
- numpy's random generator is not modelled. Each draw is a parameter in [0, 1), and the samples are deterministic functions of these draws.
- DigitalTwin.Uniform: has no contract of its own. Z3's handling of a product of two variables was not reliable enough for a general bound. Its bounds are stated and proved where the interval's ends are constants, in `DigitalTwin.Noise` and `DigitalTwin.Jitter`.
- Floating-point rounding is not modelled. Latency is computed with exact reals.
- The unused `time` import (App.py:8) has no effect and is not modelled.
