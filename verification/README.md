# SimpleChannelFilter in Dafny

This project models the channel-quality engine `filter::SimpleChannelFilter`
of LArSoft's `larevt` package and proves properties of it. The engine sorts
hardware readout channels into good, bad and noisy ones. Its state has three parts:

- two write-once exclusion sets, the bad channels and the noisy channels.
  Each is built from a configured vector that may be unordered and may hold duplicates;
- two mutable bounds: the largest channel and the largest present channel.
  Both start at the invalid sentinel, and `Setup` replaces both;
- a lazily built cache of the good channels. `Setup` drops it, and the first
  `GoodChannels()` call afterwards fills it.

The state is an immutable `ChannelFilter` value. Each operation that changes it
returns the new state. The cache is an `Option<set<ChannelId>>`: `None` means it
was dropped, `Some(s)` means it is allocated.

Modules:

- `Wrappers`: `Option`, `Result` and `Outcome`.
- `ChannelIds`: the identifier type, the sentinel, `IsValid`, `FirstValidId`.
- `SortedIds`: ordered sets as strictly increasing sequences. This is the
  iteration order of the source's `std::set`. It also holds the insertion that
  builds them from a vector.
- `GoodSet`: the reference definition `GoodSetSpec`. It is the valid ids in
  `[first valid id, last channel]` that are neither bad nor noisy. The module
  also proves the size identity and the cut property.
- `VetoScan`: the check of one candidate against the exclusion lists.
- `SimpleChannelFilter`: construction, `Setup`, `IsPresent`, the scan bound,
  `FillGoodChannels`, `GoodChannels` and the cache invariant.
- `Scenarios`: the worked configuration. The largest channel is 9, bad = {2,5}
  and noisy = {5,8}. With no present bound, good = {0,1,3,4,6,7,9}. With
  present bound 6, good = {0,1,3,4,6}.

Modelling assumptions:

- `raw::ChannelID_t` is taken to be a 32-bit unsigned integer. The invalid
  sentinel `raw::InvalidChannelID` is taken to be its largest value,
  0xFFFF_FFFF. The validity test is "not the sentinel". The header that
  defines them (`SimpleTypesAndConstants/RawTypes.h`) is not part of this
  model.
- Under that assumption, the upward search for the first valid id stops at 0.
  `FirstValidId` states the search's result: the id is valid and no smaller
  id is valid.
- The candidate counter never wraps around. The scan bound is valid, so it is
  below the sentinel, and the counter stops one past it. Because
  `ChannelId` is a bounded subset type, the verifier checks this.
- Each exclusion list is walked from its beginning for every candidate. The
  `for (auto iter: VetoedIDs)` loop copies each cursor pair, so its advances
  are lost. The model walks each sorted sequence from index 0, with the same
  three early exits. It proves the walk finds exactly the members.

Behaviour of the code that its own comments do not suggest:

- The comments at `Filters/SimpleChannelFilter.cpp:127` and `:135` read as if
  each list's cursor moves forward once and stays there. The loop at `:125`
  works on a copy of each cursor pair, so those advances are lost and each
  list is walked again from its start for every candidate. The result is
  still exactly the set difference; only the cost differs, and the model does
  not measure cost.
- The comment at `:114-115` says the error means `Setup()` was not called or
  was called with an invalid value. The error is in fact raised only when the
  computed last channel is invalid. An invalid largest channel together with a
  valid present bound scans up to the present bound without error
  (`FillFailsOnlyWithoutBound`).
- A failed fill has already allocated and cleared the cache (`:90-93`). The
  next `GoodChannels()` call therefore finds a cache (`:81`) and returns the
  empty set without error (`GoodChannelsTwice`).

## Model

| member | source | states |
|---|---|---|
| SimpleChannelFilter.NewFilter | Filters/SimpleChannelFilter.cpp:30-53 | the bad set holds exactly the ids of the configured bad vector, with order and duplicates forgotten, and an absent key reads as empty; the same holds for noisy; both bounds start at the invalid sentinel and there is no cache |
| SortedIds.FromVector | Filters/SimpleChannelFilter.cpp:37-51 | inserting a vector's ids one by one into an ordered set yields exactly the vector's ids, no more entries than the vector has |
| SortedIds.Insert | Filters/SimpleChannelFilter.cpp:40-43 | inserting into an ordered set keeps it strictly ordered and adds exactly the new id; inserting an id already present leaves the set unchanged |
| SimpleChannelFilter.Setup | Filters/SimpleChannelFilter.cpp:57-67 | stores both bounds exactly as given, drops the cache and keeps the bad and noisy sets |
| SimpleChannelFilter.SetupLastWins | Filters/SimpleChannelFilter.cpp:57-67 | a second reconfiguration fully replaces the first |
| SimpleChannelFilter.SetupRestoresConsistency | Filters/SimpleChannelFilter.cpp:57-67 | after reconfiguration the cache invariant holds, whatever the cache held before |
| SimpleChannelFilter.IsPresent | Filters/SimpleChannelFilter.cpp:71-75 | with no valid present bound every id is present, the sentinel included; with a valid present bound an id is present exactly when it is valid and not above that bound |
| SimpleChannelFilter.PresenceAsymmetry | Filters/SimpleChannelFilter.cpp:71-75 | with no valid present bound every id is present, the sentinel included; with a valid bound an id is present exactly when it is valid and not above the bound, so the sentinel is never present |
| SimpleChannelFilter.GoodChannelsArePresent | Filters/SimpleChannelFilter.cpp:71-75 | every channel in the good set passes the presence test |
| ChannelIds.FirstValidId | Filters/SimpleChannelFilter.cpp:102-104 | the scan starts at a valid id below which no id is valid |
| SimpleChannelFilter.LastChannel | Filters/SimpleChannelFilter.cpp:106-110 | the scan bound is one of the two bounds and never above the largest channel; with a valid present bound it is the smaller of the two; with an invalid present bound it is the largest channel |
| SimpleChannelFilter.PresentBoundClamped | Filters/SimpleChannelFilter.cpp:107-110 | a present bound at or above the largest channel is ignored |
| SimpleChannelFilter.FillFailsOnlyWithoutBound | Filters/SimpleChannelFilter.cpp:107-118 | the scan bound is invalid exactly when both the largest channel and the present bound are invalid |
| VetoScan.ScanVetoList | Filters/SimpleChannelFilter.cpp:127-142 | walking a sorted exclusion list from its start with the three early exits finds the candidate exactly when the list holds it |
| VetoScan.CheckVetoLists | Filters/SimpleChannelFilter.cpp:122-145 | a candidate is judged good exactly when no exclusion list holds it, so stopping after the first list that holds it loses nothing |
| SimpleChannelFilter.FillGoodChannels | Filters/SimpleChannelFilter.cpp:88-152 | the fill fails exactly when the scan bound is invalid, and then leaves the cache allocated and empty; on success the cache is the reference good set, so an id is in it exactly when it lies between the first valid id and the scan bound, is valid, and is neither bad nor noisy; the exclusion sets and bounds are untouched |
| SimpleChannelFilter.GoodChannels | Filters/SimpleChannelFilter.cpp:79-84 | a present cache is returned unchanged with no fill; with no cache it fills, failing exactly when the scan bound is invalid and otherwise returning the reference good set; afterwards the cache is always present, and the cache invariant is preserved |
| SimpleChannelFilter.GoodChannelsTwice | Filters/SimpleChannelFilter.cpp:79-93 | a second query with no reconfiguration in between repeats a successful first answer, and after a failed first query returns the empty set without error |
| SimpleChannelFilter.GoodDisjointFromExcluded | Filters/SimpleChannelFilter.cpp:122-148 | the good set shares no id with the bad set or with the noisy set |
| GoodSet.GoodSetSize | Filters/SimpleChannelFilter.cpp:120-150 | the good set's size is the width of the scanned range minus the number of excluded ids that fall in it |
| GoodSet.IdRangeSize | Filters/SimpleChannelFilter.cpp:121-149 | the scanned range from `lo` to `hi` has `hi - lo + 1` ids, or none when `hi < lo` |
| GoodSet.GoodSetCut | Filters/SimpleChannelFilter.cpp:106-121 | lowering the scan bound keeps exactly the good channels not above the new bound |
| Scenarios.GoodWithoutPresentBound | Filters/SimpleChannelFilter.cpp:103-150 | with largest channel 9, bad {2,5}, noisy {5,8} and no present bound, the good set is {0,1,3,4,6,7,9} and channel 5 is present |
| Scenarios.GoodWithPresentBound | Filters/SimpleChannelFilter.cpp:103-150 | with present bound 6 the good set is {0,1,3,4,6}; channel 7 is not present; channel 5 is present but not good |
| Scenarios.UnconfiguredHasNoLastChannel | Filters/SimpleChannelFilter.cpp:107-118 | with both bounds at the sentinel, as construction leaves them, there is no valid scan bound, so the first fill fails |
| Scenarios.QueryFromVectors | Filters/SimpleChannelFilter.cpp:30-152 | building the filter from bad vector [5,2,5] and noisy vector [8,5], setting the largest channel to 9 with no present bound, and querying twice gives {0,1,3,4,6,7,9} both times |

## Left out

- `isGood`, `isBad`, `isNoisy`, the `BadChannels()`/`NoisyChannels()`
  accessors and the default for `Setup`'s second argument: they are declared
  in `Filters/SimpleChannelFilter.h`, which is not part of this model, and
  their behaviour is not guessed.
- The configuration reader (`fhicl::ParameterSet::get`): the bad and noisy
  vectors arrive as `Option<seq<ChannelId>>`, and an absent key reads as the
  empty vector.
- The exception's text: the failure is the single value `NoLargestChannelSetUp`.
- The cost of the scan: the model proves what the scan computes, not how many
  steps it takes.
- Thread safety of the lazily filled cache: the source has no
  synchronisation, and the model is single-threaded.
- `Filters/SimpleChannelFilterService_service.cc`: framework service wiring,
  a geometry lookup and logging. It calls `Setup` with only the largest
  channel, computed as the channel count minus one. A count of zero would
  wrap around to the sentinel.
- `larevt/SpaceCharge/SpaceChargeStandard.h`: floating-point curve fits read
  from files through a third-party library, with no logic to model.
- `larevt/CalibrationDBI/Services/SIOVElectronicsCalibService_service.cc`:
  service registration and a timestamp callback forwarded to a database
  provider that is not part of this model.
