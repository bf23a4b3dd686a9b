# REST detector library: a verified model of its core

This project models, in Dafny, the core of the REST detector library. REST is the
ROOT-based framework for Rare Event Searches with TPCs. The model covers:

- **Event containers.** `TRestHits` holds parallel coordinate and energy vectors
  with a hit count and an energy total. `TRestDetectorSignal` holds a signal's
  time/charge points. `TRestDetectorSignalEvent` holds signals keyed by DAQ ID.
  `TRestDetectorHitsEvent` selects hits by type and by cylinder.
  `TRestG4Event` accumulates Geant4 tracks and per-volume energies.
- **Readout topology.** A `TRestDetectorReadout` holds readout planes, and each
  plane holds readout modules with channels. The model covers DAQ ID ranges,
  the default and file-based decoding, lookups by ID and by name, counts,
  boundaries, and the ID-ordered assembly of channels and pixels. It also
  covers the convex-hull pixel of `TRestDetectorExperimentalReadoutPixel`.
- **Event processes.**
  - Hit translation, specular reflection, smearing (veto or TPC channels)
    and reduction (merging close hits).
  - The hitmap transformation chain.
  - The trigger analysis window scan.
  - The conversion of signals to hits.
  - The re-basing of DAQ channels.
  - The recovery of dead channels from their neighbours.
- **Tooling.** The readout-validation comparator `compareFiles.py`. The
  bit-mask channel selection and sampling of the `REST_Detector_CheckReadout.C`
  macro.

Each C++ class whose fields change in place is a Dafny `class` whose methods
carry `modifies` clauses. Each method is specified by a function on values:
for example, `Hits.HitList()`, `Recovered` for the dead-channel recovery, and
`Analysed` for the trigger scan. Lemmas prove the promised properties about
those functions. Examples of such properties:

- counts and energy totals stay consistent;
- sorting is a permutation;
- a reflection applied twice is the identity;
- a re-based module starts at its configured DAQ channel;
- an integral is set only once.

Where the code has evident bugs, the model keeps the code as written next to
a corrected definition (see "## Findings"). The rest of the model uses the
corrected definition.

ROOT services, random numbers, the readout lookup (`FindChannel`,
`GetX`/`GetY`) and configuration parsing are passed in as parameters. The
sections below name each one.

Where the specification text and the code disagree, the model follows the
code. Examples:

- the translation process defaults to (0, 0, 1) when the parameter is missing
  (`src/TRestDetectorHitsTranslationProcess.cxx:108`), but the header default
  is (0, 0, 0);
- the module source uses fields that differ from its header, and the model
  follows the `.cxx` behaviour.

Files, one module each:

| file | module | models |
|---|---|---|
| seq_util.dfy | SeqUtil | sums, removal at an index, std::find |
| geometry.dfy | Geometry | 2-D/3-D vectors, rotation, reflection |
| compare_files.dfy | CompareFiles | pipeline/readout/compareFiles.py |
| hits.dfy | RestHits | TRestHits |
| hits_event.dfy | HitsEvents | TRestDetectorHitsEvent |
| signal.dfy | Signals | TRestDetectorSignal |
| signal_event.dfy | SignalEvents | TRestDetectorSignalEvent |
| readout_module.dfy | ReadoutModules | TRestDetectorReadoutModule |
| readout_plane.dfy | ReadoutPlanes | TRestDetectorReadoutPlane |
| readout.dfy | Readouts | TRestDetectorReadout |
| experimental_pixel.dfy | ExperimentalPixels | TRestDetectorExperimentalReadoutPixel |
| hits_translation.dfy | HitsTranslation | TRestDetectorHitsTranslationProcess |
| hits_specular.dfy | HitsSpecular | TRestDetectorHitsSpecularProcess |
| hits_smearing.dfy | HitsSmearing | TRestDetectorHitsSmearingProcess |
| hits_reduction.dfy | HitsReduction | TRestDetectorHitsReductionProcess |
| hitmap_analysis.dfy | HitmapAnalysis | TRestDetectorHitmapAnalysisProcess |
| trigger_analysis.dfy | TriggerAnalysis | TRestDetectorTriggerAnalysisProcess |
| signal_to_hits.dfy | SignalToHits | TRestDetectorSignalToHitsProcess |
| daq_channel_switching.dfy | DaqChannelSwitching | TRestDetectorDaqChannelSwitchingProcess |
| signal_recovery.dfy | SignalRecovery | TRestDetectorSignalRecoveryProcess |
| check_readout.dfy | CheckReadout | macros/REST_Detector_CheckReadout.C |
| g4_event.dfy | G4Events | TRestG4Event |

## Model

| member | source | states |
|---|---|---|
| CompareFiles.RStrip | pipeline/readout/compareFiles.py:13 | the result is a prefix of the line, does not end in whitespace, and only whitespace was dropped |
| CompareFiles.Find | pipeline/readout/compareFiles.py:13 | -1 exactly when the marker occurs nowhere, otherwise the lowest index where it occurs |
| CompareFiles.TrimHeader | pipeline/readout/compareFiles.py:9-15 | the pop(0) loop leaves exactly Trimmed(text): the lines after the first marker line |
| CompareFiles.TrimmedAfterFirstMarker | pipeline/readout/compareFiles.py:9-15 | when line k is the first marker line, every line up to and including it is dropped |
| CompareFiles.TrimmedWithoutMarker | pipeline/readout/compareFiles.py:10-12 | without a marker line the whole file is dropped |
| CompareFiles.Digits | pipeline/readout/compareFiles.py:30-31 | the filtered string holds only digits and is no longer than the line |
| CompareFiles.DigitsOfDigitString | pipeline/readout/compareFiles.py:30-31 | a string of digits is kept whole |
| CompareFiles.DigitsAppend | pipeline/readout/compareFiles.py:30-31 | filtering distributes over concatenation, so the digits keep their order |
| CompareFiles.DigitsIgnoreRStrip | pipeline/readout/compareFiles.py:30-34 | the rstrip before the filter never changes the digits compared |
| CompareFiles.SomeDifferStep | pipeline/readout/compareFiles.py:36-39 | the result flag after k + 1 pairs is the flag after k pairs or a mismatch at pair k |
| CompareFiles.CompareLines | pipeline/readout/compareFiles.py:25-47 | the loop over the trimmed texts produces CompareSpec: the exit code, the printed XX/YY pairs, the IndexError when file 2 is shorter, and the stop after MaxN + 1 pairs |
| CompareFiles.ValidateReadout | pipeline/readout/compareFiles.py:9-47 | both files are trimmed independently by the same rule and then compared |
| CompareFiles.ReportIsMismatches | pipeline/readout/compareFiles.py:36-39 | every printed pair has different digits, at most one pair per line pair, and a pair is printed iff some line pair differs |
| CompareFiles.ExitCodeMeansMismatch | pipeline/readout/compareFiles.py:25-47 | the exit code is 0 or 1, and 1 iff a mismatch was printed; at most MaxN + 1 pairs are printed; an IndexError happens iff file 2 runs out before file 1 within the first MaxN + 1 lines |
| CompareFiles.SameTextPasses | pipeline/readout/compareFiles.py:9-47 | comparing a file with itself exits with 0 and prints nothing |
| RestHits.NonIncreasingEverywhere | source/events/general/src/TRestHits.cxx:179-186 | energies that never rise between neighbours never rise between any two hits |
| RestHits.ZipSwapped | source/events/general/src/TRestHits.cxx:171-177 | swapping an index pair in every vector swaps the two hits |
| RestHits.ZipRemoveAt | source/events/general/src/TRestHits.cxx:188-196 | erasing an index from every vector erases that hit |
| RestHits.MergedSum | source/events/general/src/TRestHits.cxx:155-169 | folding energy m into n and erasing m keeps the energy total |
| RestHits.Hits.constructor | source/events/general/src/TRestHits.cxx:114-122 | a new set of hits is empty, with count 0 and total 0 |
| RestHits.Hits.AddHit | source/events/general/src/TRestHits.cxx:91-100 | each vector gets the new value appended, the count grows by one and the total by en |
| RestHits.Hits.RemoveHits | source/events/general/src/TRestHits.cxx:114-122 | every vector is emptied, count and total are zero |
| RestHits.Hits.RemoveHit | source/events/general/src/TRestHits.cxx:188-196 | entry n is erased from every vector, the count drops by one and the total by that hit's energy |
| RestHits.Hits.SwapHits | source/events/general/src/TRestHits.cxx:171-177 | entries i and j are exchanged in every vector; count and total stay |
| RestHits.Hits.MergeHits | source/events/general/src/TRestHits.cxx:155-169 | hit n moves to the energy-weighted mean position with the summed energy, hit m is erased, the total stays |
| RestHits.Hits.Translate | source/events/general/src/TRestHits.cxx:125-132 | every position is shifted by (dx, dy, dz); energies, times and types stay |
| RestHits.Hits.GetEnergyIntegral | source/events/general/src/TRestHits.cxx:83-89 | the loop's sum of energies equals the cached total |
| RestHits.Hits.GetMaximumHitEnergy | source/events/general/src/TRestHits.cxx:134-140 | the result is at least 0 and every energy, and is 0 or one of the energies |
| RestHits.Hits.IsSortedByEnergy | source/events/general/src/TRestHits.cxx:179-186 | true exactly when no energy exceeds the one before it |
| RestHits.Hits.GetDistance2 | source/events/general/src/TRestHits.cxx:206-209 | the squared distance is non-negative and zero for hits at the same place |
| HitsEvents.OfKind | src/TRestDetectorHitsEvent.cxx:170-221 | the hits kept are hits of the event, of the requested type |
| HitsEvents.OfKindComplete | src/TRestDetectorHitsEvent.cxx:170-221 | every hit of the requested type is kept |
| HitsEvents.OfKindAll | src/TRestDetectorHitsEvent.cxx:170-221 | selection keeps the whole list iff every hit has the requested type |
| HitsEvents.OfKindKeepsAll | src/TRestDetectorHitsEvent.cxx:170-221 | a list of one type only is kept whole, in order |
| HitsEvents.CountWhereBounds | src/TRestDetectorHitsEvent.cxx:223-241 | the count of hits passing a test is positive iff some hit passes, and equals the hit count iff all pass |
| HitsEvents.HitsEvent.constructor | src/TRestDetectorHitsEvent.cxx:115-136 | a new event holds no hits and three fresh buffers |
| HitsEvents.HitsEvent.AddHit | src/TRestDetectorHitsEvent.cxx:98-101 | the hit (position, energy, time, type) is appended to the event's hits and its energy added to the total |
| HitsEvents.HitsEvent.Initialize | src/TRestDetectorHitsEvent.cxx:115-136 | the hits are removed and the three buffers are replaced by new empty ones |
| HitsEvents.HitsEvent.Shuffle | src/TRestDetectorHitsEvent.cxx:151-162 | the hits are permuted (same multiset, count and total), and an event with fewer than two hits is untouched |
| HitsEvents.HitsEvent.GetXZHits | src/TRestDetectorHitsEvent.cxx:170-186 | the XZ buffer is refilled with exactly the XZ hits, in order, and returned |
| HitsEvents.HitsEvent.GetYZHits | src/TRestDetectorHitsEvent.cxx:188-203 | the YZ buffer is refilled with exactly the YZ hits, in order, and returned |
| HitsEvents.HitsEvent.GetXYZHits | src/TRestDetectorHitsEvent.cxx:205-221 | the XYZ buffer is refilled with exactly the XYZ hits, in order, and returned |
| HitsEvents.HitsEvent.AnyHitInsideCylinder | src/TRestDetectorHitsEvent.cxx:223-228 | true iff some hit lies inside the cylinder |
| HitsEvents.HitsEvent.AllHitsInsideCylinder | src/TRestDetectorHitsEvent.cxx:236-241 | true iff every hit lies inside the cylinder |
| HitsEvents.CollectKind | src/TRestDetectorHitsEvent.cxx:171-175 | the RemoveHits-then-AddHit loop leaves the buffer holding exactly the hits of one type |
| HitsEvents.TruncatedIndex | src/TRestDetectorHitsEvent.cxx:154-155 | (Int_t)(nHits * u) for a draw u in [0, 1) is a valid hit index, the floor of the product |
| Signals.Points | src/TRestDetectorSignal.cxx:213-224 | pairs the time and charge vectors point by point, so that Sort's permutation is stated on whole points |
| Signals.IntegralSplit | src/TRestDetectorSignal.cxx:138-144 | the integral over [a, e) is the integral over [a, b) plus the one over [b, e) |
| Signals.IntegralOfAll | src/TRestDetectorSignal.cxx:138-144 | when every time lies in the window, the integral is the sum of all charges |
| Signals.IntegralOfScaled | src/TRestDetectorSignal.cxx:264-266 | after multiplying the charges by f, every window integral is f times the old one |
| Signals.IntegralOfAddition | src/TRestDetectorSignal.cxx:276-296 | adding a signal with the same times adds the window integrals |
| Signals.SumOfOffset | src/TRestDetectorSignal.cxx:260-262 | an offset on every point raises the charge sum by the number of points times the offset |
| Signals.Minimum | src/TRestDetectorSignal.cxx:193-196 | the value returned is one of the times and no time is smaller |
| Signals.Maximum | src/TRestDetectorSignal.cxx:198-201 | the value returned is one of the times and no time is larger |
| Signals.Signal.constructor | src/TRestDetectorSignal.cxx:41-47 | a new signal has ID -1 and no points |
| Signals.Signal.Copy | src/TRestDetectorSignalEvent.cxx:56 | the copy stored by emplace_back has the same ID, times and charges |
| Signals.Signal.SetSignalID | inc/TRestDetectorSignal.h:118 | only the ID changes |
| Signals.Signal.NewPoint | src/TRestDetectorSignal.cxx:53-56 | the point is appended to both vectors |
| Signals.Signal.GetTimeIndex | src/TRestDetectorSignal.cxx:203-209 | the index of the first point with that time, or -1 when there is none |
| Signals.Signal.IncreaseAmplitude | src/TRestDetectorSignal.cxx:62-83 | an existing time gets d added to its charge, a new time is appended; the charge sum grows by d either way |
| Signals.Signal.SetPoint | src/TRestDetectorSignal.cxx:92-114 | an existing time gets its charge overwritten, a new time is appended; afterwards the time's first point carries charge d |
| Signals.Signal.SetPointAt | src/TRestDetectorSignal.cxx:120-123 | the point at index is replaced, nothing else changes |
| Signals.Signal.SwapPoints | src/TRestDetectorSignal.cxx:218-219 | both vectors swap the same two entries, so the multiset of points is kept |
| Signals.Signal.Sort | src/TRestDetectorSignal.cxx:213-224 | afterwards the times are non-decreasing and the points are a permutation of the old ones |
| Signals.Signal.SortPass | src/TRestDetectorSignal.cxx:215-222 | one pass of the double loop leaves the times sorted and the points permuted |
| Signals.Signal.AddOffset | src/TRestDetectorSignal.cxx:260-262 | every charge is raised by the offset, times stay |
| Signals.Signal.MultiplySignalBy | src/TRestDetectorSignal.cxx:264-266 | every charge is multiplied by the factor, times stay |
| Signals.Signal.SignalAddition | src/TRestDetectorSignal.cxx:276-296 | with equal time vectors the charges are added point by point; with different sizes or times the signal is left alone |
| Signals.Signal.GetIntegralWithTime | src/TRestDetectorSignal.cxx:138-144 | the loop returns the sum of the charges whose time lies in [start, end) |
| SignalEvents.IdsOf | src/TRestDetectorSignalEvent.cxx:59-63 | the list of signal IDs, one per signal, in order |
| SignalEvents.IdsOfAppend | src/TRestDetectorSignalEvent.cxx:49-57 | appending a signal appends its ID |
| SignalEvents.UniqueAppend | src/TRestDetectorSignalEvent.cxx:49-57 | appending an ID not yet present keeps the IDs distinct |
| SignalEvents.EarliestTimeBounds | src/TRestDetectorSignalEvent.cxx:169-174 | the result is at most 1e10 and every signal's minimum time, and is 1e10 or one of those minima |
| SignalEvents.LatestTimeBounds | src/TRestDetectorSignalEvent.cxx:176-181 | the result is at least -1e10 and every signal's maximum time, and is -1e10 or one of those maxima |
| SignalEvents.EventIntegralSplit | src/TRestDetectorSignalEvent.cxx:73-78 | the event's window integral splits at any intermediate time |
| SignalEvents.RemoveAtKeepsSignals | src/TRestDetectorSignalRecoveryProcess.cxx:194 | erasing one signal keeps the others, in order and distinct, and erases its ID |
| SignalEvents.SignalEvent.constructor | src/TRestDetectorSignalEvent.cxx:30-33 | a new event has no signals and the 1e10 / -1e10 extremes |
| SignalEvents.SignalEvent.Initialize | src/TRestDetectorSignalEvent.cxx:39-47 | the signals are cleared and the extremes reset to 1e10 / -1e10 |
| SignalEvents.SignalEvent.GetSignalIndex | src/TRestDetectorSignalEvent.cxx:59-63 | the index of the first signal with the ID, or -1 |
| SignalEvents.SignalEvent.SignalIdExists | inc/TRestDetectorSignalEvent.h:47-52 | true iff some signal has the ID |
| SignalEvents.SignalEvent.GetSignalById | inc/TRestDetectorSignalEvent.h:69-74 | null iff no signal has the ID, otherwise the first signal with it |
| SignalEvents.SignalEvent.AddSignal | src/TRestDetectorSignalEvent.cxx:49-57 | a known ID leaves the event unchanged; a new one appends a fresh copy with the signal's ID, times and charges; distinct IDs stay distinct; as values, the event's signals become the old ones with the signal admitted (Admitted) |
| SignalEvents.SignalEvent.AppendNew | src/TRestDetectorSignalEvent.cxx:56 | for an ID not yet held: a fresh copy goes at the end, the ID joins the held IDs, they stay distinct, and the values are the old ones with the signal admitted |
| SignalEvents.SignalEvent.AppendCopy | src/TRestDetectorSignalEvent.cxx:56 | `emplace_back`: the event gains a fresh copy at the end, the earlier signals and their values unchanged |
| SignalEvents.DataOfAppend | src/TRestDetectorSignalEvent.cxx:56 | appending a signal appends its value |
| SignalEvents.DataIds | src/TRestDetectorSignalEvent.cxx:49-50 | the IDs of signal values, one per value, in order |
| SignalEvents.DataIdsAppend | src/TRestDetectorSignalEvent.cxx:56 | appending a value appends its ID |
| SignalEvents.DataIdsOf | src/TRestDetectorSignalEvent.cxx:49-50 | the IDs of the event's values are the event's IDs |
| SignalEvents.AdmittedOne | src/TRestDetectorSignalEvent.cxx:49-57 | admitting one signal value keeps the held values when its ID is held, and appends it otherwise |
| SignalEvents.AdmittedConcat | src/TRestDetectorSignalEvent.cxx:49-57 | admitting two runs of signals one after the other is admitting them together |
| SignalEvents.AdmittedKeepsHeld | src/TRestDetectorSignalEvent.cxx:49-57 | AddSignal calls never drop or change a held signal: the held values are a prefix of the result |
| SignalEvents.AdmittedHoldsIds | src/TRestDetectorSignalEvent.cxx:49-57 | after the calls every held ID and every incoming ID is present |
| SignalEvents.AdmittedFromIncoming | src/TRestDetectorSignalEvent.cxx:56 | every value past the held ones is one of the incoming values |
| SignalEvents.AdmittedUnique | src/TRestDetectorSignalEvent.cxx:49-57 | distinct held IDs stay distinct |
| SignalEvents.AdmittedAll | src/TRestDetectorSignalEvent.cxx:49-57 | when no ID repeats among the held and incoming values, every incoming value is appended, in order |
| SignalEvents.HavePointsOfData | src/TRestDetectorSignalEvent.cxx:169-181 | every signal holds a point exactly when every signal value does |
| SignalEvents.AdmittedHavePoints | src/TRestDetectorSignalEvent.cxx:49-57 | admitting values that hold points after values that hold points leaves values that hold points |
| SignalEvents.SignalEvent.AddChargeToSignal | src/TRestDetectorSignalEvent.cxx:117-128 | afterwards a signal with the ID exists: the old one, or a new empty signal appended at the end |
| SignalEvents.SignalEvent.RemoveSignalWithId | src/TRestDetectorSignalRecoveryProcess.cxx:194 | the first signal with the ID is erased; without one nothing changes |
| SignalEvents.SignalEvent.GetIntegralWithTime | src/TRestDetectorSignalEvent.cxx:73-78 | the sum over the signals of their window integrals |
| SignalEvents.SignalEvent.GetMinTime | src/TRestDetectorSignalEvent.cxx:169-174 | the loop returns EarliestTime, bounded as EarliestTimeBounds states |
| SignalEvents.SignalEvent.GetMaxTime | src/TRestDetectorSignalEvent.cxx:176-181 | the loop returns LatestTime, bounded as LatestTimeBounds states |
| SignalEvents.SignalEvent.SortSignals | inc/TRestDetectorSignalEvent.h:54-58 | every signal's times end sorted, each signal keeping its ID and its multiset of points |
| Readouts.Tag | src/TRestDetectorReadout.cxx:737-740 | each module of a plane is paired with the plane's ID, in order |
| Readouts.Members | src/TRestDetectorReadout.cxx:393-404 | the modules of the (plane, module) walk, in walk order |
| Readouts.EntriesCount | src/TRestDetectorReadout.cxx:348-352 | the plane-by-plane walk visits exactly as many modules as the per-plane counts add up to |
| Readouts.EntriesAppend | src/TRestDetectorReadout.cxx:436-439 | adding a plane appends its modules, tagged with its ID, to the walk |
| Readouts.EntriesPrefix | src/TRestDetectorReadout.cxx:737-748 | the walk over the first k planes is a prefix of the whole walk |
| Readouts.ModuleIdsStep | src/TRestDetectorReadout.cxx:394-402 | the module IDs seen after plane p are those before it followed by plane p's |
| Readouts.AbsentStep | src/TRestDetectorReadout.cxx:394-402 | an ID not found before plane p and not in plane p is not found after it |
| Readouts.ModuleFound | src/TRestDetectorReadout.cxx:394-402 | the first module with the ID in walk order is the one the nested loop returns |
| Readouts.EntryAt | src/TRestDetectorReadout.cxx:737-740 | module m of plane p sits in the walk right after the modules of the earlier planes |
| Readouts.ChannelTotalConcat | src/TRestDetectorReadout.cxx:358-364 | the channel count of two module lists is the sum of their counts |
| Readouts.AddedPlaneCounts | src/TRestDetectorReadout.cxx:436-439 | adding a plane adds its modules to the module count and its channels to the channel count |
| Readouts.AddPlaneChannels | src/TRestDetectorReadout.cxx:361-362 | the inner loop adds the channels of one plane's modules to the running count |
| Readouts.ChannelsThroughPlane | src/TRestDetectorReadout.cxx:360-362 | the channel count through plane p is the count before it plus plane p's modules |
| Readouts.Names | src/TRestDetectorReadout.cxx:369-373 | the module definition names, in order |
| Readouts.PlaneIds | src/TRestDetectorReadout.cxx:378-386 | the plane IDs, in order |
| Readouts.LocatedStep | src/TRestDetectorReadout.cxx:739-746 | one more module either overwrites the answer (its range holds the DAQ ID) or keeps it |
| Readouts.LocatedNone | src/TRestDetectorReadout.cxx:735-749 | when no module's range holds the DAQ ID the outputs keep their incoming values |
| Readouts.LocatedLast | src/TRestDetectorReadout.cxx:735-749 | otherwise the LAST module in walk order whose range holds it gives plane, module and channel |
| Readouts.PixelsOf | src/TRestDetectorReadout.cxx:635-649 | the pixels of a channel definition, in definition order |
| Readouts.PixelIdsOf | src/TRestDetectorReadout.cxx:644-645 | the pixel IDs written in a channel definition |
| Readouts.ChannelIdsOf | src/TRestDetectorReadout.cxx:627-628 | the channel IDs written in a module definition |
| Readouts.GivenIds | src/TRestDetectorReadout.cxx:627-628 | the IDs kept are the written ones, none of them -1 |
| Readouts.GivenIdsAll | src/TRestDetectorReadout.cxx:627-628 | when every element gives an ID, the kept IDs are all of them |
| Readouts.ById | src/TRestDetectorReadout.cxx:694-701 | the ID-ordering loop yields at most one element per ID 0..n-1 |
| Readouts.ByIdComplete | src/TRestDetectorReadout.cxx:694-711 | the ordering finds n elements iff every ID 0..n-1 occurs |
| Readouts.ByIdPositions | src/TRestDetectorReadout.cxx:694-701 | then element i of the result is the first element whose ID is i |
| Readouts.ArrangedByIds | src/TRestDetectorReadout.cxx:682-711 | the outcome is Done or exit(0); Done iff no ID was written or every ID 0..n-1 occurs among n written ones; without IDs the order is kept |
| Readouts.GuardAdmitsUnreadableIds | src/TRestDetectorReadout.cxx:682-701 | with elements but no written ID the size check passes while the ordering loop would read past the empty ID vector |
| Readouts.BuiltChannels | src/TRestDetectorReadout.cxx:624-680 | when no channel's pixels are refused, one channel per definition |
| Readouts.BuildChannelVector | src/TRestDetectorReadout.cxx:624-680 | the channel loop yields BuiltChannels: channels with DAQ ID -1 and pixels in ID order, or a refusal |
| Readouts.AddChannels | src/TRestDetectorReadout.cxx:694-701 | the ordered channels are appended to the module; only its channels change |
| Readouts.BuiltChannelsRefused | src/TRestDetectorReadout.cxx:651-675 | once the pixels of one channel are refused the whole definition is refused |
| Readouts.BuiltChannelsPixels | src/TRestDetectorReadout.cxx:651-678 | in an accepted definition each channel holds its pixels in ID order, with DAQ and readout ID -1 |
| Readouts.Arrange | src/TRestDetectorReadout.cxx:661-675 | the nested loop computes Arranged: the items in ID order and whether all were placed |
| Readouts.Readout.constructor | src/TRestDetectorReadout.cxx:324-332 | a new readout has no planes, no definitions and decoding off |
| Readouts.Readout.Initialize | src/TRestDetectorReadout.cxx:324-332 | the planes are cleared, the plane counter is 0 and decoding is off |
| Readouts.Readout.GetNumberOfModules | src/TRestDetectorReadout.cxx:348-352 | the sum of the per-plane module counts, which is the length of the module walk |
| Readouts.Readout.GetNumberOfChannels | src/TRestDetectorReadout.cxx:358-364 | the channel count over every module of every plane |
| Readouts.Readout.GetModuleDefinitionId | src/TRestDetectorReadout.cxx:369-373 | the index of the first definition with the name, or -1 |
| Readouts.Readout.GetReadoutPlaneWithID | src/TRestDetectorReadout.cxx:378-386 | null iff no plane has the ID, otherwise the first plane with it |
| Readouts.Readout.GetReadoutModuleWithID | src/TRestDetectorReadout.cxx:393-404 | null iff no module of any plane has the ID, otherwise the first one in walk order |
| Readouts.Readout.GetReadoutPlane | src/TRestDetectorReadout.cxx:420-431 | null iff the index is at least the plane count, otherwise that plane |
| Readouts.Readout.AddReadoutPlane | src/TRestDetectorReadout.cxx:436-439 | the plane is appended and the counter incremented |
| Readouts.Readout.GetPlaneModuleChannel | src/TRestDetectorReadout.cxx:735-749 | the outputs are Located: set by the last module whose DAQ range holds the ID, untouched otherwise |
| Readouts.Readout.ParseModuleDefinition | src/TRestDetectorReadout.cxx:609-715 | a fresh module with the name, size and tolerance, and its channels in channel-ID order; a refused pixel or channel numbering gives exit(0) |
| Readouts.Readout.PlaceModule | src/TRestDetectorReadout.cxx:483-580 | an unknown name gives exit(1); otherwise the definition gets the entry's ID, origin and rotation, the decoding flag and error flag follow the file checks, a row count mismatch gives exit(1), and else every channel gets its decoded or default (readout, DAQ) IDs, the added-channel count grows by the module's channels and every DAQ ID is inside the module's range |
| ReadoutModules.DaqIds | inc/TRestDetectorReadoutModule.h:152-156 | the DAQ IDs of the channels, in order |
| ReadoutModules.CppRem | src/TRestDetectorReadoutModule.cxx:562-579 | C++ `%`: equals Dafny's for non-negative n, lies strictly between -d and d and takes the sign of n |
| ReadoutModules.DecodedPairs | src/TRestDetectorReadoutModule.cxx:257-275 | at most one pair per decoding row, each with a non-negative readout ID |
| ReadoutModules.DecodedPairsMembers | src/TRestDetectorReadoutModule.cxx:268-272 | a pair comes from a row with that readout ID and the DAQ ID less the first channel; every row with a non-negative readout ID gives its pair |
| ReadoutModules.DefaultPairs | src/TRestDetectorReadoutModule.cxx:284-288 | without decoding, channel ch gets readout ID ch and DAQ ID ch + first |
| ReadoutModules.Assign | src/TRestDetectorReadoutModule.cxx:284-299 | assigning IDs keeps the number of channels |
| ReadoutModules.DefaultDecoding | src/TRestDetectorReadoutModule.cxx:284-299 | with the default pairs every channel ch gets DAQ ID ch + first and readout ID ch |
| ReadoutModules.DefaultDecodingPrefix | src/TRestDetectorReadoutModule.cxx:284-299 | after k loop rounds the first k channels are assigned and the rest untouched |
| ReadoutModules.AssignSetsEachPair | src/TRestDetectorReadoutModule.cxx:292-298 | with distinct readout IDs, each pair's channel gets that pair's IDs, out-of-range readout IDs are skipped, and channels named by no pair keep theirs |
| ReadoutModules.ReadoutModule.constructor | src/TRestDetectorReadoutModule.cxx:59-93 | a new module has no channels, DAQ range (-1, -1), module ID -1, first DAQ channel 0, tolerance 1e-3 and no decoding file |
| ReadoutModules.ReadoutModule.Copy | inc/TRestDetectorReadoutPlane.h:140 | the copy stored by emplace_back agrees with the original in every field |
| ReadoutModules.ReadoutModule.SetModuleID | inc/TRestDetectorReadoutModule.h:106 | only the module ID changes (its frame names that field alone, so every other field is kept) |
| ReadoutModules.ReadoutModule.SetSize | inc/TRestDetectorReadoutModule.h:109-113 | only the size changes (its frame names that field alone, so every other field is kept) |
| ReadoutModules.ReadoutModule.SetOrigin | inc/TRestDetectorReadoutModule.h:121-125 | only the origin changes (its frame names that field alone, so every other field is kept) |
| ReadoutModules.ReadoutModule.SetRotation | inc/TRestDetectorReadoutModule.h:133 | only the rotation changes (its frame names that field alone, so every other field is kept) |
| ReadoutModules.ReadoutModule.SetName | inc/TRestDetectorReadoutModule.h:136 | only the name changes (its frame names that field alone, so every other field is kept) |
| ReadoutModules.ReadoutModule.SetTolerance | inc/TRestDetectorReadoutModule.h:139 | only the tolerance changes (its frame names that field alone, so every other field is kept) |
| ReadoutModules.ReadoutModule.GetChannel | inc/TRestDetectorReadoutModule.h:199-202 | None iff the index is past the last channel, otherwise that channel |
| ReadoutModules.ReadoutModule.DaqToReadoutChannel | inc/TRestDetectorReadoutModule.h:152-156 | the index of the first channel with the DAQ ID, or -1 |
| ReadoutModules.ReadoutModule.SetMinMaxDaqIDs | src/TRestDetectorReadoutModule.cxx:98-112 | the range ends are DAQ IDs of channels and every channel's DAQ ID lies in the range; only minDaqId and maxDaqId change |
| ReadoutModules.ReadoutModule.SetDecodingFile | src/TRestDetectorReadoutModule.cxx:233-302 | the decoding flag follows the name and file checks, a row count mismatch gives exit(1), and otherwise the channels get their decoded or default IDs and the DAQ range is exactly theirs: both ends are channel DAQ IDs and every channel's DAQ ID lies between them; only the decoding file, the decoding flag, the channels and the DAQ range change |
| ReadoutModules.ReadoutModule.AssignChannels | src/TRestDetectorReadoutModule.cxx:284-299 | the channels become Assign of the first pairs; only the channels change |
| ReadoutModules.ReadoutModule.AddChannel | src/TRestDetectorReadoutModule.cxx:586-608 | the channel is appended whatever the tolerance check says; only the channels change |
| ReadoutModules.ReadoutModule.GetVertex | src/TRestDetectorReadoutModule.cxx:558-581 | vertex 0 is the origin, 1-3 the rotated corners moved to the origin; a negative index with non-zero C++ remainder gives (0, 0) |
| ReadoutModules.VertexPeriodic | src/TRestDetectorReadoutModule.cxx:562-579 | the vertices repeat every four indices |
| ReadoutModules.VerticesInside | src/TRestDetectorReadoutModule.cxx:414-422 | for a true rotation every vertex passes the module's own inside test |
| ReadoutPlanes.ChannelTotalStep | src/TRestDetectorReadoutPlane.cxx:54-56 | each loop round adds that module's channel count |
| ReadoutPlanes.ChannelTotalZero | src/TRestDetectorReadoutPlane.cxx:52-58 | a plane has 0 channels iff every module has none |
| ReadoutPlanes.ModuleIds | src/TRestDetectorReadoutPlane.cxx:91-98 | the module IDs of the plane, in order |
| ReadoutPlanes.FirstInside | src/TRestDetectorReadoutPlane.cxx:342-346 | the index of the first module containing the point, or -1 when none does |
| ReadoutPlanes.ReadoutPlane.constructor | inc/TRestDetectorReadoutPlane.h:39-57 | a new plane has ID -1, position 0, normal (0, 0, 1), charge collection 1, height 0 and no modules |
| ReadoutPlanes.ReadoutPlane.SetID | inc/TRestDetectorReadoutPlane.h:70 | only the ID changes (its frame names that field alone) |
| ReadoutPlanes.ReadoutPlane.AddModule | inc/TRestDetectorReadoutPlane.h:140 | a fresh module whose every field equals the argument's (Mirrors, shared with Copy) is appended; only the module list changes |
| ReadoutPlanes.ReadoutPlane.GetNumberOfChannels | src/TRestDetectorReadoutPlane.cxx:52-58 | the sum of the modules' channel counts |
| ReadoutPlanes.ReadoutPlane.GetModuleByID | src/TRestDetectorReadoutPlane.cxx:91-98 | null iff no module has the ID, otherwise the first module with it |
| ReadoutPlanes.ReadoutPlane.SetHeight | src/TRestDetectorReadoutPlane.cxx:78-86 | a negative height sets 0 and exits with 1, otherwise the height is stored; only the height changes |
| ReadoutPlanes.ReadoutPlane.IsDaqIDInside | src/TRestDetectorReadoutPlane.cxx:283-288 | true iff some module's DAQ range holds the ID |
| ReadoutPlanes.ReadoutPlane.IsZInsideDriftVolume | src/TRestDetectorReadoutPlane.cxx:299-307 | 1 iff the distance to the plane lies strictly between 0 and the height, else 0 |
| ReadoutPlanes.ReadoutPlane.GetModuleIDFromPosition | src/TRestDetectorReadoutPlane.cxx:336-350 | -1 outside the drift volume; inside it, the ID of the first module containing (x, y), or -1 |
| ReadoutPlanes.ReadoutPlane.GetBoundaries | src/TRestDetectorReadoutPlane.cxx:430-449 | the four results are the running minima and maxima over every module vertex, from the ±1e9 sentinels |
| ReadoutPlanes.ScanModule | src/TRestDetectorReadoutPlane.cxx:439-447 | the four-vertex inner loop extends the running extremes by one module's vertices |
| ReadoutPlanes.ScanNext | src/TRestDetectorReadoutPlane.cxx:443-446 | one more vertex updates each extreme only when it is beyond it |
| ReadoutPlanes.LowestIsMinimum | src/TRestDetectorReadoutPlane.cxx:430-449 | the scan minimum is at most the sentinel and every coordinate, and is the sentinel or one of them |
| ReadoutPlanes.HighestIsMaximum | src/TRestDetectorReadoutPlane.cxx:430-449 | the scan maximum is at least the sentinel and every coordinate, and is the sentinel or one of them |
| ReadoutPlanes.AllVerticesIndex | src/TRestDetectorReadoutPlane.cxx:436-441 | vertex v of module m is entry 4m + v of the scanned list |
| ExperimentalPixels.SquaredDistance | src/TRestDetectorExperimentalReadoutPixel.cxx:79-83 | the squared distance is never negative |
| ExperimentalPixels.CrossAntisymmetric | src/TRestDetectorExperimentalReadoutPixel.cxx:74-76 | exchanging the last two points negates the cross product |
| ExperimentalPixels.CrossCyclic | src/TRestDetectorExperimentalReadoutPixel.cxx:74-76 | rotating the three points keeps the cross product |
| ExperimentalPixels.ComparePointsStrict | src/TRestDetectorExperimentalReadoutPixel.cxx:86-93 | the sort order is irreflexive and asymmetric, as std::sort demands of its comparison |
| ExperimentalPixels.AnchorIsLowest | src/TRestDetectorExperimentalReadoutPixel.cxx:99-104 | the anchor is one of the points, and no point is lower, or as low and further left |
| ExperimentalPixels.FindAnchor | src/TRestDetectorExperimentalReadoutPixel.cxx:99-104 | the loop finds Anchor, the lowest-then-leftmost point |
| ExperimentalPixels.FindConvexHull | src/TRestDetectorExperimentalReadoutPixel.cxx:96-127 | the hull starts and ends with the first and last sorted points, keeps 2 to n of the given points and turns left at every vertex |
| ExperimentalPixels.IsPointInsideConvexHull | src/TRestDetectorExperimentalReadoutPixel.cxx:129-146 | true iff the point is on the left of, or on, every edge, the last edge closing back to vertex 0 |
| ExperimentalPixels.GetRectangularVertices | src/TRestDetectorExperimentalReadoutPixel.cxx:55-64 | a rectangle is given by four vertices |
| ExperimentalPixels.RectangleAroundCenter | src/TRestDetectorExperimentalReadoutPixel.cxx:55-64 | for positive sizes the four vertices are centred on the given point and turn left, so they are a convex hull in order |
| ExperimentalPixels.Centre | src/TRestDetectorExperimentalReadoutPixel.cxx:37-42 | the loop yields the mean of the vertices |
| ExperimentalPixels.LargestDistance | src/TRestDetectorExperimentalReadoutPixel.cxx:45-52 | the radius is at least 0 and every vertex distance, and is 0 or one of those distances |
| ExperimentalPixels.ExperimentalReadoutPixel.InitializeVertices | src/TRestDetectorExperimentalReadoutPixel.cxx:27-53 | fewer than three vertices throw and change nothing; otherwise the vertices become a left-turning hull of given points, the centre their mean and the radius their largest distance from it |
| ExperimentalPixels.ExperimentalReadoutPixel.IsInside | src/TRestDetectorExperimentalReadoutPixel.cxx:66-68 | the pixel test is the hull test on its vertices |
| G4Events.VolumesTotalSnoc | source/events/geant4/src/TRestG4Event.cxx:83-84 | one more hit adds its energy to the per-volume totals exactly when its volume is among the active ones |
| G4Events.EnergySplitsOverVolumes | source/events/geant4/src/TRestG4Event.cxx:82-84 | when every hit lies in an active volume, the energy AddTrack adds to the volumes, summed over them, is the track's total deposited energy |
| G4Events.EmptyVolumesTotal | source/events/geant4/src/TRestG4Event.cxx:83-84 | a track without hits adds nothing to any volume |
| G4Events.TrackIds | source/events/geant4/src/TRestG4Event.cxx:99-100 | one track ID per track |
| G4Events.TracksConcat | source/events/geant4/src/TRestG4Event.cxx:87-95 | the hit count and the deposited energy of two runs of tracks add up |
| G4Events.SubEventKeepsTotals | source/events/geant4/src/TRestG4Event.cxx:72-76 | changing a track's sub-event ID keeps the event's hit count and deposited energy |
| G4Events.Raised | source/events/geant4/src/TRestG4Event.cxx:75 | the maximum after one assignment is at least the old maximum and the new ID, and is one of them |
| G4Events.RunningMaxIsMaximum | source/events/geant4/src/TRestG4Event.cxx:72-76 | after any series of SetTrackSubEventID calls the maximum is at least the start and every ID set, and is the start or one of those IDs |
| G4Events.FirstWithID | source/events/geant4/src/TRestG4Event.cxx:97-103 | the index found holds the ID and no earlier track does; none is found exactly when no track has the ID |
| G4Events.G4Event.constructor | source/events/geant4/src/TRestG4Event.cxx:24-29 | a new event has no active volume, no track, zero energy and sub-event maximum 0, and keeps its invariants |
| G4Events.G4Event.Initialize | source/events/geant4/src/TRestG4Event.cxx:37-51 | the tracks and primary data are cleared and the totals reset, while the active volumes are kept |
| G4Events.G4Event.AddActiveVolume | source/events/geant4/src/TRestG4Event.cxx:53-58 | one more volume, stored, with zero energy; only the three volume fields change |
| G4Events.G4Event.ClearVolumes | source/events/geant4/src/TRestG4Event.cxx:60-65 | no volume is left; only the three volume fields change |
| G4Events.G4Event.AddEnergyDepositToVolume | source/events/geant4/src/TRestG4Event.cxx:67-70 | only the given volume's energy grows, by the deposit, so the volumes' sum grows by it too; no other field changes |
| G4Events.G4Event.SetTrackSubEventID | source/events/geant4/src/TRestG4Event.cxx:72-76 | only track n's sub-event ID changes, the maximum is raised to it when larger, and the hit count, energy total and sub-event bound are kept; only the tracks and the maximum change |
| G4Events.G4Event.AddTrack | source/events/geant4/src/TRestG4Event.cxx:78-85 | the track is appended, the count follows, its energy is added to the total and each active volume gains the track's energy in it; only the tracks, their count, the total and the volume energies change |
| G4Events.G4Event.GetTotalDepositedEnergyFromTracks | source/events/geant4/src/TRestG4Event.cxx:87-95 | the sum of the tracks' energies, which equals the event total whenever the two agree |
| G4Events.G4Event.GetTrackByID | source/events/geant4/src/TRestG4Event.cxx:97-103 | the first track with the ID, or none exactly when no track has it |
| G4Events.G4Event.GetNumberOfHits | source/events/geant4/src/TRestG4Event.cxx:105-112 | the number of hits over all tracks |
| SeqUtil.IndexOf | src/TRestDetectorSignalRecoveryProcess.cxx:299 | the position of the first occurrence, or -1 exactly when the value is absent, as std::find reports it |
| Geometry.RotateBackUndoesRotate | inc/TRestDetectorReadoutModule.h:83-88 | rotating into module coordinates undoes the rotation out of them, for a proper rotation |
| Geometry.ReflectedAlongNormal | src/TRestDetectorHitsSpecularProcess.cxx:105-107 | for a unit normal, V - 2 (V·n) n has the opposite component along n |
| Geometry.ReflectInvolution | src/TRestDetectorHitsSpecularProcess.cxx:105-109 | mirroring twice in the same plane gives the point back |
| Geometry.ReflectFixesPlane | src/TRestDetectorHitsSpecularProcess.cxx:105-109 | a point on the plane is its own mirror image |
| Geometry.ReflectFlipsSide | src/TRestDetectorHitsSpecularProcess.cxx:105-109 | the mirror image lies as far from the plane as the point, on the other side |
| HitsTranslation.ConfiguredTranslation | src/TRestDetectorHitsTranslationProcess.cxx:105-109 | the configured vector, or (0, 0, 1) when the parameter is absent |
| HitsTranslation.Translated | src/TRestDetectorHitsTranslationProcess.cxx:94-101 | one output hit per input hit |
| HitsTranslation.TranslatedAt | src/TRestDetectorHitsTranslationProcess.cxx:94-101 | output hit i is input hit i moved by the translation, with its energy, time and type |
| HitsTranslation.TranslatedEnergies | src/TRestDetectorHitsTranslationProcess.cxx:99-100 | the energies are carried over unchanged |
| HitsTranslation.TranslatedByZero | src/TRestDetectorHitsTranslationProcess.cxx:94-101 | the zero translation copies the hits |
| HitsTranslation.TranslatedBack | src/TRestDetectorHitsTranslationProcess.cxx:94-101 | translating by t and then by -t gives the hits back |
| HitsTranslation.TranslatedTwice | src/TRestDetectorHitsTranslationProcess.cxx:94-101 | two translations compose into one by the sum |
| HitsTranslation.HitsTranslationProcess.constructor | src/TRestDetectorHitsTranslationProcess.cxx:61-88 | a new process has translation (0, 0, 0) and an empty fresh output event |
| HitsTranslation.HitsTranslationProcess.InitFromConfigFile | src/TRestDetectorHitsTranslationProcess.cxx:105-109 | the translation becomes ConfiguredTranslation of the parameter |
| HitsTranslation.HitsTranslationProcess.ProcessEvent | src/TRestDetectorHitsTranslationProcess.cxx:90-103 | the output event receives the translated input hits after the hits it already held, and is returned |
| HitsSpecular.ScaledSquare | src/TRestDetectorHitsSpecularProcess.cxx:121 | scaling a vector by k scales its squared length by k² |
| HitsSpecular.OneSquared | src/TRestDetectorHitsSpecularProcess.cxx:121 | k·l = 1 gives k²·l² = 1 |
| HitsSpecular.UnitIsUnit | src/TRestDetectorHitsSpecularProcess.cxx:121 | TVector3::Unit of a non-zero vector has length 1; the zero vector is returned as it is |
| HitsSpecular.Reflected | src/TRestDetectorHitsSpecularProcess.cxx:102-113 | one output hit per input hit |
| HitsSpecular.ReflectedAt | src/TRestDetectorHitsSpecularProcess.cxx:102-113 | output hit i is input hit i mirrored in the plane, with its energy, time and type |
| HitsSpecular.ReflectedTwice | src/TRestDetectorHitsSpecularProcess.cxx:102-113 | for a unit normal, processing the output again restores the hits |
| HitsSpecular.ReflectedFixesPlane | src/TRestDetectorHitsSpecularProcess.cxx:105-109 | hits lying on the plane are copied unchanged |
| HitsSpecular.ReflectedEnergies | src/TRestDetectorHitsSpecularProcess.cxx:111-112 | the energies are carried over unchanged |
| HitsSpecular.HitsSpecularProcess.constructor | src/TRestDetectorHitsSpecularProcess.cxx:69-96 | a new process has normal (0, 0, 1), position 0 and an empty fresh output event |
| HitsSpecular.HitsSpecularProcess.InitFromConfigFile | src/TRestDetectorHitsSpecularProcess.cxx:117-123 | the normal becomes the unit vector of the configured or default (0, 0, 1) normal, the position the configured one or (0, 0, 1) |
| HitsSpecular.HitsSpecularProcess.ProcessEvent | src/TRestDetectorHitsSpecularProcess.cxx:98-115 | the output event receives the mirrored input hits after the hits it already held, and is returned |
| HitsSmearing.LowerChar | src/TRestDetectorHitsSmearingProcess.cxx:109 | ::tolower maps A-Z onto a-z and leaves other characters |
| HitsSmearing.ToLower | src/TRestDetectorHitsSmearingProcess.cxx:109 | the transform lowers every character, keeping the length |
| HitsSmearing.ToLowerIdempotent | src/TRestDetectorHitsSmearingProcess.cxx:109 | lowering twice is lowering once, and leaves no upper-case letter |
| HitsSmearing.ModeOf | src/TRestDetectorHitsSmearingProcess.cxx:135-146 | a valid channel type selects veto mode iff it is "veto" |
| HitsSmearing.SmearsComplement | src/TRestDetectorHitsSmearingProcess.cxx:135-156 | veto mode smears exactly the VETO hits and tpc mode exactly the others |
| HitsSmearing.Smeared | src/TRestDetectorHitsSmearingProcess.cxx:129-164 | one output hit per input hit |
| HitsSmearing.SmearedAt | src/TRestDetectorHitsSmearingProcess.cxx:135-156 | output hit i keeps position, time and type; its energy is multiplied by the gain iff the mode smears its type |
| HitsSmearing.SmearedByOne | src/TRestDetectorHitsSmearingProcess.cxx:129-164 | a gain of 1 copies the hits |
| HitsSmearing.SmearedPrefix | src/TRestDetectorHitsSmearingProcess.cxx:129-164 | the loop adds one smeared hit per round |
| HitsSmearing.HitsSmearingProcess.constructor | src/TRestDetectorHitsSmearingProcess.cxx:78-94 | a new process has an empty channel type and an empty fresh output event |
| HitsSmearing.HitsSmearingProcess.InitProcess | src/TRestDetectorHitsSmearingProcess.cxx:96-116 | no exception iff the readout was found and the lowered channel type is "veto" or "tpc"; a missing readout with a requested type throws before lowering |
| HitsSmearing.HitsSmearingProcess.ProcessEvent | src/TRestDetectorHitsSmearingProcess.cxx:121-167 | with a valid channel type the output receives the smeared hits; an invalid type throws on the first hit, so an empty event passes |
| HitsSmearing.HitsSmearingProcess.AddSmeared | src/TRestDetectorHitsSmearingProcess.cxx:135-156 | one loop round appends the smeared copy of that hit |
| HitsReduction.PowerStep | src/TRestDetectorHitsReductionProcess.cxx:78 | after n + 1 rounds the distance is the distance after n rounds times the factor |
| HitsReduction.MergedPositive | src/TRestDetectorHitsReductionProcess.cxx:72 | merging two hits of positive energy leaves every energy positive |
| HitsReduction.MergePass | src/TRestDetectorHitsReductionProcess.cxx:68-76 | one pass over the pairs keeps the total energy and never adds hits; it merged iff the hit count dropped, and a pass without merges leaves the hits untouched and pairwise at least the distance apart |
| HitsReduction.MergeWith | src/TRestDetectorHitsReductionProcess.cxx:70-75 | the inner loop for hit i keeps the energy total; without merges the hits are untouched and every later hit is at least the distance from hit i |
| HitsReduction.HitsReductionProcess.constructor | src/TRestDetectorHitsReductionProcess.cxx:20-47 | a process holds the four parameters and no events yet |
| HitsReduction.HitsReductionProcess.ProcessEvent | src/TRestDetectorHitsReductionProcess.cxx:55-100 | the input event is reduced in place and returned as the output; energy total kept, hit count never grows, and on completion the distance reached the minimum and the hit count is within the node limit |
| HitsReduction.Reduce | src/TRestDetectorHitsReductionProcess.cxx:64-79 | the outer loop stops only when the distance has reached the minimum and the hit count is at most maxNodes; energy total kept |
| HitsReduction.MergeUntilSeparated | src/TRestDetectorHitsReductionProcess.cxx:66-77 | the merged loop ends with every pair of hits at least the distance apart, the energy total kept |
| HitmapAnalysis.FindTransformationFirst | src/TRestDetectorHitmapAnalysisProcess.cxx:194-201 | the first definition with the name is returned, and a default transformation when none has it |
| HitmapAnalysis.MismatchGivesOrigin | src/TRestDetectorHitmapAnalysisProcess.cxx:157-189 | each transformation function returns (0, 0, 0) when handed a transformation of another type |
| HitmapAnalysis.StepByKind | src/TRestDetectorHitmapAnalysisProcess.cxx:137-144 | a step applies exactly the function of the transformation's type, and leaves the mean alone for an unknown type |
| HitmapAnalysis.UndefinedNameSkipped | src/TRestDetectorHitmapAnalysisProcess.cxx:137-144 | a name with no definition leaves the mean where it was |
| HitmapAnalysis.TransformedConcat | src/TRestDetectorHitmapAnalysisProcess.cxx:137-144 | the list of names is applied in order: a + b is a followed by b |
| HitmapAnalysis.SpecularInvolution | src/TRestDetectorHitmapAnalysisProcess.cxx:157-164 | for a unit normal, reflecting twice gives the point back |
| HitmapAnalysis.SpecularFixesPlane | src/TRestDetectorHitmapAnalysisProcess.cxx:157-164 | points on the mirror plane are fixed |
| HitmapAnalysis.TranslationUndone | src/TRestDetectorHitmapAnalysisProcess.cxx:184-189 | translating by the opposite vector undoes a translation |
| HitmapAnalysis.RotationFixesCentre | src/TRestDetectorHitmapAnalysisProcess.cxx:170-178 | the centre of rotation stays put |
| HitmapAnalysis.HitmapAnalysisProcess.constructor | src/TRestDetectorHitmapAnalysisProcess.cxx:93-125 | a process holds the given definitions and the ordered names, and no event |
| HitmapAnalysis.HitmapAnalysisProcess.GetTransformation | src/TRestDetectorHitmapAnalysisProcess.cxx:194-201 | the loop returns FindTransformation: the first definition with the name or the default |
| HitmapAnalysis.HitmapAnalysisProcess.ProcessEvent | src/TRestDetectorHitmapAnalysisProcess.cxx:130-151 | the observables xMean, yMean, zMean are the mean carried through the named transformations in order; the event passes through |
| TriggerAnalysis.ContainsFromMeaning | src/TRestDetectorTriggerAnalysisProcess.cxx:161 | the `find(...) != npos` test holds exactly when the marker occurs at some index of the name |
| TriggerAnalysis.MarkedNameLongEnough | src/TRestDetectorTriggerAnalysisProcess.cxx:161-165 | a name holding "Integral_Eth" has at least 12 characters, so `substr(12, ...)` is within the name |
| TriggerAnalysis.IntegralNamesMeaning | src/TRestDetectorTriggerAnalysisProcess.cxx:160-162 | a name is kept as an integral observable if and only if it is an observable containing "Integral_Eth" |
| TriggerAnalysis.CountPositive | src/TRestDetectorTriggerAnalysisProcess.cxx:200-202 | the scan's counter never exceeds the number of integral observables |
| TriggerAnalysis.Fired | src/TRestDetectorTriggerAnalysisProcess.cxx:192-197 | one bin of the scan keeps one integral per threshold |
| TriggerAnalysis.PointsIntegralIs | src/TRestDetectorTriggerAnalysisProcess.cxx:190 | the integral taken over a value snapshot of the signals' points equals the event's GetIntegralWithTime |
| TriggerAnalysis.ScanFrom | src/TRestDetectorTriggerAnalysisProcess.cxx:189-203 | the scan from a bin on yields one integral per threshold |
| TriggerAnalysis.EventScan | src/TRestDetectorTriggerAnalysisProcess.cxx:179-180 | the scan that starts half an ADC window before the first bin, from all-zero integrals, yields one integral per threshold |
| TriggerAnalysis.ScanKeepsSet | src/TRestDetectorTriggerAnalysisProcess.cxx:193 | an integral that is already non-zero is never overwritten by later bins |
| TriggerAnalysis.ScanStartFixed | src/TRestDetectorTriggerAnalysisProcess.cxx:194-195 | once the first threshold's integral is set, the trigger start bin no longer moves |
| TriggerAnalysis.ScanDone | src/TRestDetectorTriggerAnalysisProcess.cxx:189 | the scan stops past the last bin or once every integral is positive, leaving integrals and start unchanged |
| TriggerAnalysis.ScanStep | src/TRestDetectorTriggerAnalysisProcess.cxx:189-203 | a bin inside the range, with integrals still missing, fires the thresholds the half-window energy exceeds and moves on to the next bin |
| TriggerAnalysis.Analysed | src/TRestDetectorTriggerAnalysisProcess.cxx:182-183 | the first and last bins are the earliest and latest signal times over the sampling, truncated towards zero; one integral per threshold |
| TriggerAnalysis.Zeros | src/TRestDetectorTriggerAnalysisProcess.cxx:179-180 | the integrals start as one zero per observable, none of them positive |
| TriggerAnalysis.TriggerAnalysisProcess.constructor | src/TRestDetectorTriggerAnalysisProcess.cxx:130-135 | the process owns a fresh, empty signal event and no integral observables or thresholds |
| TriggerAnalysis.TriggerAnalysisProcess.InitProcess | src/TRestDetectorTriggerAnalysisProcess.cxx:156-168 | the observables containing "Integral_Eth" are appended to the integral list in order; one threshold is pushed per entry of the whole list, from index 0, each the atof of its name after the first 12 characters, after the thresholds already held, so there are never fewer thresholds than integral observables |
| TriggerAnalysis.TriggerAnalysisProcess.ProcessEvent | src/TRestDetectorTriggerAnalysisProcess.cxx:173-217 | the process's event becomes, as values, the signals it held with the input's signals admitted after them (a signal whose ID is already held is skipped, so the event is not the input when it held signals before); every input ID is in it; there is one integral per integral observable, and the integrals, trigger start, raw integral and time range are exactly the analysis of that event with only the first nObs thresholds, nObs being the number of integral observables (nObs bounds the scan, its break counter and the reported integrals; a surplus left by a second InitProcess is never read) |
| TriggerAnalysis.Analyse | src/TRestDetectorTriggerAnalysisProcess.cxx:179-212 | the observables computed from an event are its analysis |
| TriggerAnalysis.Observe | src/TRestDetectorTriggerAnalysisProcess.cxx:185-209 | the scan loop computes the event scan, and the raw integral runs from one unit before the first bin to one unit after the last |
| TriggerAnalysis.TimeRange | src/TRestDetectorTriggerAnalysisProcess.cxx:182-183 | the times are the event's earliest and latest signal times, and the bins are those times over the sampling, truncated |
| TriggerAnalysis.CopySignals | src/TRestDetectorTriggerAnalysisProcess.cxx:176-177 | the event's signals as values (IDs, times and charges) become the old ones with the input's admitted after them, every input ID is in the event and every signal holds a point |
| TriggerAnalysis.CopyLoop | src/TRestDetectorTriggerAnalysisProcess.cxx:176-177 | the loop over the input's signals admits their values, in order, after the held ones |
| TriggerAnalysis.CopyNext | src/TRestDetectorTriggerAnalysisProcess.cxx:177 | one pass admits the next input signal's value after those admitted so far |
| TriggerAnalysis.AddSignalData | src/TRestDetectorTriggerAnalysisProcess.cxx:177 | AddSignal of one input signal extends the admitted values by its ID, times and charges |
| TriggerAnalysis.CopiedSignals | src/TRestDetectorTriggerAnalysisProcess.cxx:176-177 | the admitted signals hold points and carry every input ID |
| TriggerAnalysis.Scan | src/TRestDetectorTriggerAnalysisProcess.cxx:185-203 | the window loop, started half an ADC window before the first bin with every integral at zero, computes exactly the event scan |
| TriggerAnalysis.ScanLoop | src/TRestDetectorTriggerAnalysisProcess.cxx:188-203 | the loop from any bin, integrals and start bin computes exactly the scan from that state |
| TriggerAnalysis.ScanBin | src/TRestDetectorTriggerAnalysisProcess.cxx:190-202 | one iteration computes the next integrals and start, and the counter of positive integrals, without changing the scan's outcome |
| TriggerAnalysis.FireThresholds | src/TRestDetectorTriggerAnalysisProcess.cxx:192-197 | each still-zero integral whose threshold the half-window energy exceeds takes the whole-window integral; only the first threshold sets the start |
| TriggerAnalysis.CountAbove | src/TRestDetectorTriggerAnalysisProcess.cxx:200-202 | the counter is the number of positive integrals |
| SignalToHits.Position | src/TRestDetectorSignalToHitsProcess.cxx:239-252 | a channel whose x is NaN takes the module centre's x and gives YZ hits; one whose y is NaN takes the centre's y and gives XZ hits; otherwise XYZ at the channel's coordinates |
| SignalToHits.NeighbourBins | src/TRestDetectorSignalToHitsProcess.cxx:270-272 | the bins before and after the peak stay inside the signal: the adjacent bins where they exist, the peak itself at an edge |
| SignalToHits.ConversionOf | src/TRestDetectorSignalToHitsProcess.cxx:254-337 | the method names "onlyMax", "tripleMax", "qCenter" and "all" select their conversions, each exactly for its own name |
| SignalToHits.AllHits | src/TRestDetectorSignalToHitsProcess.cxx:316-334 | "all" gives one hit per point |
| SignalToHits.AllHitsAt | src/TRestDetectorSignalToHitsProcess.cxx:317-333 | hit j of "all" is point j's charge at the drift z of point j's time |
| SignalToHits.SignalHits | src/TRestDetectorSignalToHitsProcess.cxx:254-337 | onlyMax and qCenter give one hit, tripleMax three, "all" one per point, and an unknown method none |
| SignalToHits.TripleHits | src/TRestDetectorSignalToHitsProcess.cxx:269-296 | tripleMax gives the peak bin's hit, then the previous bin's, then the next bin's, repeating the peak's hit at an edge |
| SignalToHits.SignalHitsPlaced | src/TRestDetectorSignalToHitsProcess.cxx:239-252 | every hit of a signal sits at its channel's transverse position, carries its hit type and has time 0 |
| SignalToHits.Found | src/TRestDetectorSignalToHitsProcess.cxx:224-229 | a signal is placed exactly when the readout finds its DAQ ID on a channel other than -1, and then on that channel |
| SignalToHits.FoundCount | src/TRestDetectorSignalToHitsProcess.cxx:217-229 | at most every signal is placed |
| SignalToHits.ConvertedSize | src/TRestDetectorSignalToHitsProcess.cxx:217-338 | the event gains one hit per placed signal for onlyMax and qCenter, three for tripleMax, one per point of the placed signals for "all", and none for an unknown method |
| SignalToHits.ConvertedNothingFound | src/TRestDetectorSignalToHitsProcess.cxx:226-229 | when no signal is placed, no hit is added |
| SignalToHits.AsWrittenAgreesWhenHeld | src/TRestDetectorSignalToHitsProcess.cxx:216-229 | when the readout places every signal, the loop as written and the corrected one give the same hits |
| SignalToHits.StaleChannelReused | src/TRestDetectorSignalToHitsProcess.cxx:216-229 | as written, a signal the readout does not place after one it does is converted on the earlier signal's channel: two hits instead of one |
| SignalToHits.SignalToHitsProcess.Default | inc/TRestDetectorSignalToHitsProcess.h:60-63 | the defaults are method "tripleMax" and drift velocity -1, with an empty hits event |
| SignalToHits.SignalToHitsProcess.constructor | src/TRestDetectorSignalToHitsProcess.cxx:149-158 | a configured process selects the conversion of its method name, with an empty hits event and no error |
| SignalToHits.SignalToHitsProcess.InitProcess | src/TRestDetectorSignalToHitsProcess.cxx:185-195 | without a gas definition, the error is set exactly when it was set already, the drift velocity is negative or the readout is missing |
| SignalToHits.SignalToHitsProcess.ProcessEvent | src/TRestDetectorSignalToHitsProcess.cxx:201-356 | without a readout nothing changes and the result is null; otherwise the hits event gains the corrected conversion of every placed signal, is returned unless it holds no hit, and the error is set exactly when an unknown method met a placed signal |
| SignalToHits.SignalToHitsProcess.ConvertSignals | src/TRestDetectorSignalToHitsProcess.cxx:217-338 | the loop appends the conversion of every placed signal, in signal order, and reports an unknown method exactly when one met a placed signal |
| SignalToHits.SignalToHitsProcess.ConvertSignal | src/TRestDetectorSignalToHitsProcess.cxx:218-337 | one signal's pass extends the hits by that signal's conversion |
| SignalToHits.SignalToHitsProcess.AddSignalHits | src/TRestDetectorSignalToHitsProcess.cxx:254-337 | one placed signal's hits are appended, and the method is reported as known or not |
| SignalToHits.SignalToHitsProcess.AddTripleHits | src/TRestDetectorSignalToHitsProcess.cxx:269-296 | the three tripleMax hits are appended |
| SignalToHits.SignalToHitsProcess.AddPointHit | src/TRestDetectorSignalToHitsProcess.cxx:256-268 | one hit at the plane position moved by the drift distance along the field direction is appended |
| SignalToHits.SignalToHitsProcess.AddCentreHit | src/TRestDetectorSignalToHitsProcess.cxx:303-315 | qCenter appends one hit at the charge-weighted drift z whose energy is the mean charge |
| SignalToHits.SignalToHitsProcess.ChargeCentre | src/TRestDetectorSignalToHitsProcess.cxx:304-311 | the loop computes the charge sum and the charge-weighted drift distance |
| SignalToHits.SignalToHitsProcess.AddAllPoints | src/TRestDetectorSignalToHitsProcess.cxx:317-334 | "all" appends one hit per point |
| SignalToHits.ConvertedStep | src/TRestDetectorSignalToHitsProcess.cxx:217 | one more signal adds its own hits and counts once if placed |
| DaqChannelSwitching.LowestDaqIsMinimum | src/TRestDetectorDaqChannelSwitchingProcess.cxx:48-53 | the running minimum from Int_t's maximum is at most every DAQ ID, and is one of them whenever the module has a channel and its DAQ IDs fit in Int_t |
| DaqChannelSwitching.Rebased | src/TRestDetectorDaqChannelSwitchingProcess.cxx:56-58 | rebasing keeps the number of channels |
| DaqChannelSwitching.RebasedStartsAtFirst | src/TRestDetectorDaqChannelSwitchingProcess.cxx:56-58 | after rebasing, the configured first DAQ channel is a DAQ ID of the module and no DAQ ID lies below it |
| DaqChannelSwitching.RebasedKeepsLayout | src/TRestDetectorDaqChannelSwitchingProcess.cxx:57 | rebasing keeps the differences between DAQ IDs, the channel IDs and the pixels |
| DaqChannelSwitching.Parked | src/TRestDetectorDaqChannelSwitchingProcess.cxx:70-72 | parking keeps the number of channels |
| DaqChannelSwitching.ParkedReadsNothing | src/TRestDetectorDaqChannelSwitchingProcess.cxx:70-72 | a parked module answers to no DAQ ID except -1e9, and keeps its channel IDs |
| DaqChannelSwitching.ParkedTwice | src/TRestDetectorDaqChannelSwitchingProcess.cxx:70-72 | parking is idempotent |
| DaqChannelSwitching.SwitchedOutcome | src/TRestDetectorDaqChannelSwitchingProcess.cxx:43-76 | a configured module that is found starts at its configured first DAQ channel with all DAQ IDs at or above it; an unconfigured one reads only -1e9 when ignored and is otherwise untouched |
| DaqChannelSwitching.SwitchedAll | src/TRestDetectorDaqChannelSwitchingProcess.cxx:43-76 | one channel list per module |
| DaqChannelSwitching.SwitchedAllOutcome | src/TRestDetectorDaqChannelSwitchingProcess.cxx:43-76 | the first module with a configured ID is rebased, later modules with the same ID are left alone (GetReadoutModuleWithID finds only the first), and unconfigured modules are parked exactly when ignoreUndefinedModules is set |
| DaqChannelSwitching.RebaseProgress | src/TRestDetectorDaqChannelSwitchingProcess.cxx:43-61 | the key loop's state keeps one channel list per module |
| DaqChannelSwitching.RebaseProgressEnds | src/TRestDetectorDaqChannelSwitchingProcess.cxx:43-61 | before the key loop nothing is rebased, and after all keys the result is the switch without parking |
| DaqChannelSwitching.RebaseProgressStep | src/TRestDetectorDaqChannelSwitchingProcess.cxx:45-60 | handling one key rebases exactly the first module with that ID, which is still untouched, or changes nothing when no module has it |
| DaqChannelSwitching.ParkProgress | src/TRestDetectorDaqChannelSwitchingProcess.cxx:64-75 | the parking loop's state keeps one channel list per module |
| DaqChannelSwitching.ParkProgressStart | src/TRestDetectorDaqChannelSwitchingProcess.cxx:64-75 | before the parking loop nothing is parked |
| DaqChannelSwitching.ParkProgressStep | src/TRestDetectorDaqChannelSwitchingProcess.cxx:69-73 | one more module is parked exactly when its ID is not configured, and it is still untouched |
| DaqChannelSwitching.ParkAfterRebase | src/TRestDetectorDaqChannelSwitchingProcess.cxx:63-76 | rebasing and then parking every module is the switch with ignoreUndefinedModules set |
| DaqChannelSwitching.ConfigDefsKeys | src/TRestDetectorDaqChannelSwitchingProcess.cxx:93-99 | a module ID is configured exactly when a module element with neither value -1 names it |
| DaqChannelSwitching.ConfigDefsValue | src/TRestDetectorDaqChannelSwitchingProcess.cxx:97 | a configured ID maps to the first DAQ channel of the last usable element naming it |
| DaqChannelSwitching.Least | src/TRestDetectorDaqChannelSwitchingProcess.cxx:43-44 | the next key of the ordered map is the least key left |
| DaqChannelSwitching.AsWrittenKeyLoopNeverEnds | src/TRestDetectorDaqChannelSwitchingProcess.cxx:44-46 | as written, a configured module ID the readout lacks is never stepped past, so the key loop does not end |
| DaqChannelSwitching.AsWrittenElementLoopNeverEnds | src/TRestDetectorDaqChannelSwitchingProcess.cxx:93-96 | as written, an element whose id or firstdaqchannel reads -1 is never stepped past, so the element loop does not end |
| DaqChannelSwitching.LowestDaqId | src/TRestDetectorDaqChannelSwitchingProcess.cxx:48-53 | the scan returns the running minimum, at most every DAQ ID of the module |
| DaqChannelSwitching.RebaseModule | src/TRestDetectorDaqChannelSwitchingProcess.cxx:56-58 | the module's channels become the rebased channels |
| DaqChannelSwitching.ParkModule | src/TRestDetectorDaqChannelSwitchingProcess.cxx:70-72 | the module's channels become the parked channels |
| DaqChannelSwitching.DaqChannelSwitchingProcess.constructor | src/TRestDetectorDaqChannelSwitchingProcess.cxx:26 | a new process has no definitions, does not ignore undefined modules, and has no readout or event |
| DaqChannelSwitching.DaqChannelSwitchingProcess.Initialize | src/TRestDetectorDaqChannelSwitchingProcess.cxx:30-38 | the definitions are cleared, ignoreUndefinedModules is false, and readout and event are null |
| DaqChannelSwitching.DaqChannelSwitchingProcess.InitFromConfigFile | src/TRestDetectorDaqChannelSwitchingProcess.cxx:91-101 | the definitions gain the usable module elements, later ones overriding earlier ones, and ignoreUndefinedModules is the parameter's value |
| DaqChannelSwitching.DaqChannelSwitchingProcess.RebaseDefinedModules | src/TRestDetectorDaqChannelSwitchingProcess.cxx:43-61 | the key loop leaves every module's channels as the switch without parking |
| DaqChannelSwitching.DaqChannelSwitchingProcess.RebaseKey | src/TRestDetectorDaqChannelSwitchingProcess.cxx:45-60 | one key of the loop advances the rebasing by that key |
| DaqChannelSwitching.DaqChannelSwitchingProcess.Lookup | src/TRestDetectorReadout.cxx:393-404 | the module found is the first with the ID, or null exactly when no module has it |
| DaqChannelSwitching.DaqChannelSwitchingProcess.RebaseAt | src/TRestDetectorDaqChannelSwitchingProcess.cxx:56-58 | only the module at that position changes, to its rebased channels |
| DaqChannelSwitching.DaqChannelSwitchingProcess.ParkAt | src/TRestDetectorDaqChannelSwitchingProcess.cxx:70-72 | only the module at that position changes, to its parked channels |
| DaqChannelSwitching.DaqChannelSwitchingProcess.CollectModules | src/TRestDetectorDaqChannelSwitchingProcess.cxx:64-68 | the modules, plane after plane |
| DaqChannelSwitching.DaqChannelSwitchingProcess.ParkUndefinedModules | src/TRestDetectorDaqChannelSwitchingProcess.cxx:63-76 | every module whose ID is not configured is parked, and no other module changes |
| DaqChannelSwitching.DaqChannelSwitchingProcess.ParkEach | src/TRestDetectorDaqChannelSwitchingProcess.cxx:67-74 | the loop over the modules parks exactly the unconfigured ones |
| DaqChannelSwitching.DaqChannelSwitchingProcess.InitProcess | src/TRestDetectorDaqChannelSwitchingProcess.cxx:40-78 | the readout is stored and, when there is one, its modules' channels become the switch of the old channels under the configuration; the configuration does not change |
| DaqChannelSwitching.DaqChannelSwitchingProcess.SwitchModules | src/TRestDetectorDaqChannelSwitchingProcess.cxx:42-77 | the modules keep their IDs and their channels become the switch of the old channels |
| DaqChannelSwitching.DaqChannelSwitchingProcess.ProcessEvent | src/TRestDetectorDaqChannelSwitchingProcess.cxx:80-83 | the event is stored and returned unchanged, and nothing else changes |
| SignalRecovery.NeighboursSkipDeadChannels | src/TRestDetectorSignalRecoveryProcess.cxx:295-310 | each neighbour handed back is the adjacent channel, or the one beyond it when the adjacent one is dead; kind 2 exactly when the left neighbour is dead, kind 3 exactly when only the right one is, kind 1 when neither is |
| SignalRecovery.AsWrittenKeepsDeadRightNeighbour | src/TRestDetectorSignalRecoveryProcess.cxx:305-307 | as written the right-neighbour test checks the left neighbour again: kind 3 never occurs, and a dead right neighbour is handed back as a live one |
| SignalRecovery.View | src/TRestDetectorSignalRecoveryProcess.cxx:284-287 | the placed modules, in plane order, as values carrying their DAQ range and channels |
| SignalRecovery.FirstHolding | src/TRestDetectorSignalRecoveryProcess.cxx:284-290 | the index of the first module whose DAQ range holds the ID, or -1 when none does |
| SignalRecovery.AdjacentAt | src/TRestDetectorSignalRecoveryProcess.cxx:290-296 | the lookup uses the first module holding the ID and the channel index of that ID in it |
| SignalRecovery.AdjacentNone | src/TRestDetectorSignalRecoveryProcess.cxx:315 | an ID that no module holds gives kind 0 with both neighbours -1 |
| SignalRecovery.Flags | src/TRestDetectorSignalRecoveryProcess.cxx:196-205 | one flag per dead channel |
| SignalRecovery.FlagsAt | src/TRestDetectorSignalRecoveryProcess.cxx:196-205 | a dead channel is rebuilt exactly when both neighbour IDs are found, not -1, and both have a signal in the input |
| SignalRecovery.Found | src/TRestDetectorSignalRecoveryProcess.cxx:189-190 | one flag per dead channel |
| SignalRecovery.FoundAt | src/TRestDetectorSignalRecoveryProcess.cxx:189-190 | a dead channel's flag says whether its neighbour lookup stays inside its module |
| SignalRecovery.RemoveAtMembers | src/TRestDetectorSignalRecoveryProcess.cxx:194 | removing the signal at an index keeps IDs unique and drops exactly that ID |
| SignalRecovery.RecoveryStepMembers | src/TRestDetectorSignalRecoveryProcess.cxx:193-253 | after one dead channel the IDs stay unique, the dead ID is present exactly when it was rebuilt, and every other ID is unchanged |
| SignalRecovery.RecoveredNext | src/TRestDetectorSignalRecoveryProcess.cxx:189 | handling one more dead channel is one more recovery step |
| SignalRecovery.RecoveredMembers | src/TRestDetectorSignalRecoveryProcess.cxx:182-262 | after all dead channels the output IDs are unique, each dead ID is present exactly when it was rebuilt, and every other ID is present exactly when it was in the input |
| SignalRecovery.AsWrittenKeepsFirstDeadSignal | src/TRestDetectorSignalRecoveryProcess.cxx:193-194 | as written a dead channel whose signal sits at index 0 is never erased, so its rebuilt signal is refused and the raw one stays; the corrected test erases and re-adds it |
| SignalRecovery.AsWrittenKeepsFirstSignal | src/TRestDetectorSignalRecoveryProcess.cxx:193-194 | as written, for every input and every set of dead channels, the output's first signal is the input's first: the erase test `> 0` never removes index 0 |
| SignalRecovery.ScaledStep | src/TRestDetectorSignalRecoveryProcess.cxx:212-213 | the scaled charge of one more point adds that point's share |
| SignalRecovery.ScaledSum | src/TRestDetectorSignalRecoveryProcess.cxx:212-222 | the scaled charges sum to the share of the total charge |
| SignalRecovery.Transfer | src/TRestDetectorSignalRecoveryProcess.cxx:212-222 | kind 1, corrected: the share of the charge moves to the rebuilt signal at the neighbour's own times, exactly as much leaves the neighbour, the neighbour's times do not change and the rebuilt signal keeps its earlier times |
| SignalRecovery.ShareInto | src/TRestDetectorSignalRecoveryProcess.cxx:229-242 | corrected: the rebuilt signal gains the share of the neighbour's total charge, has a point at every one of the neighbour's times and keeps its earlier times |
| SignalRecovery.TakeShare | src/TRestDetectorSignalRecoveryProcess.cxx:247-250 | the neighbour loses the share of its total charge and keeps its times |
| SignalRecovery.TakeShareAt | src/TRestDetectorSignalRecoveryProcess.cxx:248-250 | one pass takes the share of point n's original charge off the total, keeps the times, and leaves the points after n as they were |
| SignalRecovery.PointAdded | src/TRestDetectorSignal.cxx:73-83 | adding a point keeps the earlier times in order and adds at most one point |
| SignalRecovery.ScaledTimes | src/TRestDetectorSignalRecoveryProcess.cxx:230-242 | the times a TVector2 scaled by the share reaches: share * t for each neighbour time t, in order |
| SignalRecovery.ShareIntoAsWritten | src/TRestDetectorSignalRecoveryProcess.cxx:229-242 | as written (TVector2 scaled as a whole): the right charge share arrives, but every time the rebuilt signal gains is a scaled neighbour time and each scaled time is present, the earlier times kept |
| SignalRecovery.HalvingStep | inc/TRestDetectorSignal.h:70 | the point GetPoint(n)/2 adds keeps the earlier times and adds at most one point |
| SignalRecovery.AsWrittenHalvingMissesPoint | src/TRestDetectorSignalRecoveryProcess.cxx:212-222 | as written, a depletion pass at a point with nonzero time leaves that point's charge unchanged and puts the negative half charge at time -t/2 |
| SignalRecovery.HalvingRun | src/TRestDetectorSignalRecoveryProcess.cxx:212-216 | the kind-1 loop as written never empties the signal |
| SignalRecovery.Magnitude | src/TRestDetectorSignalRecoveryProcess.cxx:215 | the magnitude of each halved time is positive |
| SignalRecovery.PowerMagnitude | src/TRestDetectorSignalRecoveryProcess.cxx:215 | the k-th halved time is plus or minus its magnitude |
| SignalRecovery.MagnitudeDecreases | src/TRestDetectorSignalRecoveryProcess.cxx:215 | the halved times shrink strictly in magnitude, so none repeats |
| SignalRecovery.HalvingLoopOutrunsItsBound | src/TRestDetectorSignalRecoveryProcess.cxx:212-216 | as written and in exact arithmetic, after k passes of the kind-1 loop the signal holds k + 1 points, the times (-1/2)^j: the bound grows with the index and the loop does not end |
| SignalRecovery.HalvingNext | src/TRestDetectorSignalRecoveryProcess.cxx:215 | each pass appends a new point at (-1/2)^k |
| SignalRecovery.HalvingAppends | src/TRestDetectorSignal.cxx:73-83 | a time not yet on the signal is appended as a new point |
| SignalRecovery.PowersDistinct | src/TRestDetectorSignalRecoveryProcess.cxx:215 | the next halved time differs from all the earlier ones |
| SignalRecovery.RecoveryProcess.constructor | inc/TRestDetectorSignalRecoveryProcess.h:33 | the process holds the dead channel IDs and a snapshot of the readout's placed modules |
| SignalRecovery.RecoveryProcess.GetAdjacentSignalIds | src/TRestDetectorSignalRecoveryProcess.cxx:280-316 | the result is the neighbours within the first module, plane by plane, whose DAQ range holds the ID |
| SignalRecovery.RecoveryProcess.ProcessEvent | src/TRestDetectorSignalRecoveryProcess.cxx:179-267 | the input keeps its IDs; the event is processed exactly when every lookup stays inside its module, and then the output IDs are the input's after one corrected recovery step per dead channel |
| SignalRecovery.RecoveryProcess.RecoverAll | src/TRestDetectorSignalRecoveryProcess.cxx:189-262 | the dead channel loop stops at the first lookup outside a module, and otherwise yields the recovered IDs |
| SignalRecovery.RecoveryProcess.RecoverChannel | src/TRestDetectorSignalRecoveryProcess.cxx:190-253 | one dead channel is handled exactly when its lookup stays inside its module, and the recovery advances by one step |
| SignalRecovery.DisjointRemoveAt | src/TRestDetectorSignalRecoveryProcess.cxx:194 | removing an output signal keeps the output apart from the input |
| SignalRecovery.DisjointAppend | src/TRestDetectorSignalRecoveryProcess.cxx:253 | adding a signal not in the input keeps the output apart from it |
| SignalRecovery.RecoverWith | src/TRestDetectorSignalRecoveryProcess.cxx:193-253 | the output IDs after one dead channel are one recovery step from those before, and the input keeps its IDs |
| SignalRecovery.AddRebuilt | src/TRestDetectorSignalRecoveryProcess.cxx:207-253 | the rebuilt signal's ID is appended to the output unless it is already there; with distinct neighbours the input's neighbours keep Kept of their charge while, for a new ID, the output's earlier signals keep their values and the added one holds RebuiltCharge of the neighbours' totals |
| SignalRecovery.AddRebuiltId | src/TRestDetectorSignalRecoveryProcess.cxx:207-253 | AddRebuilt seen from the IDs: the rebuilt ID is appended unless it is already there |
| SignalRecovery.AdmitRebuilt | src/TRestDetectorSignalRecoveryProcess.cxx:253 | the rebuilt signal's ID is appended unless it is already there, and for a new ID the output's values gain exactly its value |
| SignalRecovery.EventChargeAppend | src/TRestDetectorSignalRecoveryProcess.cxx:253 | adding a signal adds its charge total to the event's |
| SignalRecovery.EventChargeUpdate | src/TRestDetectorSignalRecoveryProcess.cxx:214-221 | changing one signal changes the event's charge by the change of its total |
| SignalRecovery.AsWrittenRecoveryGainsCharge | src/TRestDetectorSignalRecoveryProcess.cxx:198-221 | as written, for kind 1 the output's earlier signals are undepleted copies and the rebuilt one is added, so the output's charge grows by half the neighbours' totals (strictly when those are positive) |
| SignalRecovery.DrainedSum | src/TRestDetectorSignalRecoveryProcess.cxx:215 | taking a share of each point's charge off takes the scaled sum off the total |
| SignalRecovery.HalvedSum | src/TRestDetectorSignalRecoveryProcess.cxx:215 | halving every point keeps half the total, as Kept says for kind 1 |
| SignalRecovery.IntendedKindOne | src/TRestDetectorSignalRecoveryProcess.cxx:46-51 | the intended kind-1 output: one more signal than the copies, the rebuilt one last |
| SignalRecovery.IntendedKindOneKeepsCharge | src/TRestDetectorSignalRecoveryProcess.cxx:46-51 | halving the output's own copies of the neighbours keeps the event's charge, each copy keeping half its total |
| SignalRecovery.AsWrittenDeadPair | src/TRestDetectorSignalRecoveryProcess.cxx:225-251 | two neighbouring dead channels recovered one after the other: the second reads the neighbours the first depleted, so each neighbour keeps Kept of Kept of its total (9/16) |
| SignalRecovery.AsWrittenDeadPairSkewsCharge | src/TRestDetectorSignalRecoveryProcess.cxx:225-251 | the four channels end with (49L + 47R)/48 when the left channel of the pair comes first and (47L + 49R)/48 otherwise, so the charge L + R is kept iff L == R; neighbours 48 and 0 end as 27, 16, 6, 0 |
| SignalRecovery.IntendedDeadPair | src/TRestDetectorSignalRecoveryProcess.cxx:55-60 | the documented two-dead-channel split: each rebuilt channel takes its kind's shares of the undepleted neighbour totals |
| SignalRecovery.IntendedDeadPairKeepsCharge | src/TRestDetectorSignalRecoveryProcess.cxx:55-60 | the documented split is L/2, (2L + R)/6, (L + 2R)/6, R/2, it keeps L + R, and it agrees with the code as written iff L == R |
| SignalRecovery.EraseCopy | src/TRestDetectorSignalRecoveryProcess.cxx:193-194 | the output loses the first signal with the dead ID, wherever it is |
| SignalRecovery.FindNeighbours | src/TRestDetectorSignalRecoveryProcess.cxx:196-205 | both neighbours' signals are found exactly when neither ID is -1 and both are in the input, and they are the input's signals with those IDs |
| SignalRecovery.Rebuild | src/TRestDetectorSignalRecoveryProcess.cxx:207-253 | a fresh signal with the dead ID; with distinct neighbours it receives RebuiltCharge of their totals (1/2 + 1/2, 1/6 + 2/6 or 2/6 + 1/6), they keep Kept (1/2, or 3/4 for kinds 2 and 3), for kind 1 the rebuilt signal and the two neighbours together keep the neighbours' charge total, the neighbours keep their times and the charge lands at their times. The neighbours depleted are the input's signals, not the output's copies (see Findings) |
| SignalRecovery.Apportion | src/TRestDetectorSignalRecoveryProcess.cxx:210-251 | the charge moves of the three kinds: with distinct neighbours the rebuilt signal gains RebuiltCharge and the neighbours keep Kept, any other kind moves nothing, and the neighbours' times land on the rebuilt signal |
| SignalRecovery.KindShares | src/TRestDetectorSignalRecoveryProcess.cxx:210-251 | summed point by point, the shares 1/2, 1/6, 2/6 and 1/4 applied to the neighbours' charges are the totals RebuiltCharge and Kept give |
| SignalRecovery.Halve | src/TRestDetectorSignalRecoveryProcess.cxx:210-223 | kind 1: half of each distinct neighbour's charge moves into the rebuilt signal at the neighbour's times; the neighbours keep their times and the input its IDs |
| SignalRecovery.Skew | src/TRestDetectorSignalRecoveryProcess.cxx:225-251 | kinds 2 and 3: the rebuilt signal receives the given shares of the two distinct neighbours' charges at their times, then each neighbour loses a quarter of its charge and keeps its times |
| SignalRecovery.MoveShare | src/TRestDetectorSignalRecoveryProcess.cxx:212-222 | the share of a neighbour's charge moves to the rebuilt signal, the neighbour keeps its times, the rebuilt signal gains them, and the input keeps its IDs |
| SignalRecovery.Fill | src/TRestDetectorSignalRecoveryProcess.cxx:229-242 | the rebuilt signal gains the share of a neighbour's charge and every one of its times, and the input keeps its IDs |
| SignalRecovery.Deplete | src/TRestDetectorSignalRecoveryProcess.cxx:247-250 | a neighbour loses the share of its charge and keeps its times, and the input keeps its IDs |
| SignalRecovery.CopySignals | src/TRestDetectorSignalRecoveryProcess.cxx:182-183 | the output's signals as values (IDs, times and charges, in order) are exactly the input's, its IDs are the input's, and it shares no object with the input |
| SignalRecovery.CopyOne | src/TRestDetectorSignalRecoveryProcess.cxx:183 | one pass appends a copy of input signal n: the output as values is the input's first n + 1 signals |
| SignalRecovery.CopyStep | src/TRestDetectorSignalRecoveryProcess.cxx:183 | with unique IDs, the next ID is new to the ones copied so far |
| SignalRecovery.Admit | src/TRestDetectorSignalEvent.cxx:49-57 | AddSignal on the output appends a copy with the signal's ID, times and charges unless the ID is already there, keeps the earlier signals, and keeps the output apart from the input |
| CheckReadout.Selected | macros/REST_Detector_CheckReadout.C:187-196 | the decoding loop pushes at most one channel per mask position, each between offset and offset plus the positions decoded |
| CheckReadout.SelectedMembers | macros/REST_Detector_CheckReadout.C:187-196 | a channel is selected exactly when it is offset plus a mask position whose bit n % 32 of word n / 32 is set |
| CheckReadout.SelectedIncreasing | macros/REST_Detector_CheckReadout.C:187-196 | the selected channels come in strictly increasing order, so none repeats |
| CheckReadout.SelectedNone | macros/REST_Detector_CheckReadout.C:191-192 | an all-zero mask selects no channel |
| CheckReadout.FullWordBit | macros/REST_Detector_CheckReadout.C:191-192 | every bit of an all-ones word passes the test, the top bit `0x1 << 31` included |
| CheckReadout.SelectedAll | macros/REST_Detector_CheckReadout.C:187-196 | an all-ones mask selects the 128 channels from offset on, in order |
| CheckReadout.SelectChannels | macros/REST_Detector_CheckReadout.C:185-196 | the loop over the 128 mask positions computes exactly the selected channels, in order |
| CheckReadout.TestBit | macros/REST_Detector_CheckReadout.C:188-194 | one mask position is enabled exactly when bit n % 32 of word n / 32 is set, and its channel is n plus the offset |
| CheckReadout.AffineBounds | macros/REST_Detector_CheckReadout.C:170-174 | the region map sends 0 to the lower bound and 1 to the upper, keeps order, and sends [0, 1] into the bounds |
| CheckReadout.RegionInsidePlane | macros/REST_Detector_CheckReadout.C:170-174 | a region of ordered unit fractions is an ordered box inside the plane's boundaries, and (0, 1, 0, 1) is the whole plane |
| CheckReadout.Kept | macros/REST_Detector_CheckReadout.C:207-215 | one drawn position is kept at most once per module |
| CheckReadout.KeptAreAccepted | macros/REST_Detector_CheckReadout.C:207-215 | every kept copy is the drawn position, and a position is kept only when some module finds it on a selected channel other than -1 |
| CheckReadout.LaunchedCount | macros/REST_Detector_CheckReadout.C:204-222 | the graph holds at most one point per draw and module |
| CheckReadout.LaunchedInside | macros/REST_Detector_CheckReadout.C:204-222 | with unit draws, every point of the graph lies inside the region and sits on a selected channel of some module |
| CheckReadout.LaunchedNothingSelected | macros/REST_Detector_CheckReadout.C:210-211 | with no channel selected, the graph is empty |
| CheckReadout.KeptNothingSelected | macros/REST_Detector_CheckReadout.C:210-211 | with no channel selected, no module keeps a position |
| CheckReadout.Xs | macros/REST_Detector_CheckReadout.C:212 | one x coordinate per point |
| CheckReadout.Ys | macros/REST_Detector_CheckReadout.C:213 | one y coordinate per point |
| CheckReadout.CoordinatesConcat | macros/REST_Detector_CheckReadout.C:212-213 | the coordinate vectors of two runs of points are the concatenation of each run's |
| CheckReadout.GetHittedStripMap | macros/REST_Detector_CheckReadout.C:154-231 | exactly max(N, 0) positions are drawn in the region, and the graph's coordinates are those of the positions some module places on a selected channel, once per such module, in draw order |
| CheckReadout.KeepPosition | macros/REST_Detector_CheckReadout.C:207-215 | the module loop appends the kept copies of one position to both coordinate vectors |

## Left out

Input, output and external services:

- ROOT file I/O, printing, verbosity levels, `TRestRun`/`TRestMetadata` plumbing, `SetEventInfo`, `SetID` and the other `TRestEvent` bookkeeping are not modelled.
- Random numbers (the smearing gain, the sampling draws of the readout check, the event shuffle) are parameters.
- `atof`, `sqrt`/`TVector2::Mod`, `std::sort`, `TVector3::Rotate` and the readout lookups (`FindChannel`, `GetX`/`GetY`, the module centre) are parameters with the contracts the model needs.
- Floating point is modelled as exact reals: rounding, NaN and infinities are not modelled except where a line below says so.
- Int_t/Float_t widths are not modelled unless a line below says so.

Signals and signal events:

- SignalEvents.SignalEvent.AddChargeToSignal: the deposit is not modelled, because `TRestDetectorSignal::AddDeposit` is not part of this model; the contract states only that a signal with the ID exists afterwards (the old one, or a new empty one appended).
- The definition of `RemoveSignalWithId` is not part of this model; it is modelled from its use.
- SignalEvents.SignalEvent.GetMinTime / GetMaxTime: require every signal to have a point, because a signal's own minimum and maximum time read the time at an index found by `TRestPulseShapeAnalysis`, which is not part of this model. The empty event still gives 1e10 / -1e10.

Hits:

- RestHits.Hits: the time and type vectors follow the six-argument `AddHit` the event code calls. `source/events/general/src/TRestHits.cxx` has only the four vectors x, y, z and energy, so carrying time and type along when hits are removed, swapped or merged is the model's choice. Float_t casts are ignored.
- RestHits.Hits.MergeHits: requires a nonzero energy sum of the two hits. The source divides by that sum and yields NaN coordinates when it is zero; NaN is not modelled.
- HitsReduction.HitsReductionProcess.ProcessEvent: requires every hit energy to be positive, because the merge divides by pair sums. Zero or negative energies, which the source accepts, are not covered. The merge rounds are bounded by a `maxRounds` fuel parameter; an event that needs more rounds is returned with `done` false.
- HitsReduction.Reduce: requires positive energies, for the same reason.
- HitsReduction.MergePass: requires positive energies, for the same reason.
- HitsReduction.MergeUntilSeparated: requires positive energies, for the same reason.
- HitsEvents: the shuffle's draws are a parameter; the TRandom3 seed is not modelled.

Readout:

- Readouts.Arranged: with elements but no written ID the definition order is kept. The source's ordering loop then reads the empty ID vector out of range (see Findings).
- Readouts.Readout.PlaceModule: requires every module definition to have a channel, because the source reads channel 0 unconditionally when it sets the DAQ range.
- Readouts.Readout.PlaceModule: a decoding readout ID outside the module's channels is skipped. The source dereferences the null channel pointer there (src/TRestDetectorReadout.cxx:571-572); that crash is not modelled.
- ReadoutModules.ReadoutModule.SetMinMaxDaqIDs: requires a channel, because the source reads channel 0 unconditionally.
- ReadoutModules.ReadoutModule.SetDecodingFile: requires a channel, because its closing SetMinMaxDaqIDs call reads channel 0 unconditionally; a module without channels is undefined behaviour in the source.
- ReadoutModules.ReadoutModule.AssignChannels: requires non-negative readout IDs, because `GetChannel` only checks the upper bound and a negative ID indexes out of range in the source. The skip of IDs past the last channel follows `SetDecodingFile`'s null check.
- The module tolerance is the constructor's 1e-3 or the value set through `SetTolerance`; no other source of it is modelled.
- `DoReadoutMapping` and `FindChannel` are not modelled; where they are used their results are parameters.
- ExperimentalPixels.FindConvexHull: requires two points, because the source reads the second point unchecked; it is only called with three or more.

Geant4 event:

- `TRestG4Track` and `TRestG4Hits` are not part of this model; a track is given by its hits as (volume, energy) pairs.
- `GetHits` and `PrintEvent` are not modelled; Int_t overflow in `GetNumberOfHits` is not modelled; `TRestEvent::Initialize` is left out.

Readout check macro:

- The file-opening entry point, printing and `system("date")` are left out.
- The TGraph is modelled as its two coordinate vectors.
- `0x1 << 31` is modelled as an unsigned 32-bit bit test.

Processes:

- HitmapAnalysis: the mean and `TVector3::Rotate` are parameters; `InitFromConfigFile` is not modelled.
- HitsSmearing: the random gain (resolution times a Gaussian draw) is a parameter.
- TriggerAnalysis.Analysed: requires a nonzero sampling and signals with points, since the source divides by the sampling and reads each signal's first and last times. Int_t overflow of the bin indices is not modelled.
- TriggerAnalysis.TriggerAnalysisProcess.ProcessEvent: the observables are returned rather than stored in the analysis tree; the stored signal event is never cleared, as in the source.
- TriggerAnalysis.TriggerAnalysisProcess.ProcessEvent: requires at least as many thresholds as integral observables, which the constructor and InitProcess always leave (InitProcess pushes one threshold per entry of the whole list); with fewer, the source would read fThreshold past its end.
- SignalToHits.SignalToHitsProcess.ProcessEvent: requires every signal, placed on a channel or not, to fit the conversion method (a peak index inside the signal for "onlyMax"/"tripleMax", a nonzero charge sum for "qCenter"). The source skips unplaced signals before reading them, and for a placed signal with a zero charge sum it divides by zero; neither the out-of-range read nor the division is modelled.
- SignalToHits: the gas and Garfield branch of `InitProcess` is left out; `GetMaxBin` is given as `peaks`; the error flag is raised once after the loop rather than per signal; the method name is parsed once into a `Conversion`; the warning on an empty event is left out; the hits event is never cleared, as in the source.
- SignalRecovery.RecoveryProcess.ProcessEvent: states the output IDs. The charge each rebuilt signal receives and the charge its neighbours keep are stated per dead channel by Rebuild and AddRebuilt, and the copy of each signal by Admit and CopySignals; they are not composed over the whole event. With left == right (two neighbours sharing a DAQ ID) no charge is promised.
- SignalRecovery.RecoveryProcess.ProcessEvent: requires the output event to be empty. The process creates its output event once, in `Initialize` (src/TRestDetectorSignalRecoveryProcess.cxx:138-143), and `ProcessEvent` never clears it, so from the second event on the copy loop skips every ID the previous event left there. That accumulation is not modelled.
- SignalRecovery.IntendedKindOne: the corrected kind-1 recovery is stated on values; the imperative ProcessEvent follows the code as written.
- SignalRecovery.IntendedDeadPair: the corrected two-dead-channel split is stated on the four charge totals; the imperative ProcessEvent and Rebuild follow the code as written.
- SignalRecovery: `ProcessEvent`'s read of `GetSignal(0)` for debug output is left out; a lookup outside the module is the outcome `OutsideModule`; the readout is a value snapshot (`layout`) taken when the process is built.
- DaqChannelSwitching: the modules are required to be distinct objects; the minimum and maximum DAQ IDs are not refreshed after re-basing, as in the source; the modules are collected before they are parked.
- DaqChannelSwitching.Rebased: the re-based DAQ IDs are unbounded integers; Int_t overflow of `daqID - mindaq + firstdaqchannel` is not modelled.

Tooling:

- CompareFiles.IsSpace: only the ASCII whitespace characters; Python's `str.strip`/`rstrip` also strips Unicode whitespace.
- CompareFiles.IsDigit: only the ASCII digits 0-9; Python's `str.isdigit` also accepts other Unicode digits.

## Findings

Each row pairs the code as written with a corrected definition. For most rows the rest of the model uses the corrected one. The two rows at src/TRestDetectorSignalRecoveryProcess.cxx:198-250 and 225-251 are exceptions: their corrected definitions are stated on values only, and the imperative Rebuild, Apportion, Halve and Skew still take the shares off the input event's signals, as the code does.

| source | as written | input that shows it | evidently intended | confidence | as-written member | corrected member |
|---|---|---|---|---|---|---|
| src/TRestDetectorReadout.cxx:682-701 | the ID count is checked only when some ID was written, and the ordering loop then reads `channelIDVector[j]` for every channel | a module definition with channels but no `id` attribute: the ID vector is empty and the loop reads past its end | with no IDs written, keep the definition order | not executed; high | Readouts.GuardAdmitsUnreadableIds | Readouts.ArrangedByIds |
| src/TRestDetectorSignalRecoveryProcess.cxx:304-307 | the test for a dead right neighbour checks `idLeft` again | channels (a, b, c, d) with b recovered and c dead: the dead channel c is used as the right neighbour, kind 1 | test `idRight`, skip to the channel beyond it, kind 3 | not executed; high | SignalRecovery.AsWrittenKeepsDeadRightNeighbour | SignalRecovery.NeighboursSkipDeadChannels |
| src/TRestDetectorSignalRecoveryProcess.cxx:193-194 | a dead channel's copied signal is erased only when its index is `> 0` | input IDs [7, 8] with 7 dead and rebuilt: output [7, 8] keeps the raw signal 7 and refuses the rebuilt one | erase at index `>= 0`, output [8, 7] | not executed; high | SignalRecovery.AsWrittenKeepsFirstSignal | SignalRecovery.RecoveredMembers |
| src/TRestDetectorSignalRecoveryProcess.cxx:212-250 | `GetPoint(n)` is a TVector2 (time, charge), so `/2.`, `/6.` and `/4` scale the time along with the charge | a neighbour with one point (1, 1): kind 1 adds the point (-1/2, -1/2) instead of taking half the charge at time 1, and in exact arithmetic the depletion loop never ends. With doubles the halved times underflow to ±0 after about 1075 passes, so the loop does end, leaving about a thousand spurious points | move the share of each point's charge at the neighbour's own time | not executed; high | SignalRecovery.HalvingLoopOutrunsItsBound, SignalRecovery.AsWrittenHalvingMissesPoint, SignalRecovery.ShareIntoAsWritten | SignalRecovery.Transfer, SignalRecovery.ShareInto |
| src/TRestDetectorDaqChannelSwitchingProcess.cxx:44-46 | `continue` for a module ID the readout lacks does not advance the iterator | a configured module ID with no module in the readout: the key loop never ends | advance to the next key | not executed; high | DaqChannelSwitching.AsWrittenKeyLoopNeverEnds | DaqChannelSwitching.DaqChannelSwitchingProcess.InitProcess |
| src/TRestDetectorDaqChannelSwitchingProcess.cxx:93-96 | `continue` for an element with `id` or `firstdaqchannel` -1 does not advance to the next element | a module element without a `firstdaqchannel` parameter: the element loop never ends | skip to the next element | not executed; high | DaqChannelSwitching.AsWrittenElementLoopNeverEnds | DaqChannelSwitching.DaqChannelSwitchingProcess.InitFromConfigFile |
| src/TRestDetectorSignalToHitsProcess.cxx:216-229 | `readoutChannel` is declared outside the signal loop and not reset, so a signal the readout does not place keeps the previous signal's channel | signals with DAQ IDs 1 (placed) then 2 (not placed): signal 2 is converted on signal 1's channel | skip a signal the readout does not place | not executed; high | SignalToHits.StaleChannelReused | SignalToHits.SignalToHitsProcess.ProcessEvent |
| src/TRestDetectorSignalRecoveryProcess.cxx:198-250 | the neighbours are looked up in the input event (lines 198-199) and the shares are taken off the input's signals (lines 215, 221, 248-250), while the output keeps the undepleted copies made at lines 182-183 | input signals 1 and 3, each one point of charge 2, with channel 2 dead between them (kind 1): the output holds 2, 2 and the rebuilt 2, a total of 6 instead of 4 | take the shares off the output's copies, so that a kind-1 recovery keeps the event's charge (two neighbouring dead channels do not keep it even then: next row) | not executed; high | SignalRecovery.AsWrittenRecoveryGainsCharge, SignalRecovery.AddRebuilt | SignalRecovery.IntendedKindOne, SignalRecovery.IntendedKindOneKeepsCharge |
| src/TRestDetectorSignalRecoveryProcess.cxx:225-251 | for two neighbouring dead channels each pass takes a quarter off each neighbour, and the second pass reads the neighbours the first already depleted, so the shares are not those of lines 55-60 | neighbour totals 48 and 0 with the left channel of the pair recovered first: the channels end as 27, 16, 6, 0, a total of 49, instead of 24, 16, 8, 0 | take each rebuilt channel's shares from the undepleted totals and leave each neighbour half, so the four channels keep L + R | not executed; medium | SignalRecovery.AsWrittenDeadPair, SignalRecovery.AsWrittenDeadPairSkewsCharge | SignalRecovery.IntendedDeadPair, SignalRecovery.IntendedDeadPairKeepsCharge |
