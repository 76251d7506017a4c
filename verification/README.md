# EventAnalysis — a Dafny model of the per-event analyser

This project models `EventAnalysis`, the per-event analyser of a CC0π
(charged-current, no pion) selection over simulated detector events. The
class does the following for one event:

- It collects the reconstructed objects of an algorithm result into "the"
  object container, a track list and a cluster list.
- It counts the primary anti-muons and primary pions among the event's
  ground-truth trajectories.
- It orders the container by time.
- On request, it counts the primary anti-muon tracks in the container. It
  also picks the vertex, which is the front state of the first anti-muon
  track. And it picks the first object that is neither an anti-muon, nor
  unresolved, nor an object whose parent trajectory has code ±13. Only the
  immediate parent is examined: grandchildren of a muon are not skipped.

Modules, leaf to root:

- `Wrappers` (`wrappers.dfy`): `Option` and `Result`.
- `Recon` (`recon.dfy`): four-vector positions and the reconstructed object. A
  `ReconObject` is `Track(position, front)`, `Cluster(position)` or `OtherObject`,
  in place of the source's dynamic casts. The module also holds the time key
  and the track/cluster split.
- `Events` (`events.dfy`): the particle codes, the trajectory record and the
  explicit `Event`. The `Event` stands in for the global event pointer: it holds
  the trajectory map, the named containers, and the external main-trajectory
  tool as a function `ReconObject -> int`. The module also holds the error kinds.
- `TrueCounts` (`truecounts.dfy`): the two true-level counters.
- `Identity` (`identity.dfy`): `GetPdg`, `GetParentID` and `GetParentPdg`. Each
  is a map lookup that returns 0 when unresolved. Each lookup also has a
  method that performs the source's linear scan and is proved equal to the
  lookup.
- `Aggregation` (`aggregation.dfy`): `Add`.
- `Ordering` (`ordering.dfy`): the time sort.
- `Selection` (`selection.dfy`): the first-object scan, the vertex-track scan
  and the reco-level count.
- `EventAnalysis` (`analysis.dfy`): the analyser state, its construction, and
  its public operations as state-to-state functions. An operation that throws
  in the source returns the unchanged state together with the error.
- `Scenarios` (`scenarios.dfy`): concrete events that pin down the selection
  rules.

Behaviour of the code worth knowing:

- The code sorts with `std::sort`, which is not stable. The model promises a
  permutation with non-decreasing times and nothing about ties.
- A group's container replaces the stored one when it is non-null, not when
  it is non-empty.
- A null container is dereferenced (`EventAnalysis.cpp:23`), not skipped.
  `Add` therefore requires every group's name to resolve to a container of the
  event.
- The neutral-pion test compares the code itself (`pdg == 111`), not its
  absolute value.
- A pion is never skipped for its own code; it is skipped only when its parent
  trajectory has code ±13. In [anti-muon, pion, decay electron, neutron] the
  pion is selected, and the neutron only when the pion's parent is the
  anti-muon (`Scenarios.FirstObjectSkipsMuonAndChildren`). A muon's grandchild
  is selected (`Scenarios.MuonGrandchildIsSelected`).

## Model

| member | source | states |
|---|---|---|
| Recon.TracksOf | EventAnalysis.cpp:26-30 | The track list gets exactly the tracks of the visited objects, and never more objects than were visited |
| Recon.ClustersOf | EventAnalysis.cpp:32-36 | The cluster list gets exactly the clusters of the visited objects |
| Recon.TracksOfAppend | EventAnalysis.cpp:23-31 | Appending per object composes: the tracks of a concatenation are the tracks of each part, in order |
| Recon.SplitIsPartition | EventAnalysis.cpp:23-37 | No object is duplicated into both lists; when all objects are tracks or clusters, the two lists together are a permutation of the visited objects |
| Aggregation.ChooseContainerIsFirstPresent | EventAnalysis.cpp:11-21 | Walking the groups in reverse and overwriting on every non-null container leaves the container of the earliest-declared group whose container is non-null; if all are null, the previous handle survives |
| Aggregation.ClassifyFollowsVisitOrder | EventAnalysis.cpp:11-37 | The reverse walk appends every track and every cluster in visit order, that is from the last-declared group to the first |
| Aggregation.VisitOrderCoversGroups | EventAnalysis.cpp:23-24 | Every object of every group is visited, whichever container is chosen |
| Aggregation.Add | EventAnalysis.cpp:5-39 | Fails with the empty-containers error exactly when the result has no object groups. Otherwise the stored container is the first group's, the lists hold the tracks and clusters in visit order, and every track and cluster of every group is listed |
| TrueCounts.CountMatching | EventAnalysis.cpp:56-95 | One pass over the trajectory map, in its iteration order, counts exactly the records that satisfy the predicate |
| TrueCounts.NumberOfPrimaryAntiMuonTrajectories | EventAnalysis.cpp:56-75 | The count is the number of trajectories with parent -1 and code -13 |
| TrueCounts.NumberOfPrimaryPionTrajectories | EventAnalysis.cpp:77-95 | The count is the number of trajectories with parent -1 and either abs(code) = 211 or code = 111 |
| TrueCounts.NonPrimaryNeverCounts | EventAnalysis.cpp:65-70 | A trajectory whose parent is not -1 changes neither count, whatever its code |
| TrueCounts.CountedKindsAreDisjoint | EventAnalysis.cpp:86-91 | No trajectory is counted both as a primary anti-muon and as a primary pion |
| TrueCounts.ExampleTrueCounts | EventAnalysis.cpp:56-95 | One primary anti-muon, one primary 211 and one non-primary anti-muon give one anti-muon and one pion |
| Identity.ScanTrajectories | EventAnalysis.cpp:197-207 | The full scan that keeps the last match yields the field of the record stored under the key, or 0 when the key is absent |
| Identity.ScanPdg | EventAnalysis.cpp:190-224 | The code of the object's main trajectory when the object is a track or cluster and that trajectory exists; 0 otherwise; equal to the lookup `GetPdg` |
| Identity.ScanParentID | EventAnalysis.cpp:226-260 | The parent identifier of the object's main trajectory under the same conditions; 0 (not -1) otherwise; equal to `GetParentID` |
| Identity.ScanParentPdg | EventAnalysis.cpp:357-373 | The scan that stops at the first match yields the code stored under the identifier, or 0 when the identifier is absent; equal to `GetParentPdg` |
| Identity.GetPdg | EventAnalysis.cpp:190-224 | A non-zero code is returned only for an object that resolves to a trajectory; every other object gets 0 and no error |
| Identity.GetParentID | EventAnalysis.cpp:226-260 | A non-zero parent identifier is returned only for an object that resolves to a trajectory; every other object gets 0 and no error |
| Identity.GetParentPdg | EventAnalysis.cpp:357-373 | A non-zero code is returned only for an identifier present in the trajectory map |
| Identity.MainTrajectoryOf | EventAnalysis.cpp:193-195 | Objects that are neither a track nor a cluster never resolve to a trajectory |
| Ordering.Insert | EventAnalysis.cpp:107-133 | Inserting by the "earlier time first" comparator adds exactly one object and keeps a time-sorted sequence sorted |
| Ordering.SortObjectsByTime | EventAnalysis.cpp:135-141 | The sorted container is a permutation of the original with non-decreasing time keys, where the key is the time of the track's or cluster's position |
| Ordering.SortedPermutationsAgreeOnTimes | EventAnalysis.cpp:139 | Any two time-sorted arrangements of the same objects have the same time at every position, so the unstable sort fixes every time key even though it fixes no order among ties |
| Ordering.ResortingKeepsTimes | EventAnalysis.cpp:135-141 | Sorting an already sorted container again changes no time key |
| Selection.FirstWhere | EventAnalysis.cpp:146-154 | The first-match scan returns the first index whose object passes the test, with every earlier object failing it; it returns none only when no object passes |
| Selection.FindFirstObject | EventAnalysis.cpp:146-154 | The selected object is not an anti-muon, is resolved, and does not have a parent with abs(code) = 13; every earlier object fails one of these tests |
| Selection.FindVertexTrack | EventAnalysis.cpp:265-277 | The scan stops at the first track whose code is -13, and every earlier object is not such a track |
| Selection.CountBounds | EventAnalysis.cpp:167-183 | The reco-level count is at most the number of tracks, and it is 0 exactly when no track is a primary anti-muon |
| Selection.CountIsCardinality | EventAnalysis.cpp:167-183 | The reco-level count equals the number of container positions holding a track whose main trajectory is a primary anti-muon |
| Selection.ClustersNeverCount | EventAnalysis.cpp:172-179 | Counting the whole container gives the same result as counting its tracks alone |
| Selection.CountIgnoresOrder | EventAnalysis.cpp:167-183 | The count does not depend on the order of the container, so time-sorting does not change it |
| EventAnalysis.Construct | EventAnalysis.hxx:36-42 | Construction fails exactly when `Add` fails, which is when there are no groups. On success the analyser holds the two true-level counts of the event, a time-sorted permutation of the chosen container and the lists from `Add`, and the defaults: reco count 0, vertex at the origin, no first object |
| EventAnalysis.SetNumberOfPrimaryAntiMuonObject | EventAnalysis.cpp:167-183 | Stores and returns the same value and changes no other field. The value counts only tracks, is bounded by the container length, and is 0 exactly when no track is a primary anti-muon |
| EventAnalysis.SetVertex | EventAnalysis.cpp:262-283 | On success the vertex is the non-origin front position of the first anti-muon track. It raises, leaving the state unchanged, when there is no such track or when that first track's front is at the spatial origin |
| EventAnalysis.SetFirstObject | EventAnalysis.cpp:143-160 | On success the first object is the first non-skipped object in container order. It raises, leaving the state unchanged, exactly when every object is skipped |
| EventAnalysis.ApplyChangesOnlyItsField | EventAnalysis.hxx:62-67 | Each public setter changes only its own field |
| EventAnalysis.PublicCallsPreserve | EventAnalysis.hxx:73-83 | No sequence of public calls changes the lists, the container or the true-level counts. The reco count, the vertex and the first object change only if their own setter was called |
| EventAnalysis.PublicCallsKeepConsistent | EventAnalysis.cpp:143-283 | After any public calls, the container stays sorted. A stored first object is a non-skipped member of the container. A vertex other than the default is a non-origin anti-muon front. The reco count is 0 or the container's count |
| EventAnalysis.Lifecycle | EventAnalysis.hxx:36-42 | After construction and any public calls, the analyser holds the event's true-level counts and a sorted permutation of the chosen container. The reco count reads 0 and the first object is absent until their setters run |
| Scenarios.VertexIsAntiMuonFront | EventAnalysis.cpp:262-283 | The vertex of a container with one anti-muon track is exactly that track's front position (1, 2, 3, 0.5) |
| Scenarios.VertexScanStopsAtFirstCandidate | EventAnalysis.cpp:271-281 | An anti-muon track whose front is at the origin ends the scan and raises, even though a later anti-muon track would qualify |
| Scenarios.FirstObjectSkipsMuonAndChildren | EventAnalysis.cpp:146-154 | In the container [anti-muon, primary pion, muon decay product, neutron] the pion is selected; if the pion's parent is the anti-muon, the neutron is selected |
| Scenarios.MuonWithoutMuonParentIsSelected | EventAnalysis.cpp:148 | A code +13 object whose parent is not a muon is not skipped |
| Scenarios.MuonGrandchildIsSelected | EventAnalysis.cpp:148 | An object whose parent is the anti-muon's decay electron is selected: only the immediate parent is examined |
| Scenarios.NoFirstObjectAmongMuonFamily | EventAnalysis.cpp:155-158 | A container holding only an anti-muon and its direct child raises the no-candidate error |

## Left out

- `ShowAllObjects`, `ShowFirstObject` and `ShowVertex` (EventAnalysis.cpp:290-355) only print to standard output.
- The getters (`GetTrackVector`, `GetClusterVector`, `GetObjects`, `GetVertex`, `GetFirstObject`, the three count getters) only return a field. They are the fields of the `Analysis` datatype.
- main.cpp is the file loop, the argument handling, the histograms and the plots. Its two selection gates are tests on the modelled counts and are not restated.
- `Cube::Tool::MainTrajectory` is a foreign tool. It is the function field `mainTrajectory` of `Event`, with nothing assumed about it.
- The global event pointer is the explicit `Event` parameter.
- `Cube::Handle` reference semantics: objects are values, so two equal-valued objects cannot be told apart. The source sorts the event's own container in place through a shared handle. The model keeps the sorted sequence in the analyser and does not model that the event's container is reordered too.
- Floating point: coordinates are exact reals. NaN times, which would break the comparator's ordering, are not modelled.
- The algorithm inside `std::sort`: an insertion sort stands in for it. Only its postcondition is promised. The order it picks among equal times is an artefact of the model.
- Construction computes the true-level counts before `Add`, and they are discarded when `Add` throws. The model computes them only on success. The two cannot be told apart.
- The `int` counters of the source are unbounded naturals. Wrap-around would need more than 2^31 trajectories or objects.
- EventAnalysis.Construct requires the chosen container to hold only tracks and clusters: for any other object `tSort` reads an uninitialised time, so the source has no defined behaviour to model.
- Ordering.ResortingKeepsTimes: re-sorting is shown to preserve every time key, not the exact sequence. `std::sort` does not promise to leave equal-time objects in place.
