/** The per-event analyser: construction (true-level counts, aggregation,
    time ordering) and the public operations that fill in the reco-level
    count, the vertex and the first object. Each operation is a function
    from the analyser's state to its next state; an operation that throws
    in the source yields the unchanged state together with the error. */
module EventAnalysis {
  import opened Wrappers
  import opened Recon
  import opened Events
  import opened TrueCounts
  import opened Aggregation
  import opened Ordering
  import opened Selection

  /** The analyser's fields. */
  datatype Analysis = Analysis(
    trackVector: seq<ReconObject>,
    clusterVector: seq<ReconObject>,
    objects: seq<ReconObject>,
    numberOfPrimaryAntiMuonTrajectory: nat,
    numberOfPrimaryAntiMuonObject: nat,
    numberOfPrimaryPionTrajectory: nat,
    vertex: Position,
    firstObject: Option<ReconObject>)

  /** The state after an operation and the error it raised, if any. */
  datatype Step = Step(after: Analysis, raised: Option<Error>)

  /** What construction needs beyond a non-empty result: every group names a
      container of the event (a null container would be iterated), and the
      chosen container holds only tracks and clusters (the comparator reads
      no time from anything else). */
  predicate Constructible(ev: Event, result: AlgorithmResult)
  {
    && AllResolved(ev, result)
    && (|result.objectContainers| > 0 ==> AllTimed(ev.containers[result.objectContainers[0].name]))
  }

  /** Construction: count the true-level primaries, aggregate, then sort the
      chosen container by time. Fails exactly when aggregation fails. */
  function Construct(ev: Event, result: AlgorithmResult): (r: Result<Analysis, Error>)
    requires Constructible(ev, result)
    ensures r.Failure? <==> Add(ev, result).Failure?
    ensures r.Failure? <==> |result.objectContainers| == 0
    ensures r.Failure? ==> r.error == EmptyObjectContainers
    ensures r.Success? ==>
              var a := r.value;
              && a.numberOfPrimaryAntiMuonTrajectory == |PrimaryAntiMuonIds(ev.trajectories)|
              && a.numberOfPrimaryPionTrajectory == |PrimaryPionIds(ev.trajectories)|
              && a.numberOfPrimaryAntiMuonObject == 0
              && a.vertex == Origin
              && a.firstObject == None
              && AllTimed(a.objects) && SortedByTime(a.objects)
              && multiset(a.objects) == multiset(ev.containers[result.objectContainers[0].name])
              && a.trackVector == Add(ev, result).value.tracks
              && a.clusterVector == Add(ev, result).value.clusters
  {
    var antiMuons := |PrimaryAntiMuonIds(ev.trajectories)|;
    var pions := |PrimaryPionIds(ev.trajectories)|;
    match Add(ev, result)
    case Failure(e) => Failure(e)
    case Success(store) =>
      Success(Analysis(
        store.tracks, store.clusters, SortObjectsByTime(store.objects.value),
        antiMuons, 0, pions, Origin, None))
  }

  /** Count the primary anti-muon tracks of the container, store the count
      and return it. */
  function SetNumberOfPrimaryAntiMuonObject(ev: Event, a: Analysis): (r: (Analysis, nat))
    ensures r.0 == a.(numberOfPrimaryAntiMuonObject := r.1)
    ensures r.1 <= |TracksOf(a.objects)| <= |a.objects|
    ensures r.1 == 0 <==> forall i :: 0 <= i < |a.objects| ==> !IsPrimaryAntiMuonTrack(ev, a.objects[i])
    ensures r.1 == CountPrimaryAntiMuonTracks(ev, TracksOf(a.objects))
  {
    ClustersNeverCount(ev, a.objects);
    CountBounds(ev, a.objects);
    var n := CountPrimaryAntiMuonTracks(ev, a.objects);
    (a.(numberOfPrimaryAntiMuonObject := n), n)
  }

  /** Take the front state of the first anti-muon track as the vertex. Raises
      when there is no such track or when that one position is at the
      spatial origin; later candidates are never looked at. */
  function SetVertex(ev: Event, a: Analysis): (r: Step)
    ensures r.raised.None? ==>
              exists i :: 0 <= i < |a.objects|
                && IsVertexCandidate(ev, a.objects[i])
                && (forall j :: 0 <= j < i ==> !IsVertexCandidate(ev, a.objects[j]))
                && r.after == a.(vertex := a.objects[i].front)
                && !AtSpatialOrigin(a.objects[i].front)
    ensures r.raised.Some? ==> r.raised == Some(NoVertexCandidate) && r.after == a
    ensures (forall i :: 0 <= i < |a.objects| ==> !IsVertexCandidate(ev, a.objects[i])) ==> r.raised.Some?
    ensures forall i :: 0 <= i < |a.objects|
              && IsVertexCandidate(ev, a.objects[i])
              && (forall j :: 0 <= j < i ==> !IsVertexCandidate(ev, a.objects[j]))
              ==> (r.raised.Some? <==> AtSpatialOrigin(a.objects[i].front))
  {
    var candidate := match FindVertexTrack(ev, a.objects)
      case Some(i) => a.objects[i].front
      case None => Origin;
    if AtSpatialOrigin(candidate) then Step(a, Some(NoVertexCandidate))
    else Step(a.(vertex := candidate), None)
  }

  /** Select the first object of the container that is not skipped. Raises,
      leaving the state as it was, when every object is skipped. */
  function SetFirstObject(ev: Event, a: Analysis): (r: Step)
    ensures r.raised.None? ==>
              exists i :: 0 <= i < |a.objects|
                && !SkippedAsFirstObject(ev, a.objects[i])
                && (forall j :: 0 <= j < i ==> SkippedAsFirstObject(ev, a.objects[j]))
                && r.after == a.(firstObject := Some(a.objects[i]))
    ensures r.raised.Some? <==> forall i :: 0 <= i < |a.objects| ==> SkippedAsFirstObject(ev, a.objects[i])
    ensures r.raised.Some? ==> r.raised == Some(NoFirstObjectCandidate) && r.after == a
  {
    match FindFirstObject(ev, a.objects)
    case Some(i) => Step(a.(firstObject := Some(a.objects[i])), None)
    case None => Step(a, Some(NoFirstObjectCandidate))
  }

  /** The public operations that change the analyser. */
  datatype Call = CountAntiMuonObjects | DetermineVertex | DetermineFirstObject

  function Apply(ev: Event, a: Analysis, c: Call): Analysis
  {
    match c
    case CountAntiMuonObjects => SetNumberOfPrimaryAntiMuonObject(ev, a).0
    case DetermineVertex => SetVertex(ev, a).after
    case DetermineFirstObject => SetFirstObject(ev, a).after
  }

  /** The state after a sequence of public calls, whether or not they raise. */
  function ApplyAll(ev: Event, a: Analysis, cs: seq<Call>): Analysis
    decreases |cs|
  {
    if |cs| == 0 then a else ApplyAll(ev, Apply(ev, a, cs[0]), cs[1..])
  }

  /** What holds of every analyser reachable from construction: the
      container is time-sorted, a stored first object is a non-skipped member
      of the container, a stored vertex other than the default is a non-origin
      front position of an anti-muon track, and the reco-level count is either
      still 0 or the count of the container. */
  predicate Consistent(ev: Event, a: Analysis)
  {
    && AllTimed(a.objects) && SortedByTime(a.objects)
    && (a.firstObject.Some? ==>
          a.firstObject.value in a.objects && !SkippedAsFirstObject(ev, a.firstObject.value))
    && (a.vertex == Origin ||
          (!AtSpatialOrigin(a.vertex) &&
           exists i :: 0 <= i < |a.objects| && IsVertexCandidate(ev, a.objects[i]) && a.objects[i].front == a.vertex))
    && (a.numberOfPrimaryAntiMuonObject == 0 ||
          a.numberOfPrimaryAntiMuonObject == CountPrimaryAntiMuonTracks(ev, a.objects))
  }

  /** One public call touches neither the fields set during construction
      nor the optional fields of the other setters. */
  lemma ApplyChangesOnlyItsField(ev: Event, a: Analysis, c: Call)
    ensures var b := Apply(ev, a, c);
            && b.(numberOfPrimaryAntiMuonObject := a.numberOfPrimaryAntiMuonObject,
                  vertex := a.vertex, firstObject := a.firstObject) == a
            && (c != CountAntiMuonObjects ==> b.numberOfPrimaryAntiMuonObject == a.numberOfPrimaryAntiMuonObject)
            && (c != DetermineVertex ==> b.vertex == a.vertex)
            && (c != DetermineFirstObject ==> b.firstObject == a.firstObject)
  {
  }

  /** No public call touches the fields set during construction, and each
      optional field changes only through its own setter. */
  lemma {:induction false} PublicCallsPreserve(ev: Event, a: Analysis, cs: seq<Call>)
    ensures var b := ApplyAll(ev, a, cs);
            && b.trackVector == a.trackVector
            && b.clusterVector == a.clusterVector
            && b.objects == a.objects
            && b.numberOfPrimaryAntiMuonTrajectory == a.numberOfPrimaryAntiMuonTrajectory
            && b.numberOfPrimaryPionTrajectory == a.numberOfPrimaryPionTrajectory
            && (CountAntiMuonObjects !in cs ==> b.numberOfPrimaryAntiMuonObject == a.numberOfPrimaryAntiMuonObject)
            && (DetermineVertex !in cs ==> b.vertex == a.vertex)
            && (DetermineFirstObject !in cs ==> b.firstObject == a.firstObject)
    decreases |cs|
  {
    if |cs| > 0 {
      var a' := Apply(ev, a, cs[0]);
      assert ApplyAll(ev, a, cs) == ApplyAll(ev, a', cs[1..]);
      ApplyChangesOnlyItsField(ev, a, cs[0]);
      PublicCallsPreserve(ev, a', cs[1..]);
      assert forall c :: c in cs[1..] ==> c in cs;
    }
  }

  /** Consistency survives every sequence of public calls. */
  lemma {:induction false} PublicCallsKeepConsistent(ev: Event, a: Analysis, cs: seq<Call>)
    requires Consistent(ev, a)
    ensures Consistent(ev, ApplyAll(ev, a, cs))
    decreases |cs|
  {
    if |cs| > 0 {
      ApplyKeepsConsistent(ev, a, cs[0]);
      PublicCallsKeepConsistent(ev, Apply(ev, a, cs[0]), cs[1..]);
    }
  }

  lemma ApplyKeepsConsistent(ev: Event, a: Analysis, c: Call)
    requires Consistent(ev, a)
    ensures Consistent(ev, Apply(ev, a, c))
  {
  }

  /** Every analyser that construction yields, followed by any public calls,
      holds the true-level counts of the event, a time-ordered permutation of
      the chosen container, and consistent optional fields; the reco-level
      count reads 0 and the first object is absent until their setters run. */
  lemma Lifecycle(ev: Event, result: AlgorithmResult, cs: seq<Call>)
    requires Constructible(ev, result) && Construct(ev, result).Success?
    ensures var b := ApplyAll(ev, Construct(ev, result).value, cs);
            && b.numberOfPrimaryAntiMuonTrajectory == |PrimaryAntiMuonIds(ev.trajectories)|
            && b.numberOfPrimaryPionTrajectory == |PrimaryPionIds(ev.trajectories)|
            && multiset(b.objects) == multiset(ev.containers[result.objectContainers[0].name])
            && Consistent(ev, b)
            && (CountAntiMuonObjects !in cs ==> b.numberOfPrimaryAntiMuonObject == 0)
            && (DetermineFirstObject !in cs ==> b.firstObject == None)
  {
    var a := Construct(ev, result).value;
    PublicCallsPreserve(ev, a, cs);
    PublicCallsKeepConsistent(ev, a, cs);
  }
}
