/** Aggregation of an algorithm result's object groups into the analyser's
    object container and its track and cluster lists. */
module Aggregation {
  import opened Wrappers
  import opened Recon
  import opened Events

  type Container = seq<ReconObject>

  /** A named object group of an algorithm result; its contents are looked up
      again in the event by name. */
  datatype ObjectGroup = ObjectGroup(name: string)

  datatype AlgorithmResult = AlgorithmResult(objectContainers: seq<ObjectGroup>)

  /** What aggregation writes: the track list, the cluster list and the
      handle of "the" object container (None while it is null). */
  datatype Store = Store(tracks: seq<ReconObject>, clusters: seq<ReconObject>, objects: Option<Container>)

  /** The event's container of the group's name, None for a null container. */
  function Resolve(ev: Event, g: ObjectGroup): Option<Container>
  {
    if g.name in ev.containers then Some(ev.containers[g.name]) else None
  }

  function ResolveAll(ev: Event, gs: seq<ObjectGroup>): (cs: seq<Option<Container>>)
    ensures |cs| == |gs|
    ensures forall i :: 0 <= i < |gs| ==> cs[i] == Resolve(ev, gs[i])
  {
    if |gs| == 0 then [] else [Resolve(ev, gs[0])] + ResolveAll(ev, gs[1..])
  }

  /** Every group of the result names a container of the event. */
  predicate AllResolved(ev: Event, result: AlgorithmResult)
  {
    forall i :: 0 <= i < |result.objectContainers| ==> result.objectContainers[i].name in ev.containers
  }

  predicate AllPresent(cs: seq<Option<Container>>)
  {
    forall i :: 0 <= i < |cs| ==> cs[i].Some?
  }

  /** The container choice of the aggregation loop: the groups are visited
      from the last to the first, and each non-null container overwrites the
      stored one. */
  function ChooseContainer(cs: seq<Option<Container>>, stored: Option<Container>): Option<Container>
    decreases |cs|
  {
    if |cs| == 0 then stored
    else
      var last := cs[|cs| - 1];
      ChooseContainer(cs[..|cs| - 1], if last.Some? then last else stored)
  }

  /** Reference definition: the earliest-declared non-null container. */
  function FirstPresent(cs: seq<Option<Container>>): Option<Container>
  {
    if |cs| == 0 then None
    else if cs[0].Some? then cs[0]
    else FirstPresent(cs[1..])
  }

  /** Reference definition of the order in which the loop visits objects:
      the containers from the last-declared group to the first, each in its
      own order. */
  function VisitOrder(cs: seq<Option<Container>>): seq<ReconObject>
    requires AllPresent(cs)
  {
    if |cs| == 0 then [] else VisitOrder(cs[1..]) + cs[0].value
  }

  /** The classification part of the aggregation loop: visiting the groups
      from the last to the first, append each track to the track list and
      each cluster to the cluster list. Iterating a null container is
      undefined, so every container must be present. */
  function Classify(cs: seq<Option<Container>>, tracks: seq<ReconObject>, clusters: seq<ReconObject>)
    : (seq<ReconObject>, seq<ReconObject>)
    requires AllPresent(cs)
    decreases |cs|
  {
    if |cs| == 0 then (tracks, clusters)
    else
      var last := cs[|cs| - 1].value;
      Classify(cs[..|cs| - 1], tracks + TracksOf(last), clusters + ClustersOf(last))
  }

  lemma {:induction false} FirstPresentSnoc(init: seq<Option<Container>>, last: Option<Container>)
    ensures FirstPresent(init + [last]) == if FirstPresent(init).Some? then FirstPresent(init) else last
    decreases |init|
  {
    if |init| == 0 {
      assert init + [last] == [last];
      assert [last][1..] == [];
    } else {
      assert (init + [last])[0] == init[0];
      assert (init + [last])[1..] == init[1..] + [last];
      FirstPresentSnoc(init[1..], last);
    }
  }

  /** Visiting in reverse with overwriting keeps the earliest-declared
      non-null container; when every container is null the stored one
      survives. */
  lemma {:induction false} ChooseContainerIsFirstPresent(cs: seq<Option<Container>>, stored: Option<Container>)
    ensures ChooseContainer(cs, stored) == if FirstPresent(cs).Some? then FirstPresent(cs) else stored
    decreases |cs|
  {
    if |cs| > 0 {
      var init, last := cs[..|cs| - 1], cs[|cs| - 1];
      assert cs == init + [last];
      ChooseContainerIsFirstPresent(init, if last.Some? then last else stored);
      FirstPresentSnoc(init, last);
    }
  }

  lemma {:induction false} VisitOrderSnoc(init: seq<Option<Container>>, last: Option<Container>)
    requires AllPresent(init) && last.Some?
    ensures AllPresent(init + [last])
    ensures VisitOrder(init + [last]) == last.value + VisitOrder(init)
    decreases |init|
  {
    if |init| == 0 {
      assert init + [last] == [last];
      assert [last][1..] == [];
    } else {
      assert (init + [last])[1..] == init[1..] + [last];
      VisitOrderSnoc(init[1..], last);
    }
  }

  /** The track and cluster lists receive every object in visit order. */
  lemma ClassifyFollowsVisitOrder(cs: seq<Option<Container>>, tracks: seq<ReconObject>, clusters: seq<ReconObject>)
    requires AllPresent(cs)
    ensures Classify(cs, tracks, clusters).0 == tracks + TracksOf(VisitOrder(cs))
    ensures Classify(cs, tracks, clusters).1 == clusters + ClustersOf(VisitOrder(cs))
  {
    ClassifiedTracks(cs, tracks, clusters);
    ClassifiedClusters(cs, tracks, clusters);
  }

  lemma {:induction false} ClassifiedTracks(cs: seq<Option<Container>>, tracks: seq<ReconObject>, clusters: seq<ReconObject>)
    requires AllPresent(cs)
    ensures Classify(cs, tracks, clusters).0 == tracks + TracksOf(VisitOrder(cs))
    decreases |cs|
  {
    if |cs| > 0 {
      var init, last := cs[..|cs| - 1], cs[|cs| - 1];
      var tracks', clusters' := tracks + TracksOf(last.value), clusters + ClustersOf(last.value);
      assert Classify(cs, tracks, clusters) == Classify(init, tracks', clusters');
      ClassifiedTracks(init, tracks', clusters');
      VisitOrderSnoc(init, last);
      assert init + [last] == cs;
      var rest := VisitOrder(init);
      assert VisitOrder(cs) == last.value + rest;
      TracksOfAppend(last.value, rest);
      assert tracks' + TracksOf(rest) == tracks + TracksOf(VisitOrder(cs));
    }
  }

  lemma {:induction false} ClassifiedClusters(cs: seq<Option<Container>>, tracks: seq<ReconObject>, clusters: seq<ReconObject>)
    requires AllPresent(cs)
    ensures Classify(cs, tracks, clusters).1 == clusters + ClustersOf(VisitOrder(cs))
    decreases |cs|
  {
    if |cs| > 0 {
      var init, last := cs[..|cs| - 1], cs[|cs| - 1];
      var tracks', clusters' := tracks + TracksOf(last.value), clusters + ClustersOf(last.value);
      assert Classify(cs, tracks, clusters) == Classify(init, tracks', clusters');
      ClassifiedClusters(init, tracks', clusters');
      VisitOrderSnoc(init, last);
      assert init + [last] == cs;
      var rest := VisitOrder(init);
      assert VisitOrder(cs) == last.value + rest;
      ClustersOfAppend(last.value, rest);
      assert clusters' + ClustersOf(rest) == clusters + ClustersOf(VisitOrder(cs));
    }
  }

  /** Every object of every group is visited. */
  lemma {:induction false} VisitOrderCoversGroups(cs: seq<Option<Container>>)
    requires AllPresent(cs)
    ensures forall g, o :: 0 <= g < |cs| && o in cs[g].value ==> o in VisitOrder(cs)
    decreases |cs|
  {
    if |cs| > 0 {
      VisitOrderCoversGroups(cs[1..]);
      forall g, o | 0 <= g < |cs| && o in cs[g].value ensures o in VisitOrder(cs) {
        if g > 0 {
          assert cs[1..][g - 1] == cs[g];
        }
      }
    }
  }

  /** The aggregation step of the analyser, starting from empty lists and a
      null container. */
  function Add(ev: Event, result: AlgorithmResult): (r: Result<Store, Error>)
    requires AllResolved(ev, result)
    ensures |result.objectContainers| == 0 <==> r.Failure?
    ensures r.Failure? ==> r.error == EmptyObjectContainers
    ensures r.Success? ==> r.value.objects == Some(ev.containers[result.objectContainers[0].name])
    ensures r.Success? ==>
              var visited := VisitOrder(ResolveAll(ev, result.objectContainers));
              r.value.tracks == TracksOf(visited) && r.value.clusters == ClustersOf(visited)
    ensures r.Success? ==>
              forall i, o :: 0 <= i < |result.objectContainers| && o in ev.containers[result.objectContainers[i].name] ==>
                (o.Track? ==> o in r.value.tracks) && (o.Cluster? ==> o in r.value.clusters)
  {
    var gs := result.objectContainers;
    if |gs| == 0 then
      Failure(EmptyObjectContainers)
    else
      var cs := ResolveAll(ev, gs);
      var (tracks, clusters) := Classify(cs, [], []);
      ChooseContainerIsFirstPresent(cs, None);
      ClassifyFollowsVisitOrder(cs, [], []);
      VisitOrderCoversGroups(cs);
      Success(Store(tracks, clusters, ChooseContainer(cs, None)))
  }
}
