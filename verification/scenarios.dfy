/** Concrete events that pin down the selection rules on small containers. */
module Scenarios {
  import opened Wrappers
  import opened Recon
  import opened Events
  import opened Selection
  import opened EventAnalysis

  /** An analyser holding `objects` and nothing else yet. */
  function Holding(objects: seq<ReconObject>): Analysis
  {
    Analysis([], [], objects, 0, 0, 0, Origin, None)
  }

  /** An event whose trajectory for an object is chosen by the object's time:
      time 0 resolves to 1, time 1 to 2, time 2 to 3, anything else to 4. */
  function ByTime(trajectories: map<int, Traj>): Event
  {
    Event(trajectories, map[],
      (o: ReconObject) =>
        if o.OtherObject? then 0
        else if o.position.t == 0.0 then 1
        else if o.position.t == 1.0 then 2
        else if o.position.t == 2.0 then 3
        else 4)
  }

  /** The vertex is exactly the front position of the anti-muon track. */
  lemma VertexIsAntiMuonFront()
    ensures
      var front := Position(1.0, 2.0, 3.0, 0.5);
      var step := SetVertex(ByTime(map[1 := Traj(-13, -1)]), Holding([Track(Position(1.0, 2.0, 3.0, 0.0), front)]));
      step.raised == None && step.after.vertex == front
  {
  }

  /** The first anti-muon track ends the vertex scan even when its front is at
      the origin and a later anti-muon track's front is not. */
  lemma VertexScanStopsAtFirstCandidate()
    ensures
      var s := [Track(Position(0.0, 0.0, 0.0, 0.0), Position(0.0, 0.0, 0.0, 7.0)),
                Track(Position(5.0, 5.0, 5.0, 0.0), Position(5.0, 5.0, 5.0, 9.0))];
      SetVertex(ByTime(map[1 := Traj(-13, -1)]), Holding(s)).raised == Some(NoVertexCandidate)
  {
  }

  /** The time-sorted container [anti-muon (t=0), primary pion (t=1), decay
      electron of the anti-muon (t=2), neutron (t=3)]: the pion is the first
      object. Only when the pion's parent is the anti-muon does the scan go
      on, past the electron, to the neutron. */
  lemma FirstObjectSkipsMuonAndChildren()
    ensures
      var s := [Cluster(Position(0.0, 0.0, 0.0, 0.0)), Cluster(Position(0.0, 0.0, 0.0, 1.0)),
                Cluster(Position(0.0, 0.0, 0.0, 2.0)), Cluster(Position(0.0, 0.0, 0.0, 3.0))];
      var primaryPion := map[1 := Traj(-13, -1), 2 := Traj(211, -1), 3 := Traj(-11, 1), 4 := Traj(2112, -1)];
      var pionFromMuon := primaryPion[2 := Traj(211, 1)];
      && SetFirstObject(ByTime(primaryPion), Holding(s)).after.firstObject == Some(s[1])
      && SetFirstObject(ByTime(pionFromMuon), Holding(s)).after.firstObject == Some(s[3])
  {
    var s := [Cluster(Position(0.0, 0.0, 0.0, 0.0)), Cluster(Position(0.0, 0.0, 0.0, 1.0)),
              Cluster(Position(0.0, 0.0, 0.0, 2.0)), Cluster(Position(0.0, 0.0, 0.0, 3.0))];
    var primaryPion := map[1 := Traj(-13, -1), 2 := Traj(211, -1), 3 := Traj(-11, 1), 4 := Traj(2112, -1)];
    var pionFromMuon := primaryPion[2 := Traj(211, 1)];
    assert SkippedAsFirstObject(ByTime(primaryPion), s[0]);
    assert !SkippedAsFirstObject(ByTime(primaryPion), s[1]);
    assert SkippedAsFirstObject(ByTime(pionFromMuon), s[0]);
    assert SkippedAsFirstObject(ByTime(pionFromMuon), s[1]);
    assert SkippedAsFirstObject(ByTime(pionFromMuon), s[2]);
    assert !SkippedAsFirstObject(ByTime(pionFromMuon), s[3]);
  }

  /** A muon (code +13) whose parent is not a muon is not skipped. */
  lemma MuonWithoutMuonParentIsSelected()
    ensures
      var s := [Cluster(Position(0.0, 0.0, 0.0, 0.0))];
      SetFirstObject(ByTime(map[1 := Traj(13, -1)]), Holding(s)).after.firstObject == Some(s[0])
  {
  }

  /** When every object is an anti-muon or a direct child of one, the search
      raises. */
  lemma NoFirstObjectAmongMuonFamily()
    ensures
      var s := [Cluster(Position(0.0, 0.0, 0.0, 0.0)), Cluster(Position(0.0, 0.0, 0.0, 2.0))];
      SetFirstObject(ByTime(map[1 := Traj(-13, -1), 3 := Traj(-11, 1)]), Holding(s)).raised
        == Some(NoFirstObjectCandidate)
  {
  }

  /** Only the immediate parent is examined: the photon whose parent is the
      anti-muon's decay electron is selected. */
  lemma MuonGrandchildIsSelected()
    ensures
      var s := [Cluster(Position(0.0, 0.0, 0.0, 0.0)), Cluster(Position(0.0, 0.0, 0.0, 1.0)),
                Cluster(Position(0.0, 0.0, 0.0, 2.0))];
      var step := SetFirstObject(ByTime(map[1 := Traj(-13, -1), 2 := Traj(-11, 1), 3 := Traj(22, 2)]), Holding(s));
      step.raised == None && step.after.firstObject == Some(s[2])
  {
  }
}
