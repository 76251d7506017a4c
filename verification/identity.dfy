/** Ground-truth identity of reconstructed objects: the particle code and the
    parent identifier of an object's main trajectory, and the particle code
    of a trajectory named by identifier. Every lookup is total and yields
    `Unresolved` (0) when nothing matches. */
module Identity {
  import opened Wrappers
  import opened Recon
  import opened Events

  /** The trajectory record an object resolves to: only tracks and clusters
      are resolved, through the main-trajectory tool, and only when the
      event holds a trajectory under that identifier. */
  function MainTrajectoryOf(ev: Event, o: ReconObject): (r: Option<Traj>)
    ensures r.Some? ==> r.value in ev.trajectories.Values
    ensures o.OtherObject? ==> r.None?
  {
    if HasTime(o) && ev.mainTrajectory(o) in ev.trajectories then
      Some(ev.trajectories[ev.mainTrajectory(o)])
    else
      None
  }

  /** Particle code of the object's main trajectory, 0 when unresolved. */
  function GetPdg(ev: Event, o: ReconObject): (pdg: int)
    ensures pdg != Unresolved ==> MainTrajectoryOf(ev, o).Some?
  {
    match MainTrajectoryOf(ev, o)
    case Some(t) => t.pdg
    case None => Unresolved
  }

  /** Parent identifier of the object's main trajectory, 0 when unresolved
      (distinct from the primary marker -1). */
  function GetParentID(ev: Event, o: ReconObject): (parent: int)
    ensures parent != Unresolved ==> MainTrajectoryOf(ev, o).Some?
  {
    match MainTrajectoryOf(ev, o)
    case Some(t) => t.parentId
    case None => Unresolved
  }

  /** Particle code of the trajectory stored under `id`, 0 when absent. */
  function GetParentPdg(ev: Event, id: int): (pdg: int)
    ensures pdg != Unresolved ==> id in ev.trajectories
  {
    if id in ev.trajectories then ev.trajectories[id].pdg else Unresolved
  }

  /** The search loop shared by the object lookups: walk the whole
      trajectory map and keep the field of every record whose identifier is
      `key` (the last match wins, and with unique keys there is at most one). */
  method ScanTrajectories(trajs: map<int, Traj>, order: seq<int>, key: int, field: Traj -> int)
    returns (r: int)
    requires Enumerates(order, trajs)
    ensures key in trajs ==> r == field(trajs[key])
    ensures key !in trajs ==> r == Unresolved
  {
    r := Unresolved;
    var i := 0;
    while i < |order|
      invariant 0 <= i <= |order|
      invariant key in order[..i] ==> key in trajs && r == field(trajs[key])
      invariant key !in order[..i] ==> r == Unresolved
    {
      assert order[..i + 1] == order[..i] + [order[i]];
      if order[i] == key {
        r := field(trajs[order[i]]);
      }
      i := i + 1;
    }
    assert order[..i] == order;
  }

  /** The particle-code lookup as the source performs it: a track and a
      cluster each trigger a full scan for their main trajectory; any other
      object keeps the initial 0. */
  method ScanPdg(ev: Event, order: seq<int>, o: ReconObject) returns (pdg: int)
    requires Enumerates(order, ev.trajectories)
    ensures HasTime(o) && ev.mainTrajectory(o) in ev.trajectories ==>
              pdg == ev.trajectories[ev.mainTrajectory(o)].pdg
    ensures !(HasTime(o) && ev.mainTrajectory(o) in ev.trajectories) ==> pdg == Unresolved
    ensures pdg == GetPdg(ev, o)
  {
    pdg := Unresolved;
    if o.Track? {
      pdg := ScanTrajectories(ev.trajectories, order, ev.mainTrajectory(o), (t: Traj) => t.pdg);
    }
    if o.Cluster? {
      pdg := ScanTrajectories(ev.trajectories, order, ev.mainTrajectory(o), (t: Traj) => t.pdg);
    }
  }

  /** The parent-identifier lookup, same shape as `ScanPdg`. */
  method ScanParentID(ev: Event, order: seq<int>, o: ReconObject) returns (parent: int)
    requires Enumerates(order, ev.trajectories)
    ensures HasTime(o) && ev.mainTrajectory(o) in ev.trajectories ==>
              parent == ev.trajectories[ev.mainTrajectory(o)].parentId
    ensures !(HasTime(o) && ev.mainTrajectory(o) in ev.trajectories) ==> parent == Unresolved
    ensures parent == GetParentID(ev, o)
  {
    parent := Unresolved;
    if o.Track? {
      parent := ScanTrajectories(ev.trajectories, order, ev.mainTrajectory(o), (t: Traj) => t.parentId);
    }
    if o.Cluster? {
      parent := ScanTrajectories(ev.trajectories, order, ev.mainTrajectory(o), (t: Traj) => t.parentId);
    }
  }

  /** The parent-code lookup as the source performs it: scan the map and
      stop at the first record whose identifier is `id`. */
  method ScanParentPdg(ev: Event, order: seq<int>, id: int) returns (pdg: int)
    requires Enumerates(order, ev.trajectories)
    ensures id in ev.trajectories ==> pdg == ev.trajectories[id].pdg
    ensures id !in ev.trajectories ==> pdg == Unresolved
    ensures pdg == GetParentPdg(ev, id)
  {
    pdg := Unresolved;
    var i := 0;
    while i < |order|
      invariant 0 <= i <= |order|
      invariant id !in order[..i]
      invariant pdg == Unresolved
    {
      assert order[..i + 1] == order[..i] + [order[i]];
      if order[i] == id {
        pdg := ev.trajectories[order[i]].pdg;
        return;
      }
      i := i + 1;
    }
    assert order[..i] == order;
  }
}
