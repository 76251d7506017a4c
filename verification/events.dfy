/** The per-event context that the source reads from its global event
    pointer, made explicit: the ground-truth trajectories, the named object
    containers, and the main-trajectory resolution tool. */
module Events {
  import opened Recon

  /** Particle-type codes and identifiers the analysis compares against. */
  const AntiMuonPdg: int := -13
  const MuonPdg: int := 13
  const ChargedPionPdg: int := 211
  const NeutralPionPdg: int := 111
  /** Parent identifier of a primary trajectory. */
  const PrimaryParent: int := -1
  /** Value every lookup yields when nothing matches. */
  const Unresolved: int := 0

  /** A ground-truth trajectory record. */
  datatype Traj = Traj(pdg: int, parentId: int)

  /** One event. `containers` maps a container name to its objects (a name
      that is absent resolves to a null container); `mainTrajectory` is the
      external tool that names the trajectory that produced an object. */
  datatype Event = Event(
    trajectories: map<int, Traj>,
    containers: map<string, seq<ReconObject>>,
    mainTrajectory: ReconObject -> int)

  /** The errors the analyser raises, each ending that event's processing. */
  datatype Error = EmptyObjectContainers | NoVertexCandidate | NoFirstObjectCandidate

  function Abs(n: int): nat
  {
    if n < 0 then -n else n
  }

  /** `order` is an iteration of the trajectory map: every key exactly once. */
  predicate Enumerates(order: seq<int>, trajs: map<int, Traj>)
  {
    && (forall k :: k in order ==> k in trajs)
    && (forall k :: k in trajs ==> k in order)
    && (forall i, j :: 0 <= i < j < |order| ==> order[i] != order[j])
  }
}
