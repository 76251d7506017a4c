/** True-level counting: how many primary anti-muons and primary pions the
    ground-truth trajectories of an event contain. */
module TrueCounts {
  import opened Events

  predicate IsPrimaryAntiMuon(t: Traj)
  {
    t.parentId == PrimaryParent && t.pdg == AntiMuonPdg
  }

  /** A primary charged pion of either sign, or a primary neutral pion. The
      neutral-pion test compares the code itself, not its absolute value. */
  predicate IsPrimaryPion(t: Traj)
  {
    t.parentId == PrimaryParent && (Abs(t.pdg) == ChargedPionPdg || t.pdg == NeutralPionPdg)
  }

  /** Reference definition: the identifiers of the trajectories satisfying `p`. */
  function MatchingIds(trajs: map<int, Traj>, p: Traj -> bool): set<int>
  {
    set k | k in trajs && p(trajs[k])
  }

  function PrimaryAntiMuonIds(trajs: map<int, Traj>): set<int>
  {
    MatchingIds(trajs, IsPrimaryAntiMuon)
  }

  function PrimaryPionIds(trajs: map<int, Traj>): set<int>
  {
    MatchingIds(trajs, IsPrimaryPion)
  }

  /** The counting loop of both true-level counters: walk the trajectory map
      once, in its iteration order, and count the records satisfying `p`. */
  method CountMatching(trajs: map<int, Traj>, order: seq<int>, p: Traj -> bool) returns (n: nat)
    requires Enumerates(order, trajs)
    ensures n == |MatchingIds(trajs, p)|
  {
    n := 0;
    ghost var counted: set<int> := {};
    var i := 0;
    while i < |order|
      invariant 0 <= i <= |order|
      invariant n == |counted|
      invariant forall k :: k in counted ==> k in trajs && p(trajs[k]) && k in order[..i]
      invariant forall j :: 0 <= j < i ==> order[j] in trajs && (order[j] in counted <==> p(trajs[order[j]]))
    {
      var k := order[i];
      assert k !in counted;
      if p(trajs[k]) {
        counted := counted + {k};
        n := n + 1;
      }
      i := i + 1;
    }
    forall k | k in MatchingIds(trajs, p) ensures k in counted {
      var j :| 0 <= j < |order| && order[j] == k;
    }
    forall k | k in counted ensures k in MatchingIds(trajs, p) {
    }
    assert counted == MatchingIds(trajs, p);
  }

  /** The number of primary anti-muon trajectories of the event. */
  method NumberOfPrimaryAntiMuonTrajectories(trajs: map<int, Traj>, order: seq<int>) returns (n: nat)
    requires Enumerates(order, trajs)
    ensures n == |PrimaryAntiMuonIds(trajs)|
  {
    n := CountMatching(trajs, order, IsPrimaryAntiMuon);
  }

  /** The number of primary pion trajectories of the event. */
  method NumberOfPrimaryPionTrajectories(trajs: map<int, Traj>, order: seq<int>) returns (n: nat)
    requires Enumerates(order, trajs)
    ensures n == |PrimaryPionIds(trajs)|
  {
    n := CountMatching(trajs, order, IsPrimaryPion);
  }

  /** A trajectory whose parent is not the primary marker never contributes
      to either count, whatever its particle code: the counts with it are the
      counts without it. */
  lemma NonPrimaryNeverCounts(trajs: map<int, Traj>, k: int, t: Traj)
    requires t.parentId != PrimaryParent
    ensures |PrimaryAntiMuonIds(trajs[k := t])| == |PrimaryAntiMuonIds(trajs - {k})|
    ensures |PrimaryPionIds(trajs[k := t])| == |PrimaryPionIds(trajs - {k})|
  {
    assert PrimaryAntiMuonIds(trajs[k := t]) == PrimaryAntiMuonIds(trajs - {k});
    assert PrimaryPionIds(trajs[k := t]) == PrimaryPionIds(trajs - {k});
  }

  /** A primary record counts as exactly one of the two kinds at most: an
      anti-muon is never a pion. */
  lemma CountedKindsAreDisjoint(trajs: map<int, Traj>)
    ensures PrimaryAntiMuonIds(trajs) !! PrimaryPionIds(trajs)
  {
    forall k | k in PrimaryAntiMuonIds(trajs) ensures k !in PrimaryPionIds(trajs) {
      assert IsPrimaryAntiMuon(trajs[k]);
      assert !IsPrimaryPion(trajs[k]);
    }
  }

  /** One primary anti-muon, one primary positive pion and a non-primary
      anti-muon: one of each is counted. */
  lemma ExampleTrueCounts()
    ensures
      var trajs := map[1 := Traj(-13, -1), 2 := Traj(211, -1), 3 := Traj(-13, 1)];
      |PrimaryAntiMuonIds(trajs)| == 1 && |PrimaryPionIds(trajs)| == 1
  {
    var trajs := map[1 := Traj(-13, -1), 2 := Traj(211, -1), 3 := Traj(-13, 1)];
    assert PrimaryAntiMuonIds(trajs) == {1};
    assert PrimaryPionIds(trajs) == {2};
  }
}
