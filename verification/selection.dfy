/** The selection scans of the analyser over its object container: the
    first-object search, the vertex-track search, and the count of primary
    anti-muon tracks. */
module Selection {
  import opened Wrappers
  import opened Recon
  import opened Events
  import opened Identity
  import Ordering

  /** First-match scan in container order: the index of the first object
      satisfying `p`, None when there is none. */
  function FirstWhere(s: seq<ReconObject>, p: ReconObject -> bool): (r: Option<nat>)
    ensures r.Some? ==> r.value < |s| && p(s[r.value]) && forall j :: 0 <= j < r.value ==> !p(s[j])
    ensures r.None? ==> forall j :: 0 <= j < |s| ==> !p(s[j])
  {
    if |s| == 0 then None
    else if p(s[0]) then Some(0)
    else
      match FirstWhere(s[1..], p)
      case None => None
      case Some(k) => Some(k + 1)
  }

  /** The first-object scan passes over anti-muons, unresolved objects, and
      objects whose parent has a muon code of either sign. A muon (code +13)
      whose parent is not a muon is not passed over. */
  predicate SkippedAsFirstObject(ev: Event, o: ReconObject)
  {
    || GetPdg(ev, o) == AntiMuonPdg
    || GetPdg(ev, o) == Unresolved
    || Abs(GetParentPdg(ev, GetParentID(ev, o))) == MuonPdg
  }

  /** The position of the first object of `s` that is not skipped. */
  function FindFirstObject(ev: Event, s: seq<ReconObject>): (r: Option<nat>)
    ensures r.Some? ==>
              && r.value < |s|
              && !SkippedAsFirstObject(ev, s[r.value])
              && forall j :: 0 <= j < r.value ==> SkippedAsFirstObject(ev, s[j])
    ensures r.None? ==> forall j :: 0 <= j < |s| ==> SkippedAsFirstObject(ev, s[j])
  {
    FirstWhere(s, o => !SkippedAsFirstObject(ev, o))
  }

  /** The vertex scan stops at a track whose main trajectory is an
      anti-muon; its parent is not examined. */
  predicate IsVertexCandidate(ev: Event, o: ReconObject)
  {
    o.Track? && GetPdg(ev, o) == AntiMuonPdg
  }

  /** The position of the first vertex candidate of `s`. */
  function FindVertexTrack(ev: Event, s: seq<ReconObject>): (r: Option<nat>)
    ensures r.Some? ==>
              && r.value < |s|
              && s[r.value].Track? && GetPdg(ev, s[r.value]) == AntiMuonPdg
              && forall j :: 0 <= j < r.value ==> !IsVertexCandidate(ev, s[j])
    ensures r.None? ==> forall j :: 0 <= j < |s| ==> !IsVertexCandidate(ev, s[j])
  {
    FirstWhere(s, o => IsVertexCandidate(ev, o))
  }

  /** A track resolved to a primary anti-muon. */
  predicate IsPrimaryAntiMuonTrack(ev: Event, o: ReconObject)
  {
    o.Track? && GetPdg(ev, o) == AntiMuonPdg && GetParentID(ev, o) == PrimaryParent
  }

  /** The reco-level anti-muon count of a container. */
  function CountPrimaryAntiMuonTracks(ev: Event, s: seq<ReconObject>): nat
  {
    if |s| == 0 then 0
    else (if IsPrimaryAntiMuonTrack(ev, s[0]) then 1 else 0) + CountPrimaryAntiMuonTracks(ev, s[1..])
  }

  /** The positions of the container that hold a primary anti-muon track: an
      independent description of what the reco-level count counts. */
  ghost function PrimaryAntiMuonTrackIndices(ev: Event, s: seq<ReconObject>): set<nat>
  {
    set i: nat | i < |s| && IsPrimaryAntiMuonTrack(ev, s[i])
  }

  /** The reco-level count is the number of positions holding a primary
      anti-muon track. */
  lemma {:induction false} CountIsCardinality(ev: Event, s: seq<ReconObject>)
    ensures CountPrimaryAntiMuonTracks(ev, s) == |PrimaryAntiMuonTrackIndices(ev, s)|
    decreases |s|
  {
    if |s| == 0 {
      assert PrimaryAntiMuonTrackIndices(ev, s) == {};
    } else {
      var init, last := s[..|s| - 1], s[|s| - 1];
      CountIsCardinality(ev, init);
      assert s == init + [last];
      CountAppend(ev, init, [last]);
      assert [last][1..] == [];
      var before, after := PrimaryAntiMuonTrackIndices(ev, init), PrimaryAntiMuonTrackIndices(ev, s);
      assert |s| - 1 !in before;
      if IsPrimaryAntiMuonTrack(ev, last) {
        assert after == before + {|s| - 1};
      } else {
        assert after == before;
      }
    }
  }

  /** Only tracks are counted, so the count never exceeds the number of
      tracks; it is zero exactly when no object is a primary anti-muon track. */
  lemma {:induction false} CountBounds(ev: Event, s: seq<ReconObject>)
    ensures CountPrimaryAntiMuonTracks(ev, s) <= |TracksOf(s)|
    ensures CountPrimaryAntiMuonTracks(ev, s) == 0 <==>
              forall i :: 0 <= i < |s| ==> !IsPrimaryAntiMuonTrack(ev, s[i])
    decreases |s|
  {
    if |s| > 0 {
      CountBounds(ev, s[1..]);
      assert forall i :: 0 < i < |s| ==> s[i] == s[1..][i - 1];
    }
  }

  lemma {:induction false} CountAppend(ev: Event, a: seq<ReconObject>, b: seq<ReconObject>)
    ensures CountPrimaryAntiMuonTracks(ev, a + b)
            == CountPrimaryAntiMuonTracks(ev, a) + CountPrimaryAntiMuonTracks(ev, b)
    decreases |a|
  {
    if |a| == 0 {
      assert a + b == b;
    } else {
      assert (a + b)[0] == a[0];
      assert (a + b)[1..] == a[1..] + b;
      CountAppend(ev, a[1..], b);
    }
  }

  /** Clusters never count: counting the container counts only its tracks. */
  lemma {:induction false} ClustersNeverCount(ev: Event, s: seq<ReconObject>)
    ensures CountPrimaryAntiMuonTracks(ev, s) == CountPrimaryAntiMuonTracks(ev, TracksOf(s))
    decreases |s|
  {
    if |s| > 0 {
      ClustersNeverCount(ev, s[1..]);
      if s[0].Track? {
        assert TracksOf(s) == [s[0]] + TracksOf(s[1..]);
        CountAppend(ev, [s[0]], TracksOf(s[1..]));
      }
    }
  }

  /** Taking one object out of a container lowers the count by that
      object's own contribution. */
  lemma CountRemoveAt(ev: Event, b: seq<ReconObject>, j: int)
    requires 0 <= j < |b|
    ensures CountPrimaryAntiMuonTracks(ev, b)
            == CountPrimaryAntiMuonTracks(ev, [b[j]]) + CountPrimaryAntiMuonTracks(ev, b[..j] + b[j + 1..])
  {
    assert b == b[..j] + ([b[j]] + b[j + 1..]);
    CountAppend(ev, b[..j], [b[j]] + b[j + 1..]);
    CountAppend(ev, [b[j]], b[j + 1..]);
    CountAppend(ev, b[..j], b[j + 1..]);
  }

  /** The count depends only on which objects the container holds, not on
      their order, so time-sorting the container does not change it. */
  lemma {:induction false} CountIgnoresOrder(ev: Event, a: seq<ReconObject>, b: seq<ReconObject>)
    requires multiset(a) == multiset(b)
    ensures CountPrimaryAntiMuonTracks(ev, a) == CountPrimaryAntiMuonTracks(ev, b)
    decreases |a|
  {
    assert |a| == |multiset(a)| == |multiset(b)| == |b|;
    if |a| > 0 {
      assert a[0] in multiset(b);
      var j :| 0 <= j < |b| && b[j] == a[0];
      var b' := b[..j] + b[j + 1..];
      var a' := a[..0] + a[1..];
      Ordering.RemoveAt(b, j, b');
      Ordering.RemoveAt(a, 0, a');
      CountIgnoresOrder(ev, a', b');
      CountRemoveAt(ev, b, j);
      CountRemoveAt(ev, a, 0);
    }
  }
}
