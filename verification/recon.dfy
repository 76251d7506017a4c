/** Reconstructed objects of one event: tracks, clusters and anything else a
    reconstruction container may hold, with the time key used for ordering
    and the split into track and cluster lists. */
module Recon {

  /** A four-vector (x, y, z, t). Coordinates are only compared, never
      computed with, so exact reals stand in for the source's doubles. */
  datatype Position = Position(x: real, y: real, z: real, t: real)

  /** The value of a default-constructed four-vector. */
  const Origin := Position(0.0, 0.0, 0.0, 0.0)

  /** The vertex heuristic's notion of "not found": all three spatial
      components are exactly zero; the time component is ignored. */
  predicate AtSpatialOrigin(p: Position)
  {
    p.x == 0.0 && p.y == 0.0 && p.z == 0.0
  }

  /** A reconstructed object. A track carries its own position and the
      position of its front (first) state; a cluster carries a position;
      `OtherObject` is any object that is neither (a shower, a vertex, ...). */
  datatype ReconObject =
    | Track(position: Position, front: Position)
    | Cluster(position: Position)
    | OtherObject

  /** Objects for which the time comparator reads a time. */
  predicate HasTime(o: ReconObject)
  {
    o.Track? || o.Cluster?
  }

  /** The sort key: the time component of the track's or cluster's position. */
  function Time(o: ReconObject): real
    requires HasTime(o)
  {
    o.position.t
  }

  predicate AllTimed(s: seq<ReconObject>)
  {
    forall i :: 0 <= i < |s| ==> HasTime(s[i])
  }

  /** The tracks of `s`, in order. */
  function TracksOf(s: seq<ReconObject>): (r: seq<ReconObject>)
    ensures |r| <= |s|
    ensures forall o :: o in r <==> o in s && o.Track?
  {
    if |s| == 0 then []
    else if s[0].Track? then [s[0]] + TracksOf(s[1..])
    else TracksOf(s[1..])
  }

  /** The clusters of `s`, in order. */
  function ClustersOf(s: seq<ReconObject>): (r: seq<ReconObject>)
    ensures |r| <= |s|
    ensures forall o :: o in r <==> o in s && o.Cluster?
  {
    if |s| == 0 then []
    else if s[0].Cluster? then [s[0]] + ClustersOf(s[1..])
    else ClustersOf(s[1..])
  }

  /** Splitting is compositional: the tracks of a concatenation are the
      tracks of the first part followed by those of the second. */
  lemma {:induction false} TracksOfAppend(a: seq<ReconObject>, b: seq<ReconObject>)
    ensures TracksOf(a + b) == TracksOf(a) + TracksOf(b)
  {
    if |a| > 0 {
      assert (a + b)[1..] == a[1..] + b;
      TracksOfAppend(a[1..], b);
    } else {
      assert a + b == b;
    }
  }

  lemma {:induction false} ClustersOfAppend(a: seq<ReconObject>, b: seq<ReconObject>)
    ensures ClustersOf(a + b) == ClustersOf(a) + ClustersOf(b)
  {
    if |a| > 0 {
      assert (a + b)[1..] == a[1..] + b;
      ClustersOfAppend(a[1..], b);
    } else {
      assert a + b == b;
    }
  }

  /** No object is lost or duplicated by the split: tracks and clusters
      together are a permutation of the timed objects, and when every object
      is a track or a cluster they account for all of `s`. */
  lemma {:induction false} SplitIsPartition(s: seq<ReconObject>)
    ensures multiset(TracksOf(s)) + multiset(ClustersOf(s)) <= multiset(s)
    ensures AllTimed(s) ==> multiset(TracksOf(s)) + multiset(ClustersOf(s)) == multiset(s)
  {
    if |s| > 0 {
      SplitIsPartition(s[1..]);
      assert s == [s[0]] + s[1..];
      assert AllTimed(s) ==> AllTimed(s[1..]) by {
        if AllTimed(s) {
          forall i | 0 <= i < |s[1..]| ensures HasTime(s[1..][i]) {
            assert s[1..][i] == s[i + 1];
          }
        }
      }
    }
  }
}
