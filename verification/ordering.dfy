/** Time ordering of the object container. The source hands the container
    to an unstable library sort with the comparator "earlier time first";
    the model sorts by insertion and promises only what that library call
    promises: a permutation whose time keys never decrease. */
module Ordering {
  import opened Recon

  predicate SortedByTime(s: seq<ReconObject>)
    requires AllTimed(s)
  {
    forall i, j :: 0 <= i < j < |s| ==> Time(s[i]) <= Time(s[j])
  }

  /** The comparator: `a` goes before `b` when its time is strictly smaller. */
  predicate TimeLess(a: ReconObject, b: ReconObject)
    requires HasTime(a) && HasTime(b)
  {
    Time(a) < Time(b)
  }

  /** Putting an object in front of a time-sorted sequence whose head is not
      earlier keeps it sorted. */
  lemma ConsKeepsSorted(x: ReconObject, r: seq<ReconObject>)
    requires HasTime(x) && AllTimed(r) && SortedByTime(r)
    requires |r| > 0 ==> Time(x) <= Time(r[0])
    ensures AllTimed([x] + r) && SortedByTime([x] + r)
  {
    var t := [x] + r;
    assert forall i :: 0 < i < |t| ==> t[i] == r[i - 1];
    forall i, j | 0 <= i < j < |t| ensures Time(t[i]) <= Time(t[j]) {
      if i == 0 {
        assert Time(r[0]) <= Time(r[j - 1]);
      }
    }
  }

  /** Place `o` into `s` before the first element it is not later than. */
  function Insert(o: ReconObject, s: seq<ReconObject>): (r: seq<ReconObject>)
    requires HasTime(o) && AllTimed(s) && SortedByTime(s)
    ensures |r| == |s| + 1
    ensures multiset(r) == multiset(s) + multiset{o}
    ensures AllTimed(r) && SortedByTime(r)
    ensures r[0] == o || (|s| > 0 && r[0] == s[0])
  {
    if |s| == 0 then
      [o]
    else if !TimeLess(s[0], o) then
      ConsKeepsSorted(o, s);
      [o] + s
    else
      assert AllTimed(s[1..]) && SortedByTime(s[1..]);
      var rest := Insert(o, s[1..]);
      assert s == [s[0]] + s[1..];
      ConsKeepsSorted(s[0], rest);
      [s[0]] + rest
  }

  /** The sort of the analyser's container: a permutation with
      non-decreasing time keys. */
  function SortObjectsByTime(s: seq<ReconObject>): (r: seq<ReconObject>)
    requires AllTimed(s)
    ensures multiset(r) == multiset(s)
    ensures AllTimed(r) && SortedByTime(r)
  {
    if |s| == 0 then
      []
    else
      assert s == [s[0]] + s[1..];
      Insert(s[0], SortObjectsByTime(s[1..]))
  }

  /** Removing the element at `j`: the indices before `j` stay, the ones
      after shift down by one, and exactly that element leaves the multiset. */
  lemma RemoveAt(s: seq<ReconObject>, j: int, t: seq<ReconObject>)
    requires 0 <= j < |s| && t == s[..j] + s[j + 1..]
    ensures |t| == |s| - 1
    ensures forall i :: 0 <= i < j ==> t[i] == s[i]
    ensures forall i :: j <= i < |t| ==> t[i] == s[i + 1]
    ensures multiset(t) == multiset(s) - multiset{s[j]}
  {
    assert s == s[..j] + [s[j]] + s[j + 1..];
  }

  /** Removing one element keeps a sequence time-sorted. */
  lemma RemoveKeepsSorted(s: seq<ReconObject>, j: int, t: seq<ReconObject>)
    requires AllTimed(s) && SortedByTime(s) && 0 <= j < |s| && |t| == |s| - 1
    requires forall i :: 0 <= i < j ==> t[i] == s[i]
    requires forall i :: j <= i < |t| ==> t[i] == s[i + 1]
    ensures AllTimed(t) && SortedByTime(t)
  {
    assert AllTimed(t) by {
      forall i | 0 <= i < |t| ensures HasTime(t[i]) {
        if i >= j {
          assert t[i] == s[i + 1];
        }
      }
    }
    forall i, k | 0 <= i < k < |t| ensures Time(t[i]) <= Time(t[k]) {
      var i' := if i < j then i else i + 1;
      var k' := if k < j then k else k + 1;
      assert t[i] == s[i'] && t[k] == s[k'];
    }
  }

  /** The first elements of two time-sorted arrangements of the same objects
      have the same time: each is a member of the other arrangement. */
  lemma HeadTimesAgree(a: seq<ReconObject>, b: seq<ReconObject>)
    requires AllTimed(a) && AllTimed(b) && SortedByTime(a) && SortedByTime(b)
    requires multiset(a) == multiset(b) && |a| > 0 && |b| > 0
    ensures Time(a[0]) == Time(b[0])
  {
    assert a[0] in multiset(b);
    var j :| 0 <= j < |b| && b[j] == a[0];
    assert b[0] in multiset(a);
    var k :| 0 <= k < |a| && a[k] == b[0];
    assert Time(b[0]) <= Time(b[j]);
    assert Time(a[0]) <= Time(a[k]);
  }

  /** Sorting does not fix an order among equal times, but it fixes the
      time at every position: two time-sorted arrangements of the same
      objects agree on the time key position by position. */
  lemma {:induction false} SortedPermutationsAgreeOnTimes(a: seq<ReconObject>, b: seq<ReconObject>)
    requires AllTimed(a) && AllTimed(b)
    requires SortedByTime(a) && SortedByTime(b)
    requires multiset(a) == multiset(b)
    ensures |a| == |b|
    ensures forall i :: 0 <= i < |a| ==> Time(a[i]) == Time(b[i])
    decreases |a|
  {
    assert |a| == |multiset(a)| == |multiset(b)| == |b|;
    if |a| > 0 {
      HeadTimesAgree(a, b);
      assert a[0] in multiset(b);
      var j :| 0 <= j < |b| && b[j] == a[0];
      var b' := b[..j] + b[j + 1..];
      RemoveAt(b, j, b');
      RemoveKeepsSorted(b, j, b');
      RemoveAt(a, 0, a[..0] + a[1..]);
      assert a[..0] + a[1..] == a[1..];
      RemoveKeepsSorted(a, 0, a[1..]);
      SortedPermutationsAgreeOnTimes(a[1..], b');
      TimesAfterRemoval(a, b, j, b');
    }
  }

  /** The inductive step of the lemma above: once the tails agree with `b`
      minus its element at `j`, and that element has the time of `b`'s head,
      the whole sequences agree. */
  lemma TimesAfterRemoval(a: seq<ReconObject>, b: seq<ReconObject>, j: int, b': seq<ReconObject>)
    requires AllTimed(a) && AllTimed(b) && AllTimed(b') && SortedByTime(b)
    requires |a| == |b| && 0 <= j < |b| && |b'| == |b| - 1
    requires forall i :: 0 <= i < j ==> b'[i] == b[i]
    requires forall i :: j <= i < |b'| ==> b'[i] == b[i + 1]
    requires forall i :: 0 <= i < |b'| ==> Time(a[1..][i]) == Time(b'[i])
    requires Time(a[0]) == Time(b[0]) == Time(b[j])
    ensures forall i :: 0 <= i < |a| ==> Time(a[i]) == Time(b[i])
  {
    forall i | 0 < i < |a| ensures Time(a[i]) == Time(b[i]) {
      assert a[1..][i - 1] == a[i];
      if i - 1 < j {
        assert Time(b[0]) <= Time(b[i - 1]) <= Time(b[i]) <= Time(b[j]);
      }
    }
  }

  /** Sorting an already time-sorted container again changes no time key. */
  lemma {:induction false} ResortingKeepsTimes(s: seq<ReconObject>)
    requires AllTimed(s) && SortedByTime(s)
    ensures var r := SortObjectsByTime(s);
            |r| == |s| && forall i :: 0 <= i < |s| ==> Time(r[i]) == Time(s[i])
  {
    SortedPermutationsAgreeOnTimes(SortObjectsByTime(s), s);
  }
}
