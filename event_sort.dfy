/**
 * Sorting tracking events by timestamp, as the tracking route does with
 * `events.sort((a, b) => time(a) - time(b))`. `Array.prototype.sort` is stable, so its
 * result is the stable sort by `TimeKey`, specified here as an insertion sort.
 */
module EventSort {
  import opened Records

  predicate SortedByTime(s: seq<TrackingEvent>)
  {
    forall i, j :: 0 <= i < j < |s| ==> TimeKey(s[i]) <= TimeKey(s[j])
  }

  /** Puts `e` after every element of `s` whose time is not later than its own. */
  function Insert(s: seq<TrackingEvent>, e: TrackingEvent): (r: seq<TrackingEvent>)
    ensures |r| == |s| + 1
  {
    if s == [] || TimeKey(s[|s| - 1]) <= TimeKey(e) then s + [e]
    else Insert(s[..|s| - 1], e) + [s[|s| - 1]]
  }

  /** The stable sort of `s` by timestamp. */
  function SortByTime(s: seq<TrackingEvent>): (r: seq<TrackingEvent>)
    ensures |r| == |s|
  {
    if s == [] then [] else Insert(SortByTime(s[..|s| - 1]), s[|s| - 1])
  }

  /** The events of `s` whose time is `t`, in their order in `s`. */
  function AtTime(s: seq<TrackingEvent>, t: int): seq<TrackingEvent>
  {
    if s == [] then []
    else AtTime(s[..|s| - 1], t) + (if TimeKey(s[|s| - 1]) == t then [s[|s| - 1]] else [])
  }

  lemma {:induction false} AtTimeAppend(s: seq<TrackingEvent>, u: seq<TrackingEvent>, t: int)
    ensures AtTime(s + u, t) == AtTime(s, t) + AtTime(u, t)
    decreases |u|
  {
    if u == [] {
      assert s + u == s;
    } else {
      var n := |u| - 1;
      assert (s + u)[..|s + u| - 1] == s + u[..n];
      AtTimeAppend(s, u[..n], t);
    }
  }

  lemma {:induction false} InsertPermutes(s: seq<TrackingEvent>, e: TrackingEvent)
    ensures multiset(Insert(s, e)) == multiset(s) + multiset{e}
  {
    if s != [] && TimeKey(s[|s| - 1]) > TimeKey(e) {
      var n := |s| - 1;
      InsertPermutes(s[..n], e);
      assert s == s[..n] + [s[n]];
    }
  }

  /** Appending an element no earlier than every element keeps the order. */
  lemma AppendKeepsSorted(r: seq<TrackingEvent>, x: TrackingEvent)
    requires SortedByTime(r)
    requires forall i :: 0 <= i < |r| ==> TimeKey(r[i]) <= TimeKey(x)
    ensures SortedByTime(r + [x])
  {
    var u := r + [x];
    forall i, j | 0 <= i < j < |u|
      ensures TimeKey(u[i]) <= TimeKey(u[j])
    {
      if j < |r| {
        assert u[i] == r[i] && u[j] == r[j];
      } else {
        assert u[i] == r[i] && u[j] == x;
      }
    }
  }

  lemma {:induction false} InsertKeepsSorted(s: seq<TrackingEvent>, e: TrackingEvent)
    requires SortedByTime(s)
    ensures SortedByTime(Insert(s, e))
  {
    if s != [] && TimeKey(s[|s| - 1]) > TimeKey(e) {
      var n := |s| - 1;
      var last := s[n];
      var prefix := s[..n];
      assert SortedByTime(prefix) by {
        forall i, j | 0 <= i < j < |prefix| ensures TimeKey(prefix[i]) <= TimeKey(prefix[j]) {
          assert prefix[i] == s[i] && prefix[j] == s[j];
        }
      }
      InsertKeepsSorted(prefix, e);
      InsertPermutes(prefix, e);
      var r := Insert(prefix, e);
      forall i | 0 <= i < |r|
        ensures TimeKey(r[i]) <= TimeKey(last)
      {
        assert r[i] in multiset(r);
        assert r[i] in multiset(prefix) || r[i] == e;
        if r[i] != e {
          var k :| 0 <= k < |prefix| && prefix[k] == r[i];
          assert s[k] == r[i];
        }
      }
      AppendKeepsSorted(r, last);
    }
  }

  lemma AtTimeSingle(x: TrackingEvent, t: int)
    ensures AtTime([x], t) == if TimeKey(x) == t then [x] else []
  {
    assert [x][..0] == [];
  }

  /** Inserting `e` keeps the order of the events at every time. */
  lemma {:induction false} InsertAtTime(s: seq<TrackingEvent>, e: TrackingEvent, t: int)
    ensures AtTime(Insert(s, e), t) == AtTime(s, t) + (if TimeKey(e) == t then [e] else [])
  {
    AtTimeSingle(e, t);
    if s == [] || TimeKey(s[|s| - 1]) <= TimeKey(e) {
      AtTimeAppend(s, [e], t);
    } else {
      var n := |s| - 1;
      var last := s[n];
      assert Insert(s, e) == Insert(s[..n], e) + [last];
      assert s[..n] + [last] == s;
      InsertAtTime(s[..n], e, t);
      AtTimeAppend(Insert(s[..n], e), [last], t);
      AtTimeAppend(s[..n], [last], t);
      AtTimeSingle(last, t);
      if TimeKey(e) == t {
        assert AtTime([last], t) == [];
      } else {
        assert AtTime([e], t) == [];
      }
    }
  }

  /** The result is sorted by timestamp and has exactly the input's events. */
  lemma {:induction false} SortByTimeCorrect(s: seq<TrackingEvent>)
    ensures SortedByTime(SortByTime(s))
    ensures multiset(SortByTime(s)) == multiset(s)
    ensures |SortByTime(s)| == |s|
  {
    if s != [] {
      var n := |s| - 1;
      var init, last := s[..n], s[n];
      var sortedInit := SortByTime(init);
      assert SortByTime(s) == Insert(sortedInit, last);
      SortByTimeCorrect(init);
      InsertKeepsSorted(sortedInit, last);
      InsertPermutes(sortedInit, last);
      assert s == init + [last];
      assert multiset(s) == multiset(init) + multiset{last};
    }
  }

  /** Stability: events with equal timestamps keep their relative order. */
  lemma {:induction false} SortByTimeStable(s: seq<TrackingEvent>, t: int)
    ensures AtTime(SortByTime(s), t) == AtTime(s, t)
  {
    if s != [] {
      var n := |s| - 1;
      SortByTimeStable(s[..n], t);
      InsertAtTime(SortByTime(s[..n]), s[n], t);
    }
  }

  /** A list that is already in timestamp order is left as it is. */
  lemma {:induction false} SortByTimeOfSorted(s: seq<TrackingEvent>)
    requires SortedByTime(s)
    ensures SortByTime(s) == s
  {
    if s != [] {
      var n := |s| - 1;
      var prefix := s[..n];
      assert SortedByTime(prefix) by {
        forall i, j | 0 <= i < j < |prefix| ensures TimeKey(prefix[i]) <= TimeKey(prefix[j]) {
          assert prefix[i] == s[i] && prefix[j] == s[j];
        }
      }
      SortByTimeOfSorted(prefix);
      assert n == 0 || TimeKey(prefix[n - 1]) <= TimeKey(s[n]);
      assert prefix + [s[n]] == s;
    }
  }

  /** Where `Insert` places `e`: after the last element not later than it. */
  lemma {:induction false} InsertAt(s: seq<TrackingEvent>, e: TrackingEvent, j: nat)
    requires j <= |s|
    requires forall k :: j <= k < |s| ==> TimeKey(s[k]) > TimeKey(e)
    requires j == 0 || TimeKey(s[j - 1]) <= TimeKey(e)
    ensures Insert(s, e) == s[..j] + [e] + s[j..]
    decreases |s| - j
  {
    if j == |s| {
      assert s[..j] == s && s[j..] == [];
    } else {
      var n := |s| - 1;
      InsertAt(s[..n], e, j);
      assert s[..n][..j] == s[..j];
      assert s[..n][j..] + [s[n]] == s[j..];
    }
  }

  /** One insertion step: moves `a[i]` left past the earlier elements that are later in time. */
  method InsertInPlace(a: array<TrackingEvent>, i: nat)
    requires i < a.Length
    modifies a
    ensures a[..i + 1] == Insert(old(a[..i]), old(a[i]))
    ensures a[i + 1..] == old(a[i + 1..])
  {
    ghost var sorted := a[..i];
    var x := a[i];
    var j := i;
    while j > 0 && TimeKey(a[j - 1]) > TimeKey(x)
      invariant 0 <= j <= i
      invariant a[j] == x
      invariant forall k :: 0 <= k < j ==> a[k] == sorted[k]
      invariant forall k :: j < k <= i ==> a[k] == sorted[k - 1]
      invariant forall k :: j <= k < i ==> TimeKey(sorted[k]) > TimeKey(x)
      invariant forall k :: i < k < a.Length ==> a[k] == old(a[k])
    {
      a[j - 1], a[j] := a[j], a[j - 1];
      j := j - 1;
    }
    PlacedIsInsert(sorted, x, j, a[..i + 1]);
  }

  /** The array prefix the insertion loop leaves behind is `Insert` of the old sorted prefix. */
  lemma PlacedIsInsert(sorted: seq<TrackingEvent>, x: TrackingEvent, j: nat, placed: seq<TrackingEvent>)
    requires j <= |sorted| && |placed| == |sorted| + 1
    requires placed[j] == x
    requires forall k :: 0 <= k < j ==> placed[k] == sorted[k]
    requires forall k :: j < k < |placed| ==> placed[k] == sorted[k - 1]
    requires forall k :: j <= k < |sorted| ==> TimeKey(sorted[k]) > TimeKey(x)
    requires j == 0 || TimeKey(sorted[j - 1]) <= TimeKey(x)
    ensures placed == Insert(sorted, x)
  {
    InsertAt(sorted, x, j);
    var expected := sorted[..j] + [x] + sorted[j..];
    forall k | 0 <= k < |placed|
      ensures placed[k] == expected[k]
    {
      if k < j {
        assert expected[k] == sorted[k];
      } else if k > j {
        assert expected[k] == sorted[k - 1];
      }
    }
  }

  /** `events.sort(byTimestamp)`: an in-place stable insertion sort. */
  method SortInPlace(a: array<TrackingEvent>)
    modifies a
    ensures a[..] == SortByTime(old(a[..]))
  {
    ghost var input := a[..];
    for i := 0 to a.Length
      invariant a[..i] == SortByTime(input[..i])
      invariant a[i..] == input[i..]
    {
      InsertInPlace(a, i);
      assert input[..i + 1][..i] == input[..i];
      assert input[..i + 1][i] == input[i] == input[i..][0];
    }
    assert input[..a.Length] == input;
  }
}
