/** Step events: the contents of one pianoroll step.

    A step event is a tuple of pitch indices (`pitch - min_pitch`) sounding
    during that step. The extraction from notes produces strictly ascending
    tuples; `append` stores whatever tuple it is given. */
module Events {

  /** Number of representable pitch indices for the inclusive pitch range [lo, hi]. */
  function Width(lo: int, hi: int): nat
  {
    if lo <= hi then hi - lo + 1 else 0
  }

  /** Every index of the step lies in [0, width). */
  predicate WithinWidth(event: seq<int>, width: nat)
  {
    forall x :: x in event ==> 0 <= x < width
  }

  /** Every step of the pianoroll lies in [0, width). */
  predicate AllWithinWidth(events: seq<seq<int>>, width: nat)
  {
    forall k :: 0 <= k < |events| ==> WithinWidth(events[k], width)
  }

  predicate Ascending(s: seq<int>)
  {
    forall j, k :: 0 <= j < k < |s| ==> s[j] < s[k]
  }

  /** The members of `frame` in [from, width), listed in ascending order:
      the tuple that a boolean row of the pianoroll grid turns into. */
  function SortedIndices(frame: set<int>, from: nat, width: nat): (r: seq<int>)
    ensures forall x :: x in r <==> from <= x < width && x in frame
    ensures forall x :: x in r ==> x >= from
    ensures Ascending(r)
    decreases width - from
  {
    if from >= width then []
    else if from in frame then
      var rest := SortedIndices(frame, from + 1, width);
      AscendingCons(from, rest);
      [from] + rest
    else SortedIndices(frame, from + 1, width)
  }

  lemma AscendingCons(x: int, s: seq<int>)
    requires Ascending(s)
    requires forall y :: y in s ==> x < y
    ensures Ascending([x] + s)
    ensures forall y :: y in [x] + s <==> y == x || y in s
  {
    forall j, k | 0 <= j < k < |[x] + s| ensures ([x] + s)[j] < ([x] + s)[k] {
      assert ([x] + s)[k] == s[k - 1];
      assert s[k - 1] in s;
      if j > 0 {
        assert ([x] + s)[j] == s[j - 1];
      }
    }
  }

  /** Two ascending tuples with the same members are the same tuple. */
  lemma {:induction false} AscendingUnique(a: seq<int>, b: seq<int>)
    requires Ascending(a) && Ascending(b)
    requires forall x :: x in a <==> x in b
    ensures a == b
    decreases |a|
  {
    assert a == [] <==> b == [] by {
      if a != [] { assert a[0] in a; }
      if b != [] { assert b[0] in b; }
    }
    if a != [] {
      assert a[0] in b && b[0] in a;
      assert a[0] == b[0] by {
        var i :| 0 <= i < |b| && b[i] == a[0];
        var j :| 0 <= j < |a| && a[j] == b[0];
        assert b[0] <= a[0];
        assert a[0] <= b[0];
      }
      forall x ensures x in a[1..] <==> x in b[1..] {
        if x in a[1..] {
          var i :| 1 <= i < |a| && a[i] == x;
          assert x != a[0];
        }
        if x in b[1..] {
          var i :| 1 <= i < |b| && b[i] == x;
          assert x != b[0];
        }
        assert x in a <==> x == a[0] || x in a[1..];
        assert x in b <==> x == b[0] || x in b[1..];
      }
      AscendingUnique(a[1..], b[1..]);
      assert a == [a[0]] + a[1..];
      assert b == [b[0]] + b[1..];
    }
  }

  /** `append(event, shift_range=True)`: keep the raw pitches that lie in
      [lo, hi], in their order, each re-based to the index `pitch - lo`. */
  function ShiftRange(event: seq<int>, lo: int, hi: int): (r: seq<int>)
    ensures forall x :: x in r <==> lo <= x + lo <= hi && x + lo in event
    ensures WithinWidth(r, Width(lo, hi))
    ensures |r| <= |event|
    ensures Ascending(event) ==> Ascending(r)
  {
    if event == [] then []
    else
      var rest := ShiftRange(event[1..], lo, hi);
      var r := if lo <= event[0] <= hi then [event[0] - lo] + rest else rest;
      ShiftRangeCons(event, lo, hi, rest);
      assert |r| <= |event|;
      r
  }

  /** The inductive step of ShiftRange: what holds of the re-windowed tail
      carries over to the whole tuple. */
  lemma ShiftRangeCons(event: seq<int>, lo: int, hi: int, rest: seq<int>)
    requires event != []
    requires forall x :: x in rest <==> lo <= x + lo <= hi && x + lo in event[1..]
    requires WithinWidth(rest, Width(lo, hi))
    requires Ascending(event[1..]) ==> Ascending(rest)
    ensures var r := if lo <= event[0] <= hi then [event[0] - lo] + rest else rest;
      && (forall x :: x in r <==> lo <= x + lo <= hi && x + lo in event)
      && WithinWidth(r, Width(lo, hi))
      && (Ascending(event) ==> Ascending(r))
  {
    assert forall p :: p in event <==> p == event[0] || p in event[1..] by {
      assert event == [event[0]] + event[1..];
    }
    if Ascending(event) && lo <= event[0] <= hi {
      ShiftRangeConsAscending(event, lo, hi, rest);
    }
  }

  lemma ShiftRangeConsAscending(event: seq<int>, lo: int, hi: int, rest: seq<int>)
    requires event != [] && Ascending(event)
    requires forall x :: x in rest ==> x + lo in event[1..]
    requires Ascending(event[1..]) ==> Ascending(rest)
    ensures Ascending([event[0] - lo] + rest)
  {
    assert Ascending(event[1..]);
    forall x | x in rest ensures x > event[0] - lo {
      var i :| 0 <= i < |event[1..]| && event[1..][i] == x + lo;
      assert event[i + 1] == x + lo;
    }
    AscendingCons(event[0] - lo, rest);
  }

  /** Re-windowing keeps each in-window raw pitch as often as the raw tuple
      holds it: a repeated raw pitch gives a repeated index. */
  lemma {:induction false} ShiftRangeCount(event: seq<int>, lo: int, hi: int)
    ensures forall x :: lo <= x + lo <= hi ==>
      multiset(ShiftRange(event, lo, hi))[x] == multiset(event)[x + lo]
  {
    if event != [] {
      ShiftRangeCount(event[1..], lo, hi);
      assert event == [event[0]] + event[1..];
      assert multiset(event) == multiset{event[0]} + multiset(event[1..]);
    }
  }

  /** The tuple after re-windowing is empty exactly when every raw pitch of
      the tuple falls outside [lo, hi]. */
  lemma ShiftRangeEmpty(event: seq<int>, lo: int, hi: int)
    ensures ShiftRange(event, lo, hi) == [] <==> forall p :: p in event ==> p < lo || p > hi
  {
    var r := ShiftRange(event, lo, hi);
    if r != [] {
      assert r[0] in r;
    }
    if exists p :: p in event && lo <= p <= hi {
      var p :| p in event && lo <= p <= hi;
      assert (p - lo) + lo == p;
      assert p - lo in r;
    }
  }

  /** `shift_range=True` applied to a whole events list, one step at a time. */
  function ShiftAll(eventsList: seq<seq<int>>, lo: int, hi: int): (r: seq<seq<int>>)
    ensures |r| == |eventsList|
    ensures forall k :: 0 <= k < |r| ==> r[k] == ShiftRange(eventsList[k], lo, hi)
    ensures AllWithinWidth(r, Width(lo, hi))
  {
    seq(|eventsList|, k requires 0 <= k < |eventsList| => ShiftRange(eventsList[k], lo, hi))
  }
}
