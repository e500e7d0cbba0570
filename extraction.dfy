/** Extraction: a quantized score becomes a pianoroll.

    The pianoroll has one step per quantized step up to the latest end of an
    in-range note. A grid of per-step index sets is painted note by note
    (each in-range note marks its index over [start, end)); with
    `split_repeats` a second pass over the notes clears the index at the
    last step before every onset that another note of the same pitch ends
    on. Each grid row finally becomes the ascending tuple of its indices. */
module Extraction {
  import opened Notes
  import opened Events

  // ---------------------------------------------------------------------
  // Reference definitions: what a step of the pianoroll must contain.

  /** Some in-range note of index `i` sounds during step `k`. */
  ghost predicate Sounding(notes: seq<Note>, lo: int, hi: int, i: int, k: int)
  {
    exists n :: n in notes && InRange(n, lo, hi) && n.pitch - lo == i && n.start <= k < n.end
  }

  /** A repeat at step `t`: two different in-range notes of index `i`, the
      first ending at `t` and the second starting there. */
  ghost predicate RepeatBoundary(notes: seq<Note>, lo: int, hi: int, i: int, t: int)
  {
    exists m, n :: m in notes && n in notes && m != n && InRange(m, lo, hi) && m.pitch - lo == i
      && n.pitch == m.pitch && m.end == t && n.start == t
  }

  /** Note `n` re-strikes its pitch: a different in-range note of `all` with
      the same pitch ends exactly where `n` starts. */
  predicate Restrike(all: seq<Note>, lo: int, hi: int, n: Note)
  {
    exists m :: m in all && m != n && InRange(m, lo, hi) && m.pitch == n.pitch && m.end == n.start
  }

  /** Some in-range note of `todo` with index `i` starts at `t` as a re-strike. */
  ghost predicate RestrikeAt(todo: seq<Note>, all: seq<Note>, lo: int, hi: int, i: int, t: int)
  {
    exists n :: n in todo && InRange(n, lo, hi) && n.pitch - lo == i && n.start == t && Restrike(all, lo, hi, n)
  }

  /** Index `i` belongs to step `k` of the pianoroll: it sounds there, and,
      when repeats are split, step `k` is not the last step before a repeat. */
  ghost predicate Active(notes: seq<Note>, lo: int, hi: int, split: bool, i: int, k: int)
  {
    Sounding(notes, lo, hi, i, k) && !(split && RepeatBoundary(notes, lo, hi, i, k + 1))
  }

  // ---------------------------------------------------------------------
  // The conversion.

  /** Number of steps: the latest end step of an in-range note (0 if none). */
  function MaxEnd(notes: seq<Note>, lo: int, hi: int): (r: nat)
    ensures forall n :: n in notes && InRange(n, lo, hi) ==> n.end <= r
    ensures r == 0 || exists n :: n in notes && InRange(n, lo, hi) && n.end == r
  {
    if notes == [] then 0
    else
      var m := MaxEnd(notes[1..], lo, hi);
      assert forall n :: n in notes <==> n == notes[0] || n in notes[1..];
      if InRange(notes[0], lo, hi) && notes[0].end > m then notes[0].end else m
  }

  /** The number of steps is the end of an in-range note that no other
      in-range note outlasts. */
  lemma MaxEndIs(notes: seq<Note>, lo: int, hi: int, last: Note)
    requires last in notes && InRange(last, lo, hi)
    requires forall n :: n in notes && InRange(n, lo, hi) ==> n.end <= last.end
    ensures MaxEnd(notes, lo, hi) == last.end
  {
  }

  /** Marks the index of one in-range note over [start, end), clipped to the grid. */
  function MarkNote(grid: seq<set<int>>, n: Note, lo: int, hi: int): seq<set<int>>
  {
    if InRange(n, lo, hi) then
      seq(|grid|, k requires 0 <= k < |grid| =>
        if n.start <= k < n.end then grid[k] + {n.pitch - lo} else grid[k])
    else grid
  }

  /** Marks every note, in score order. */
  function MarkNotes(grid: seq<set<int>>, notes: seq<Note>, lo: int, hi: int): seq<set<int>>
    decreases |notes|
  {
    if notes == [] then grid
    else MarkNotes(MarkNote(grid, notes[0], lo, hi), notes[1..], lo, hi)
  }

  /** With `split_repeats`: if a different note of the same pitch ends where
      `n` starts, clears `n`'s index at the step just before that onset. */
  function SplitNote(grid: seq<set<int>>, n: Note, all: seq<Note>, lo: int, hi: int): seq<set<int>>
  {
    if InRange(n, lo, hi) && n.start > 0 && Restrike(all, lo, hi, n) then
      seq(|grid|, k requires 0 <= k < |grid| =>
        if k == n.start - 1 then grid[k] - {n.pitch - lo} else grid[k])
    else grid
  }

  /** The repeat-splitting pass over every note of `todo`, looking for
      repeats among the notes of `all`. */
  function SplitNotes(grid: seq<set<int>>, todo: seq<Note>, all: seq<Note>, lo: int, hi: int): seq<set<int>>
    decreases |todo|
  {
    if todo == [] then grid
    else SplitNotes(SplitNote(grid, todo[0], all, lo, hi), todo[1..], all, lo, hi)
  }

  /** The boolean grid of the pianoroll, before its rows become tuples. */
  function Grid(notes: seq<Note>, lo: int, hi: int, split: bool): seq<set<int>>
  {
    var marked := MarkNotes(seq(MaxEnd(notes, lo, hi), _ => {}), notes, lo, hi);
    if split then SplitNotes(marked, notes, notes, lo, hi) else marked
  }

  /** `PianorollSequence(quantized_sequence, min_pitch=lo, max_pitch=hi,
      split_repeats=split)`: the list of step tuples. */
  function Extract(notes: seq<Note>, lo: int, hi: int, split: bool): (r: seq<seq<int>>)
    ensures AllWithinWidth(r, Width(lo, hi))
    ensures forall k :: 0 <= k < |r| ==> Ascending(r[k])
  {
    var grid := Grid(notes, lo, hi, split);
    seq(|grid|, k requires 0 <= k < |grid| => SortedIndices(grid[k], 0, Width(lo, hi)))
  }

  // ---------------------------------------------------------------------
  // The passes against the reference definitions.

  lemma {:induction false} MarkNotesMembers(grid: seq<set<int>>, notes: seq<Note>, lo: int, hi: int)
    ensures |MarkNotes(grid, notes, lo, hi)| == |grid|
    ensures forall k, i :: 0 <= k < |grid| ==>
      (i in MarkNotes(grid, notes, lo, hi)[k] <==> i in grid[k] || Sounding(notes, lo, hi, i, k))
    decreases |notes|
  {
    if notes != [] {
      var g1 := MarkNote(grid, notes[0], lo, hi);
      MarkNotesMembers(g1, notes[1..], lo, hi);
      forall k, i | 0 <= k < |grid|
        ensures i in MarkNotes(grid, notes, lo, hi)[k] <==> i in grid[k] || Sounding(notes, lo, hi, i, k)
      {
        assert forall n :: n in notes <==> n == notes[0] || n in notes[1..];
        if Sounding(notes, lo, hi, i, k) {
          var n :| n in notes && InRange(n, lo, hi) && n.pitch - lo == i && n.start <= k < n.end;
          if n != notes[0] {
            assert Sounding(notes[1..], lo, hi, i, k);
          }
        }
        if Sounding(notes[1..], lo, hi, i, k) {
          var n :| n in notes[1..] && InRange(n, lo, hi) && n.pitch - lo == i && n.start <= k < n.end;
          assert n in notes;
        }
      }
    }
  }

  lemma {:induction false} SplitNotesMembers(grid: seq<set<int>>, todo: seq<Note>, all: seq<Note>, lo: int, hi: int)
    ensures |SplitNotes(grid, todo, all, lo, hi)| == |grid|
    ensures forall k, i :: 0 <= k < |grid| ==>
      (i in SplitNotes(grid, todo, all, lo, hi)[k] <==>
         i in grid[k] && !RestrikeAt(todo, all, lo, hi, i, k + 1))
    decreases |todo|
  {
    if todo != [] {
      var g1 := SplitNote(grid, todo[0], all, lo, hi);
      SplitNotesMembers(g1, todo[1..], all, lo, hi);
      forall k, i | 0 <= k < |grid|
        ensures i in SplitNotes(grid, todo, all, lo, hi)[k] <==>
          i in grid[k] && !RestrikeAt(todo, all, lo, hi, i, k + 1)
      {
        assert forall n :: n in todo <==> n == todo[0] || n in todo[1..];
        if RestrikeAt(todo, all, lo, hi, i, k + 1) {
          var n :| n in todo && InRange(n, lo, hi) && n.pitch - lo == i && n.start == k + 1 && Restrike(all, lo, hi, n);
          if n != todo[0] {
            assert RestrikeAt(todo[1..], all, lo, hi, i, k + 1);
          }
        }
        if RestrikeAt(todo[1..], all, lo, hi, i, k + 1) {
          var n :| n in todo[1..] && InRange(n, lo, hi) && n.pitch - lo == i && n.start == k + 1 && Restrike(all, lo, hi, n);
          assert n in todo;
        }
      }
    }
  }

  /** The splitting pass's per-note view of a repeat agrees with the
      two-note definition. */
  lemma RepeatBoundaryRestrike(notes: seq<Note>, lo: int, hi: int, i: int, t: int)
    ensures RepeatBoundary(notes, lo, hi, i, t) <==> RestrikeAt(notes, notes, lo, hi, i, t)
  {
    if RepeatBoundary(notes, lo, hi, i, t) {
      var m, n :| m in notes && n in notes && m != n && InRange(m, lo, hi) && m.pitch - lo == i
        && n.pitch == m.pitch && m.end == t && n.start == t;
      assert Restrike(notes, lo, hi, n);
    }
    if RestrikeAt(notes, notes, lo, hi, i, t) {
      var n :| n in notes && InRange(n, lo, hi) && n.pitch - lo == i && n.start == t && Restrike(notes, lo, hi, n);
      var m :| m in notes && m != n && InRange(m, lo, hi) && m.pitch == n.pitch && m.end == n.start;
      assert RepeatBoundary(notes, lo, hi, i, t);
    }
  }

  /** Every step of the pianoroll holds exactly the indices the reference
      definition Active calls for, and there are MaxEnd steps. */
  lemma ExtractMembers(notes: seq<Note>, lo: int, hi: int, split: bool)
    ensures |Extract(notes, lo, hi, split)| == MaxEnd(notes, lo, hi)
    ensures forall k, i :: 0 <= k < MaxEnd(notes, lo, hi) ==>
      (i in Extract(notes, lo, hi, split)[k] <==> Active(notes, lo, hi, split, i, k))
  {
    var empty: seq<set<int>> := seq(MaxEnd(notes, lo, hi), _ => {});
    MarkNotesMembers(empty, notes, lo, hi);
    var marked := MarkNotes(empty, notes, lo, hi);
    SplitNotesMembers(marked, notes, notes, lo, hi);
    var grid := Grid(notes, lo, hi, split);
    var r := Extract(notes, lo, hi, split);
    forall k, i | 0 <= k < MaxEnd(notes, lo, hi)
      ensures i in r[k] <==> Active(notes, lo, hi, split, i, k)
    {
      assert r[k] == SortedIndices(grid[k], 0, Width(lo, hi));
      RepeatBoundaryRestrike(notes, lo, hi, i, k + 1);
      assert i in grid[k] <==> Active(notes, lo, hi, split, i, k);
      if Sounding(notes, lo, hi, i, k) {
        var n :| n in notes && InRange(n, lo, hi) && n.pitch - lo == i && n.start <= k < n.end;
      }
    }
  }

  // ---------------------------------------------------------------------
  // Consequences.

  /** Only the in-range notes matter: notes outside [lo, hi] are dropped
      entirely (they add no index and no step), and the order of the notes
      in the score does not matter. */
  lemma ExtractDependsOnlyOnInRangeNotes(a: seq<Note>, b: seq<Note>, lo: int, hi: int, split: bool)
    requires forall n :: InRange(n, lo, hi) ==> (n in a <==> n in b)
    ensures Extract(a, lo, hi, split) == Extract(b, lo, hi, split)
  {
    var ma, mb := MaxEnd(a, lo, hi), MaxEnd(b, lo, hi);
    assert ma == mb by {
      if ma != 0 {
        var n :| n in a && InRange(n, lo, hi) && n.end == ma;
        assert n in b;
      }
      if mb != 0 {
        var n :| n in b && InRange(n, lo, hi) && n.end == mb;
        assert n in a;
      }
    }
    ExtractMembers(a, lo, hi, split);
    ExtractMembers(b, lo, hi, split);
    var ea, eb := Extract(a, lo, hi, split), Extract(b, lo, hi, split);
    forall k | 0 <= k < ma ensures ea[k] == eb[k] {
      forall i ensures i in ea[k] <==> i in eb[k] {
        SameInRangeSameActive(a, b, lo, hi, split, i, k);
      }
      AscendingUnique(ea[k], eb[k]);
    }
  }

  lemma SameInRangeSameActive(a: seq<Note>, b: seq<Note>, lo: int, hi: int, split: bool, i: int, k: int)
    requires forall n :: InRange(n, lo, hi) ==> (n in a <==> n in b)
    ensures Active(a, lo, hi, split, i, k) <==> Active(b, lo, hi, split, i, k)
  {
    assert Sounding(a, lo, hi, i, k) <==> Sounding(b, lo, hi, i, k) by {
      if Sounding(a, lo, hi, i, k) {
        var n :| n in a && InRange(n, lo, hi) && n.pitch - lo == i && n.start <= k < n.end;
        assert n in b;
      }
      if Sounding(b, lo, hi, i, k) {
        var n :| n in b && InRange(n, lo, hi) && n.pitch - lo == i && n.start <= k < n.end;
        assert n in a;
      }
    }
    assert RepeatBoundary(a, lo, hi, i, k + 1) <==> RepeatBoundary(b, lo, hi, i, k + 1) by {
      if RepeatBoundary(a, lo, hi, i, k + 1) {
        var m, n :| m in a && n in a && m != n && InRange(m, lo, hi) && m.pitch - lo == i
          && n.pitch == m.pitch && m.end == k + 1 && n.start == k + 1;
        assert m in b && n in b;
      }
      if RepeatBoundary(b, lo, hi, i, k + 1) {
        var m, n :| m in b && n in b && m != n && InRange(m, lo, hi) && m.pitch - lo == i
          && n.pitch == m.pitch && m.end == k + 1 && n.start == k + 1;
        assert m in a && n in a;
      }
    }
  }

  /** Splitting repeats changes only the steps just before a repeat: a step
      keeps index `i` exactly when it had it without splitting and no note of
      that pitch ends on the following step where another one starts. */
  lemma SplitOnlyAtRepeats(notes: seq<Note>, lo: int, hi: int)
    ensures |Extract(notes, lo, hi, true)| == |Extract(notes, lo, hi, false)|
    ensures forall k, i :: 0 <= k < |Extract(notes, lo, hi, true)| ==>
      (i in Extract(notes, lo, hi, true)[k] <==>
         i in Extract(notes, lo, hi, false)[k] && !RepeatBoundary(notes, lo, hi, i, k + 1))
  {
    ExtractMembers(notes, lo, hi, true);
    ExtractMembers(notes, lo, hi, false);
  }

  /** A repeat is split: when an in-range note ends exactly where another
      note of the same pitch starts, that index is absent from the last step
      of the earlier note, while without splitting it is present there. */
  lemma SplitRepeatGap(notes: seq<Note>, lo: int, hi: int, first: Note, second: Note)
    requires first in notes && second in notes
    requires InRange(first, lo, hi) && second.pitch == first.pitch
    requires first.start < first.end == second.start
    ensures first.end - 1 < |Extract(notes, lo, hi, true)| == |Extract(notes, lo, hi, false)|
    ensures first.pitch - lo !in Extract(notes, lo, hi, true)[first.end - 1]
    ensures first.pitch - lo in Extract(notes, lo, hi, false)[first.end - 1]
  {
    ExtractMembers(notes, lo, hi, true);
    ExtractMembers(notes, lo, hi, false);
    var i, k := first.pitch - lo, first.end - 1;
    assert Sounding(notes, lo, hi, i, k);
    assert RepeatBoundary(notes, lo, hi, i, k + 1);
  }

  /** The pianoroll is the only list of ascending tuples with MaxEnd steps
      whose steps hold exactly the indices Active calls for. */
  lemma ExtractUnique(notes: seq<Note>, lo: int, hi: int, split: bool, want: seq<seq<int>>)
    requires |want| == MaxEnd(notes, lo, hi)
    requires forall k, i :: 0 <= k < |want| ==> (Active(notes, lo, hi, split, i, k) <==> i in want[k])
    requires forall k :: 0 <= k < |want| ==> Ascending(want[k])
    ensures Extract(notes, lo, hi, split) == want
  {
    var e := Extract(notes, lo, hi, split);
    ExtractMembers(notes, lo, hi, split);
    forall k | 0 <= k < |want| ensures e[k] == want[k] {
      AscendingUnique(e[k], want[k]);
    }
  }
}
