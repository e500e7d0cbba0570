/** Reconstruction (`to_sequence`): a pianoroll becomes notes again.

    Each pitch index is scanned independently over the steps; every maximal
    run of consecutive steps holding the index becomes one note with pitch
    `index + min_pitch`, start `run start + start_step` and exclusive end
    `run end + start_step`. The notes of a base score are copied first and
    left untouched. Only indices >= 0 are scanned: a negative index in a step
    is never rebuilt (a `PianorollSequence` never holds one, since its
    invariant keeps every index in [0, width)). */
module Reconstruction {
  import opened Notes
  import opened Events

  // ---------------------------------------------------------------------
  // Reference definitions.

  /** [a, b) is a maximal run of index `i`: every step in it holds `i`, and
      the steps just outside it (if any) do not. */
  ghost predicate MaximalRun(events: seq<seq<int>>, i: int, a: int, b: int)
  {
    && 0 <= a < b <= |events|
    && (forall k :: a <= k < b ==> i in events[k])
    && (a == 0 || i !in events[a - 1])
    && (b == |events| || i !in events[b])
  }

  /** `n` is a note that reconstruction must produce: the maximal run of its
      index, shifted by `offset` steps, with the given velocity. */
  ghost predicate RunNote(events: seq<seq<int>>, lo: int, offset: nat, velocity: int, n: Note)
  {
    && n.pitch >= lo
    && n.velocity == velocity
    && n.start >= offset && n.end >= offset
    && MaximalRun(events, n.pitch - lo, n.start - offset, n.end - offset)
  }

  predicate NoDuplicates<T(==)>(s: seq<T>)
  {
    forall j, k :: 0 <= j < k < |s| ==> s[j] != s[k]
  }

  // ---------------------------------------------------------------------
  // The conversion.

  /** The first step at or after `t` that does not hold index `i` (or the end). */
  function RunEnd(events: seq<seq<int>>, i: int, t: nat): (e: nat)
    requires t <= |events|
    ensures t <= e <= |events|
    ensures forall k :: t <= k < e ==> i in events[k]
    ensures e == |events| || i !in events[e]
    decreases |events| - t
  {
    if t == |events| || i !in events[t] then t else RunEnd(events, i, t + 1)
  }

  /** The notes of index `i` for the runs that start at or after step `t`. */
  function ColumnNotes(events: seq<seq<int>>, i: nat, t: nat, lo: int, offset: nat, velocity: int): seq<Note>
    requires t <= |events|
    decreases |events| - t
  {
    if t == |events| then []
    else if i !in events[t] then ColumnNotes(events, i, t + 1, lo, offset, velocity)
    else
      var e := RunEnd(events, i, t);
      [Note(i + lo, velocity, t + offset, e + offset)] + ColumnNotes(events, i, e, lo, offset, velocity)
  }

  /** The notes of every index in [i, bound), index by index. */
  function Columns(events: seq<seq<int>>, i: nat, bound: nat, lo: int, offset: nat, velocity: int): seq<Note>
    decreases bound - i
  {
    if i >= bound then []
    else ColumnNotes(events, i, 0, lo, offset, velocity) + Columns(events, i + 1, bound, lo, offset, velocity)
  }

  /** One more than the largest index in any step (0 for an empty pianoroll). */
  function IndexBound(events: seq<seq<int>>): (b: nat)
    ensures forall k, x :: 0 <= k < |events| && x in events[k] ==> x < b
  {
    if events == [] then 0
    else
      var rest := IndexBound(events[1..]);
      assert forall k :: 1 <= k < |events| ==> events[k] == events[1..][k - 1];
      Max(rest, StepBound(events[0]))
  }

  function StepBound(event: seq<int>): (b: nat)
    ensures forall x :: x in event ==> x < b
  {
    if event == [] then 0
    else
      assert forall x :: x in event ==> x == event[0] || x in event[1..];
      Max(StepBound(event[1..]), if event[0] < 0 then 0 else event[0] + 1)
  }

  function Max(a: nat, b: nat): nat
  {
    if a < b then b else a
  }

  /** The notes rebuilt from the pianoroll, before the base score is added. */
  function Reconstruct(events: seq<seq<int>>, lo: int, offset: nat, velocity: int): seq<Note>
  {
    Columns(events, 0, IndexBound(events), lo, offset, velocity)
  }

  /** `to_sequence(velocity, base_note_sequence)`: the base score's notes,
      unchanged, followed by the rebuilt notes. Only indices >= 0 of the roll
      are rebuilt; a negative index yields no note. */
  function ToSequence(events: seq<seq<int>>, lo: int, offset: nat, velocity: int, base: seq<Note>): (r: seq<Note>)
    ensures |r| == |base| + |Reconstruct(events, lo, offset, velocity)|
    ensures r[..|base|] == base
    ensures forall n :: n in r <==> n in base || RunNote(events, lo, offset, velocity, n)
    ensures multiset(r) == multiset(base) + multiset(Reconstruct(events, lo, offset, velocity))
  {
    ReconstructMembers(events, lo, offset, velocity);
    base + Reconstruct(events, lo, offset, velocity)
  }

  // ---------------------------------------------------------------------
  // Reconstruction against the reference definitions.

  /** The notes of one index, from step `t` on: one per maximal run that
      starts at or after `t`, each once. */
  lemma {:induction false} ColumnNotesMembers(events: seq<seq<int>>, i: nat, t: nat, lo: int, offset: nat, velocity: int)
    requires t <= |events|
    requires t == 0 || i !in events[t - 1] || t == |events| || i !in events[t]
    ensures forall n :: n in ColumnNotes(events, i, t, lo, offset, velocity) <==>
      n.pitch == i + lo && n.start >= t + offset && RunNote(events, lo, offset, velocity, n)
    ensures NoDuplicates(ColumnNotes(events, i, t, lo, offset, velocity))
    decreases |events| - t
  {
    if t < |events| {
      if i !in events[t] {
        assert ColumnNotes(events, i, t, lo, offset, velocity) == ColumnNotes(events, i, t + 1, lo, offset, velocity);
        ColumnNotesMembers(events, i, t + 1, lo, offset, velocity);
        ColumnNotesSkip(events, i, t, lo, offset, velocity);
      } else {
        var e := RunEnd(events, i, t);
        var rest := ColumnNotes(events, i, e, lo, offset, velocity);
        assert ColumnNotes(events, i, t, lo, offset, velocity) == [Note(i + lo, velocity, t + offset, e + offset)] + rest;
        ColumnNotesMembers(events, i, e, lo, offset, velocity);
        ColumnNotesRun(events, i, t, e, lo, offset, velocity, rest);
      }
    }
  }

  /** No run starts at a step that does not hold the index. */
  lemma ColumnNotesSkip(events: seq<seq<int>>, i: nat, t: nat, lo: int, offset: nat, velocity: int)
    requires t < |events| && i !in events[t]
    ensures forall n: Note :: n.pitch == i + lo && n.start >= t + offset && RunNote(events, lo, offset, velocity, n) ==>
      n.start >= t + 1 + offset
  {
  }

  /** A step that holds the index after one that does not opens the run
      [t, e); every later run starts at or after e. */
  lemma ColumnNotesRun(events: seq<seq<int>>, i: nat, t: nat, e: nat, lo: int, offset: nat, velocity: int, rest: seq<Note>)
    requires t < e <= |events|
    requires forall k :: t <= k < e ==> i in events[k]
    requires e == |events| || i !in events[e]
    requires t == 0 || i !in events[t - 1]
    requires forall n :: n in rest <==> n.pitch == i + lo && n.start >= e + offset && RunNote(events, lo, offset, velocity, n)
    requires NoDuplicates(rest)
    ensures forall n :: n in [Note(i + lo, velocity, t + offset, e + offset)] + rest <==>
      n.pitch == i + lo && n.start >= t + offset && RunNote(events, lo, offset, velocity, n)
    ensures NoDuplicates([Note(i + lo, velocity, t + offset, e + offset)] + rest)
  {
    var head := Note(i + lo, velocity, t + offset, e + offset);
    var r := [head] + rest;
    assert forall n :: n in r <==> n == head || n in rest;
    assert RunNote(events, lo, offset, velocity, head);
    forall n: Note | n.pitch == i + lo && n.start >= t + offset && RunNote(events, lo, offset, velocity, n)
      ensures n == head || n in rest
    {
      var a, b := n.start - offset, n.end - offset;
      if a == t {
        RunBoundUnique(events, i, t, b, e);
      } else {
        assert i !in events[a - 1];
      }
    }
    ConsDistinct(head, rest);
  }

  lemma ConsDistinct<T>(head: T, rest: seq<T>)
    requires NoDuplicates(rest) && head !in rest
    ensures NoDuplicates([head] + rest)
  {
    var r := [head] + rest;
    forall j, k | 0 <= j < k < |r| ensures r[j] != r[k] {
      if j == 0 {
        assert r[k] in rest;
      } else {
        assert r[j] == rest[j - 1] && r[k] == rest[k - 1];
      }
    }
  }

  /** A run that starts at `t` has only one possible end. */
  lemma RunBoundUnique(events: seq<seq<int>>, i: int, t: nat, b: int, e: int)
    requires t < b <= |events| && t < e <= |events|
    requires forall k :: t <= k < b ==> i in events[k]
    requires b == |events| || i !in events[b]
    requires forall k :: t <= k < e ==> i in events[k]
    requires e == |events| || i !in events[e]
    ensures b == e
  {
  }

  lemma {:induction false} ColumnsMembers(events: seq<seq<int>>, i: nat, bound: nat, lo: int, offset: nat, velocity: int)
    ensures forall n :: n in Columns(events, i, bound, lo, offset, velocity) <==>
      i <= n.pitch - lo < bound && RunNote(events, lo, offset, velocity, n)
    ensures NoDuplicates(Columns(events, i, bound, lo, offset, velocity))
    decreases bound - i
  {
    if i < bound {
      var col := ColumnNotes(events, i, 0, lo, offset, velocity);
      var rest := Columns(events, i + 1, bound, lo, offset, velocity);
      ColumnNotesMembers(events, i, 0, lo, offset, velocity);
      ColumnsMembers(events, i + 1, bound, lo, offset, velocity);
      assert forall n :: n in col ==> n.pitch - lo == i;
      assert forall n :: n in rest ==> n.pitch - lo > i;
      DisjointConcat(col, rest);
    }
  }

  lemma DisjointConcat<T>(a: seq<T>, b: seq<T>)
    requires NoDuplicates(a) && NoDuplicates(b)
    requires forall x :: x in a ==> x !in b
    ensures NoDuplicates(a + b)
    ensures forall x :: x in a + b <==> x in a || x in b
  {
    forall j, k | 0 <= j < k < |a + b| ensures (a + b)[j] != (a + b)[k] {
      if j < |a| && k >= |a| {
        assert (a + b)[j] == a[j] && a[j] in a;
        assert (a + b)[k] == b[k - |a|] && b[k - |a|] in b;
      } else if j >= |a| {
        assert (a + b)[j] == b[j - |a|];
        assert (a + b)[k] == b[k - |a|];
      }
    }
  }

  /** Reconstruction emits exactly one note per maximal run of every index,
      and no note twice. */
  lemma ReconstructMembers(events: seq<seq<int>>, lo: int, offset: nat, velocity: int)
    ensures forall n :: n in Reconstruct(events, lo, offset, velocity) <==> RunNote(events, lo, offset, velocity, n)
    ensures NoDuplicates(Reconstruct(events, lo, offset, velocity))
  {
    ColumnsMembers(events, 0, IndexBound(events), lo, offset, velocity);
    forall n | RunNote(events, lo, offset, velocity, n)
      ensures n.pitch - lo < IndexBound(events)
    {
      assert n.pitch - lo in events[n.start - offset];
    }
  }

  /** When every index lies in the window of width hi - lo + 1, every rebuilt
      note's pitch lies in [lo, hi]. */
  lemma RunNotesInWindow(events: seq<seq<int>>, lo: int, hi: int, offset: nat, velocity: int)
    ensures AllWithinWidth(events, Width(lo, hi)) ==>
      forall n :: RunNote(events, lo, offset, velocity, n) ==> lo <= n.pitch <= hi
  {
    forall n | AllWithinWidth(events, Width(lo, hi)) && RunNote(events, lo, offset, velocity, n)
      ensures lo <= n.pitch <= hi
    {
      assert WithinWidth(events[n.start - offset], Width(lo, hi));
      assert n.pitch - lo in events[n.start - offset];
    }
  }

  /** A duplicate-free sequence holds each of its members once. */
  lemma {:induction false} DistinctMultiplicity<T>(s: seq<T>)
    requires NoDuplicates(s)
    ensures forall x :: multiset(s)[x] == if x in s then 1 else 0
  {
    if s != [] {
      assert NoDuplicates(s[1..]) by {
        forall j, k | 0 <= j < k < |s[1..]| ensures s[1..][j] != s[1..][k] {
          assert s[1..][j] == s[j + 1] && s[1..][k] == s[k + 1];
        }
      }
      DistinctMultiplicity(s[1..]);
      assert s == [s[0]] + s[1..];
      assert s[0] !in s[1..];
      assert multiset(s) == multiset{s[0]} + multiset(s[1..]);
    }
  }

  /** Two duplicate-free sequences with the same members are permutations of
      each other: the order-independent comparison of note lists. */
  lemma DistinctSameMembers<T>(a: seq<T>, b: seq<T>)
    requires NoDuplicates(a) && NoDuplicates(b)
    requires forall x :: x in a <==> x in b
    ensures multiset(a) == multiset(b)
  {
    DistinctMultiplicity(a);
    DistinctMultiplicity(b);
    assert forall x :: multiset(a)[x] == multiset(b)[x];
  }
}
