/** Concrete scores and pianorolls checked against the model: those of the
    library's own test cases, plus two scores of this model's own that
    exercise the documented repeat-splitting behaviour. One is pitch 60
    struck twice back to back, followed through reconstruction. The other is
    a zero-length note inside a longer one, which is not a repeat. */
module Scenarios {
  import opened Notes
  import opened Events
  import opened Extraction
  import opened Reconstruction
  import opened RoundTrip
  import opened PianorollLib

  /** Five notes, two of them (pitches 20 and 110) outside the piano range.
      (Scores are described note by note, rather than as one literal, so that
      the verifier does not evaluate the conversions on them eagerly.) */
  predicate IsPianoScore(notes: seq<Note>)
  {
    && |notes| == 5
    && notes[0] == Note(20, 100, 0, 4) && notes[1] == Note(24, 100, 0, 1)
    && notes[2] == Note(26, 100, 0, 3) && notes[3] == Note(110, 100, 1, 2)
    && notes[4] == Note(24, 100, 2, 4)
  }

  /** The pianoroll of that score on the piano range: indices 3 (pitch 24)
      and 5 (pitch 26); the out-of-range notes leave no trace. */
  lemma PianoScoreExtract(notes: seq<Note>, split: bool)
    requires IsPianoScore(notes)
    ensures Extract(notes, MinPianoPitch, MaxPianoPitch, split) == [[3, 5], [5], [3, 5], [3]]
  {
    var want: seq<seq<int>> := [[3, 5], [5], [3, 5], [3]];
    assert forall n :: n in notes <==> n == notes[0] || n == notes[1] || n == notes[2] || n == notes[3] || n == notes[4];
    MaxEndIs(notes, MinPianoPitch, MaxPianoPitch, notes[4]);
    forall k, i | 0 <= k < |want| ensures Active(notes, MinPianoPitch, MaxPianoPitch, split, i, k) <==> i in want[k] {
      PianoScoreActive(notes, split, i, k);
    }
    ExtractUnique(notes, MinPianoPitch, MaxPianoPitch, split, want);
  }

  lemma PianoScoreActive(notes: seq<Note>, split: bool, i: int, k: int)
    requires IsPianoScore(notes)
    requires 0 <= k < 4
    ensures Active(notes, MinPianoPitch, MaxPianoPitch, split, i, k) <==>
      (i == 3 && k != 1) || (i == 5 && k < 3)
  {
    var lo, hi := MinPianoPitch, MaxPianoPitch;
    assert forall n :: n in notes <==> n == notes[0] || n == notes[1] || n == notes[2] || n == notes[3] || n == notes[4];
    if i == 3 && k != 1 {
      assert Sounding(notes, lo, hi, i, k) by {
        if k == 0 { assert notes[1] in notes; } else { assert notes[4] in notes; }
      }
    }
    if i == 5 && k < 3 {
      assert notes[2] in notes;
    }
  }

  /** Two back-to-back notes of pitch 0 (steps 0-2 and 2-4) beside single
      notes of pitches 1 and 2. */
  predicate IsRepeatScore(notes: seq<Note>)
  {
    && |notes| == 4
    && notes[0] == Note(0, 100, 0, 2) && notes[1] == Note(0, 100, 2, 4)
    && notes[2] == Note(1, 100, 0, 2) && notes[3] == Note(2, 100, 2, 4)
  }

  /** With repeats split, pitch 0 is missing from step 1 only. */
  lemma RepeatScoreExtract(notes: seq<Note>)
    requires IsRepeatScore(notes)
    ensures Extract(notes, 0, MaxPianoPitch, true) == [[0, 1], [1], [0, 2], [0, 2]]
  {
    var want: seq<seq<int>> := [[0, 1], [1], [0, 2], [0, 2]];
    assert forall n :: n in notes <==> n == notes[0] || n == notes[1] || n == notes[2] || n == notes[3];
    MaxEndIs(notes, 0, MaxPianoPitch, notes[1]);
    forall k, i | 0 <= k < |want| ensures Active(notes, 0, MaxPianoPitch, true, i, k) <==> i in want[k] {
      RepeatScoreActive(notes, i, k);
    }
    ExtractUnique(notes, 0, MaxPianoPitch, true, want);
  }

  lemma RepeatScoreActive(notes: seq<Note>, i: int, k: int)
    requires IsRepeatScore(notes)
    requires 0 <= k < 4
    ensures Active(notes, 0, MaxPianoPitch, true, i, k) <==>
      (i == 0 && k != 1) || (i == 1 && k < 2) || (i == 2 && k >= 2)
  {
    var lo, hi := 0, MaxPianoPitch;
    assert forall n :: n in notes <==> n == notes[0] || n == notes[1] || n == notes[2] || n == notes[3];
    if i == 0 && k == 1 {
      assert notes[0] in notes && notes[1] in notes;
      assert RepeatBoundary(notes, lo, hi, i, k + 1);
    }
    if i == 0 && k != 1 {
      assert Sounding(notes, lo, hi, i, k) by {
        if k == 0 { assert notes[0] in notes; } else { assert notes[1] in notes; }
      }
    }
    if i == 1 && k < 2 {
      assert notes[2] in notes;
    }
    if i == 2 && k >= 2 {
      assert notes[3] in notes;
    }
  }

  /** Pitch 60 struck twice back to back: steps 0-2, then 2-4. This score is
      not one of the library's test cases; it applies the documented
      repeat-splitting behaviour (one merged note without splitting, two
      notes with it) to a score of its own. */
  predicate IsRepeatedNote(notes: seq<Note>)
  {
    |notes| == 2 && notes[0] == Note(60, 100, 0, 2) && notes[1] == Note(60, 100, 2, 4)
  }

  /** Splitting empties index 39 at step 1, the last step of the first note. */
  lemma RepeatedNoteExtract(notes: seq<Note>, split: bool)
    requires IsRepeatedNote(notes)
    ensures Extract(notes, MinPianoPitch, MaxPianoPitch, split) ==
      if split then [[39], [], [39], [39]] else [[39], [39], [39], [39]]
  {
    var want: seq<seq<int>> := if split then [[39], [], [39], [39]] else [[39], [39], [39], [39]];
    assert forall n :: n in notes <==> n == notes[0] || n == notes[1];
    MaxEndIs(notes, MinPianoPitch, MaxPianoPitch, notes[1]);
    forall k, i | 0 <= k < |want| ensures Active(notes, MinPianoPitch, MaxPianoPitch, split, i, k) <==> i in want[k] {
      RepeatedNoteActive(notes, split, i, k);
    }
    ExtractUnique(notes, MinPianoPitch, MaxPianoPitch, split, want);
  }

  lemma RepeatedNoteActive(notes: seq<Note>, split: bool, i: int, k: int)
    requires IsRepeatedNote(notes)
    requires 0 <= k < 4
    ensures Active(notes, MinPianoPitch, MaxPianoPitch, split, i, k) <==> i == 39 && !(split && k == 1)
  {
    var lo, hi := MinPianoPitch, MaxPianoPitch;
    assert forall n :: n in notes <==> n == notes[0] || n == notes[1];
    if i == 39 {
      assert Sounding(notes, lo, hi, i, k) by {
        if k < 2 { assert notes[0] in notes; } else { assert notes[1] in notes; }
      }
      if k == 1 {
        assert RepeatBoundary(notes, lo, hi, i, k + 1);
      }
    }
  }

  /** The pianoroll of that score: index 39 at every step, except step 1
      when repeats are split. */
  predicate IsRepeatedRoll(events: seq<seq<int>>, split: bool)
  {
    && |events| == 4
    && events[0] == [39] && events[1] == (if split then [] else [39])
    && events[2] == [39] && events[3] == [39]
  }

  /** Without splitting the two strikes come back as one note over steps
      0-4; with splitting they come back as two notes, the first one step
      shorter than it was. */
  lemma RepeatedNoteRebuilt(notes: seq<Note>, split: bool)
    requires IsRepeatedNote(notes)
    ensures multiset(Reconstruct(Extract(notes, MinPianoPitch, MaxPianoPitch, split), MinPianoPitch, 0, DefaultVelocity)) ==
      if split then multiset{Note(60, 100, 0, 1), Note(60, 100, 2, 4)} else multiset{Note(60, 100, 0, 4)}
  {
    var events := Extract(notes, MinPianoPitch, MaxPianoPitch, split);
    RepeatedNoteExtract(notes, split);
    assert IsRepeatedRoll(events, split);
    var want := if split then [Note(60, 100, 0, 1), Note(60, 100, 2, 4)] else [Note(60, 100, 0, 4)];
    ReconstructMembers(events, MinPianoPitch, 0, DefaultVelocity);
    forall n ensures RunNote(events, MinPianoPitch, 0, DefaultVelocity, n) <==> n in want {
      RepeatedRollRun(events, split, n);
    }
    DistinctSameMembers(Reconstruct(events, MinPianoPitch, 0, DefaultVelocity), want);
  }

  lemma RepeatedRollRun(events: seq<seq<int>>, split: bool, n: Note)
    requires IsRepeatedRoll(events, split)
    ensures RunNote(events, MinPianoPitch, 0, DefaultVelocity, n) <==>
      if split then n == Note(60, 100, 0, 1) || n == Note(60, 100, 2, 4) else n == Note(60, 100, 0, 4)
  {
    if RunNote(events, MinPianoPitch, 0, DefaultVelocity, n) {
      var i, a, b := n.pitch - MinPianoPitch, n.start, n.end;
      assert i in events[a];
      if split {
        assert a != 1 && a != 3;
        if a == 0 {
          assert i !in events[1];
          assert b == 1;
        } else {
          assert b == 4;
        }
      } else {
        assert a == 0;
        assert b == 4;
      }
    } else if split {
      assert RunNote(events, MinPianoPitch, 0, DefaultVelocity, Note(60, 100, 2, 4));
    }
  }

  /** A zero-length note of pitch 60 at step 2 inside a note of pitch 60
      over steps 0-4. A note that ends and starts at the same step is not a
      repeat on its own, since a repeat needs two different notes. */
  predicate IsZeroLengthInside(notes: seq<Note>)
  {
    |notes| == 2 && notes[0] == Note(60, 100, 0, 4) && notes[1] == Note(60, 100, 2, 2)
  }

  /** Splitting leaves that score's pianoroll untouched: index 39 at every step. */
  lemma ZeroLengthNoSplit(notes: seq<Note>)
    requires IsZeroLengthInside(notes)
    ensures Extract(notes, MinPianoPitch, MaxPianoPitch, true) == [[39], [39], [39], [39]]
  {
    var want: seq<seq<int>> := [[39], [39], [39], [39]];
    assert forall n :: n in notes <==> n == notes[0] || n == notes[1];
    MaxEndIs(notes, MinPianoPitch, MaxPianoPitch, notes[0]);
    forall k, i | 0 <= k < |want| ensures Active(notes, MinPianoPitch, MaxPianoPitch, true, i, k) <==> i in want[k] {
      ZeroLengthActive(notes, i, k);
    }
    ExtractUnique(notes, MinPianoPitch, MaxPianoPitch, true, want);
  }

  lemma ZeroLengthActive(notes: seq<Note>, i: int, k: int)
    requires IsZeroLengthInside(notes)
    requires 0 <= k < 4
    ensures Active(notes, MinPianoPitch, MaxPianoPitch, true, i, k) <==> i == 39
  {
    var lo, hi := MinPianoPitch, MaxPianoPitch;
    assert forall n :: n in notes <==> n == notes[0] || n == notes[1];
    if i == 39 {
      assert notes[0] in notes;
    }
  }

  /** Re-windowing raw pitches to [1, 4]: 5 and 6 are dropped, the rest
      shifted down by one; the last step becomes empty. */
  lemma ShiftRangeScenario()
    ensures ShiftAll([[0, 1], [2, 3], [4, 5], [6]], 1, 4) == [[0], [1, 2], [3], []]
  {
    var r := ShiftAll([[0, 1], [2, 3], [4, 5], [6]], 1, 4);
    assert r[0] == ShiftRange([0, 1], 1, 4) == [0];
    assert r[1] == ShiftRange([2, 3], 1, 4) == [1, 2];
    assert r[2] == ShiftRange([4, 5], 1, 4) == [3];
    assert r[3] == ShiftRange([6], 1, 4) == [];
  }

  /** Four notes with no touching repeats (pitch 67 at steps 0-1 and 3-4). */
  predicate IsChordScore(notes: seq<Note>)
  {
    && |notes| == 4
    && notes[0] == Note(60, 100, 0, 4) && notes[1] == Note(64, 100, 0, 3)
    && notes[2] == Note(67, 100, 0, 1) && notes[3] == Note(67, 100, 3, 4)
  }

  /** `to_sequence` of that score's pianoroll gives back the score, up to order. */
  lemma ChordScoreRoundTrip(notes: seq<Note>, split: bool)
    requires IsChordScore(notes)
    ensures multiset(Reconstruct(Extract(notes, MinPianoPitch, MaxPianoPitch, split),
                                 MinPianoPitch, 0, DefaultVelocity)) == multiset(notes)
  {
    assert forall n :: n in notes <==> n == notes[0] || n == notes[1] || n == notes[2] || n == notes[3];
    forall m, n | m in notes && n in notes ensures Apart(m, n) {
    }
    assert Reproducible(notes, MinPianoPitch, MaxPianoPitch, DefaultVelocity);
    RoundTripNotes(notes, MinPianoPitch, MaxPianoPitch, split, DefaultVelocity);
  }

  /** Two steps holding indices 39 and 43 (pitches 60 and 64). */
  predicate IsTwoChords(events: seq<seq<int>>)
  {
    |events| == 2 && events[0] == [39, 43] && events[1] == [39, 43]
  }

  /** Rebuilding those steps, placed at start step 1, over a base score holding pitch 60 at steps 0-1:
      the base note is kept as it is and is not merged with the rebuilt
      pitch-60 note at steps 1-3 that follows it. */
  lemma TwoChordsWithBase(events: seq<seq<int>>)
    requires IsTwoChords(events)
    ensures multiset(Reconstruction.ToSequence(events, MinPianoPitch, 1, DefaultVelocity, [Note(60, 100, 0, 1)]))
         == multiset{Note(60, 100, 0, 1), Note(60, 100, 1, 3), Note(64, 100, 1, 3)}
  {
    var lo, offset, velocity := MinPianoPitch, 1, DefaultVelocity;
    var want := [Note(60, 100, 1, 3), Note(64, 100, 1, 3)];
    var rebuilt := Reconstruct(events, lo, offset, velocity);
    ReconstructMembers(events, lo, offset, velocity);
    forall n ensures RunNote(events, lo, offset, velocity, n) <==> n in want {
      TwoChordsRun(events, n);
    }
    DistinctSameMembers(rebuilt, want);
  }

  lemma TwoChordsRun(events: seq<seq<int>>, n: Note)
    requires IsTwoChords(events)
    ensures RunNote(events, MinPianoPitch, 1, DefaultVelocity, n) <==>
      n == Note(60, 100, 1, 3) || n == Note(64, 100, 1, 3)
  {
    if RunNote(events, MinPianoPitch, 1, DefaultVelocity, n) {
      var i, a, b := n.pitch - MinPianoPitch, n.start - 1, n.end - 1;
      assert i in events[a];
      assert a == 0;
      assert b == 2;
    }
  }

  /** The piano-score case, driven through the class constructor. */
  method FromQuantizedScore(notes: seq<Note>)
    requires IsPianoScore(notes)
  {
    var roll := new PianorollSequence.FromQuantized(notes, 1, MinPianoPitch, MaxPianoPitch, false);
    PianoScoreExtract(notes, false);
    assert roll.events == [[3, 5], [5], [3, 5], [3]];
    assert roll.NumSteps() == 4 && roll.Steps() == [0, 1, 2, 3];
  }

  /** The re-windowing case, driven through the class constructor. */
  method FromShiftedEvents()
  {
    var roll := new PianorollSequence.FromEventsList([[0, 1], [2, 3], [4, 5], [6]], 1, 0, 1, 4, true);
    ShiftRangeScenario();
    assert roll.events == [[0], [1, 2], [3], []];
  }

  /** The library's `set_length` growth case, driven through the class. */
  method SetLengthAddSteps()
  {
    var roll := new PianorollSequence.Empty(1, 0, MinPianoPitch, MaxPianoPitch);
    roll.Append([0], false);
    assert roll.NumSteps() == 1 && roll.Steps() == [0];
    roll.SetLength(5);
    assert roll.NumSteps() == 5 && roll.Steps() == [0, 1, 2, 3, 4];
    assert roll.events == [[0], [], [], [], []];
    roll.SetLength(10);
    assert roll.NumSteps() == 10 && roll.Steps() == [0, 1, 2, 3, 4, 5, 6, 7, 8, 9];
    assert roll.events == [[0]] + seq(9, _ => []);
  }

  /** The library's `set_length` truncation case, down to no steps at all. */
  method SetLengthRemoveSteps()
  {
    var roll := new PianorollSequence.Empty(1, 0, MinPianoPitch, MaxPianoPitch);
    var steps: seq<seq<int>> := [[], [2, 4], [2, 4], [2], [5]];
    for k := 0 to |steps|
      invariant roll.Valid() && roll.events == steps[..k]
      invariant roll.minPitch == MinPianoPitch && roll.maxPitch == MaxPianoPitch
    {
      roll.Append(steps[k], false);
      assert steps[..k + 1] == steps[..k] + [steps[k]];
    }
    roll.SetLength(2);
    assert roll.events == [[], [2, 4]];
    roll.SetLength(1);
    assert roll.events == [[]];
    roll.SetLength(0);
    assert roll.events == [];
  }

  /** The library's base-score case, driven through the class. */
  method ToSequenceWithBase()
  {
    var roll := new PianorollSequence.Empty(1, 1, MinPianoPitch, MaxPianoPitch);
    roll.Append([39, 43], false);
    roll.Append([39, 43], false);
    assert IsTwoChords(roll.events);
    var notes := roll.ToSequence(DefaultVelocity, [Note(60, 100, 0, 1)]);
    TwoChordsWithBase(roll.events);
    assert multiset(notes) == multiset{Note(60, 100, 0, 1), Note(60, 100, 1, 3), Note(64, 100, 1, 3)};
  }
}
