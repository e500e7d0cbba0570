/** The round trip score -> pianoroll -> score.

    For a score whose notes all lie in the pitch window [lo, hi], all have
    start < end, all carry the velocity that reconstruction writes, and of
    which no two notes of the same pitch touch or overlap (nor appear twice),
    rebuilding the notes from the extracted pianoroll gives back exactly the
    score's notes (compared as a multiset, i.e. independently of their
    order), whether or not repeats are split. Out-of-range notes, such as
    pitches 20 and 110 on the piano range, do not come back. */
module RoundTrip {
  import opened Notes
  import opened Events
  import opened Extraction
  import opened Reconstruction

  /** Two notes are the same note, or of different pitches, or leave a gap
      of at least one step between them. */
  predicate Apart(m: Note, n: Note)
  {
    m == n || m.pitch != n.pitch || m.end < n.start || n.end < m.start
  }

  /** Every two distinct notes of the same pitch leave a gap of at least one
      step between them: no repeats and no overlaps. */
  ghost predicate NoTouchingRepeats(notes: seq<Note>)
  {
    forall m, n {:trigger Apart(m, n)} :: m in notes && n in notes ==> Apart(m, n)
  }

  /** A score the round trip reproduces: in-range notes of positive length,
      all of the velocity `to_sequence` writes, no touching repeats. */
  ghost predicate Reproducible(notes: seq<Note>, lo: int, hi: int, velocity: int)
  {
    && (forall n :: n in notes ==> InRange(n, lo, hi) && n.start < n.end && n.velocity == velocity)
    && NoTouchingRepeats(notes)
    && NoDuplicates(notes)
  }

  /** Index `i` is held by exactly the steps during which a note of that
      pitch sounds. */
  ghost predicate ColumnIsSounding(events: seq<seq<int>>, notes: seq<Note>, lo: int, hi: int, i: int)
  {
    forall k :: 0 <= k < |events| ==> (i in events[k] <==> Sounding(notes, lo, hi, i, k))
  }

  /** Two different notes of the same pitch in such a score are separated. */
  lemma Separated(notes: seq<Note>, m: Note, n: Note)
    requires NoTouchingRepeats(notes)
    requires m in notes && n in notes && m != n && m.pitch == n.pitch
    ensures m.end < n.start || n.end < m.start
  {
    assert Apart(m, n);
  }

  /** In such a score there is no repeat, so splitting changes nothing and a
      step holds an index exactly when a note of that pitch sounds. */
  lemma NoRepeatBoundary(notes: seq<Note>, lo: int, hi: int, velocity: int, i: int, t: int)
    requires Reproducible(notes, lo, hi, velocity)
    ensures !RepeatBoundary(notes, lo, hi, i, t)
  {
    if RepeatBoundary(notes, lo, hi, i, t) {
      var m, n :| m in notes && n in notes && m != n && InRange(m, lo, hi) && m.pitch - lo == i
        && n.pitch == m.pitch && m.end == t && n.start == t;
      Separated(notes, m, n);
    }
  }

  /** Rebuilding from the extracted pianoroll gives back every note of the
      score and nothing else. */
  lemma RoundTripMembers(notes: seq<Note>, lo: int, hi: int, split: bool, velocity: int)
    requires Reproducible(notes, lo, hi, velocity)
    ensures forall n :: n in Reconstruct(Extract(notes, lo, hi, split), lo, 0, velocity) <==> n in notes
  {
    var events := Extract(notes, lo, hi, split);
    ExtractMembers(notes, lo, hi, split);
    ReconstructMembers(events, lo, 0, velocity);
    forall i, k | 0 <= k < |events|
      ensures i in events[k] <==> Sounding(notes, lo, hi, i, k)
    {
      NoRepeatBoundary(notes, lo, hi, velocity, i, k + 1);
    }
    assert forall i :: ColumnIsSounding(events, notes, lo, hi, i);
    forall n | n in notes ensures RunNote(events, lo, 0, velocity, n) {
      NoteIsMaximalRun(notes, lo, hi, velocity, events, n);
    }
    forall g | RunNote(events, lo, 0, velocity, g) ensures g in notes {
      MaximalRunIsNote(notes, lo, hi, velocity, events, g);
    }
  }

  lemma NoteIsMaximalRun(notes: seq<Note>, lo: int, hi: int, velocity: int, events: seq<seq<int>>, n: Note)
    requires Reproducible(notes, lo, hi, velocity)
    requires |events| == MaxEnd(notes, lo, hi)
    requires n in notes
    requires ColumnIsSounding(events, notes, lo, hi, n.pitch - lo)
    ensures RunNote(events, lo, 0, velocity, n)
  {
    var i := n.pitch - lo;
    assert n.end <= |events|;
    forall k | n.start <= k < n.end ensures i in events[k] {
      assert Sounding(notes, lo, hi, i, k);
    }
    if n.start > 0 && i in events[n.start - 1] {
      var m :| m in notes && InRange(m, lo, hi) && m.pitch - lo == i && m.start <= n.start - 1 < m.end;
      Separated(notes, m, n);
    }
    if n.end < |events| && i in events[n.end] {
      var m :| m in notes && InRange(m, lo, hi) && m.pitch - lo == i && m.start <= n.end < m.end;
      Separated(notes, m, n);
    }
  }

  lemma MaximalRunIsNote(notes: seq<Note>, lo: int, hi: int, velocity: int, events: seq<seq<int>>, g: Note)
    requires Reproducible(notes, lo, hi, velocity)
    requires |events| == MaxEnd(notes, lo, hi)
    requires ColumnIsSounding(events, notes, lo, hi, g.pitch - lo)
    requires RunNote(events, lo, 0, velocity, g)
    ensures g in notes
  {
    var i, a, b := g.pitch - lo, g.start, g.end;
    assert MaximalRun(events, i, a, b);
    assert a < |events|;
    assert i in events[a];
    assert Sounding(notes, lo, hi, i, a);
    var n :| n in notes && InRange(n, lo, hi) && n.pitch - lo == i && n.start <= a < n.end;
    RunInsideNote(notes, lo, hi, events, i, a, b, n);
    assert forall k :: 0 <= k < |events| && i in events[k] ==> Sounding(notes, lo, hi, i, k);
    RunCoversNote(notes, lo, hi, velocity, events, i, a, b, n);
    assert g == n;
  }

  /** A maximal run that meets a note starts with it and ends no later. */
  lemma RunInsideNote(notes: seq<Note>, lo: int, hi: int, events: seq<seq<int>>, i: int, a: int, b: int, n: Note)
    requires MaximalRun(events, i, a, b)
    requires n in notes && InRange(n, lo, hi) && n.pitch - lo == i && n.start <= a < n.end
    requires n.end <= |events|
    requires forall k :: 0 <= k < |events| && Sounding(notes, lo, hi, i, k) ==> i in events[k]
    ensures n.start == a && n.end <= b
  {
    if n.start < a {
      assert Sounding(notes, lo, hi, i, a - 1);
    }
    if b < n.end {
      assert Sounding(notes, lo, hi, i, b);
    }
  }

  /** In a score without touching repeats, the run does not end before the note does. */
  lemma RunCoversNote(notes: seq<Note>, lo: int, hi: int, velocity: int, events: seq<seq<int>>, i: int, a: int, b: int, n: Note)
    requires Reproducible(notes, lo, hi, velocity)
    requires MaximalRun(events, i, a, b)
    requires n in notes && InRange(n, lo, hi) && n.pitch - lo == i && n.start == a && n.end <= b
    requires forall k :: 0 <= k < |events| && i in events[k] ==> Sounding(notes, lo, hi, i, k)
    ensures n.end == b
  {
    if n.end < b {
      assert Sounding(notes, lo, hi, i, n.end);
      var m :| m in notes && InRange(m, lo, hi) && m.pitch - lo == i && m.start <= n.end < m.end;
      Separated(notes, m, n);
    }
  }

  /** The round trip: `to_sequence(PianorollSequence(score))` holds the same
      notes as the score, in some order. */
  lemma RoundTripNotes(notes: seq<Note>, lo: int, hi: int, split: bool, velocity: int)
    requires Reproducible(notes, lo, hi, velocity)
    ensures multiset(Reconstruct(Extract(notes, lo, hi, split), lo, 0, velocity)) == multiset(notes)
  {
    var events := Extract(notes, lo, hi, split);
    RoundTripMembers(notes, lo, hi, split, velocity);
    ReconstructMembers(events, lo, 0, velocity);
    DistinctSameMembers(Reconstruct(events, lo, 0, velocity), notes);
  }
}
