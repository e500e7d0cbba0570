/** Quantized notes: the score side of the pianoroll conversion.

    Times are kept in quantized steps (`quantized_start_step`,
    `quantized_end_step`); the conversion to seconds is not part of this model. */
module Notes {

  /** The lowest and highest keys of an 88-key piano, the default pitch window
      of a pianoroll: pitch 24 is index 3, pitches 20 and 110 fall outside. */
  const MinPianoPitch: int := 21
  const MaxPianoPitch: int := 108

  /** The velocity `to_sequence` gives the notes it rebuilds unless told otherwise. */
  const DefaultVelocity: int := 100

  /** A note sounding over the half-open step interval [start, end). */
  datatype Note = Note(pitch: int, velocity: int, start: nat, end: nat)

  /** The note's pitch lies in the pianoroll's inclusive pitch window. */
  predicate InRange(n: Note, lo: int, hi: int)
  {
    lo <= n.pitch <= hi
  }
}
