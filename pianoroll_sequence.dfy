/** `PianorollSequence`: a mutable list of step events with its pitch
    window and its place on a larger timeline. */
module PianorollLib {
  import opened Notes
  import opened Events
  import opened Extraction
  import opened Reconstruction

  class PianorollSequence {
    /** One step event per step, in time order. */
    var events: seq<seq<int>>
    /** Time-grid resolution; fixed at construction. */
    const stepsPerQuarter: nat
    /** Where step 0 lies on the larger timeline; only exported times use it. */
    const startStep: nat
    /** The inclusive pitch window; index `i` stands for pitch `i + minPitch`. */
    const minPitch: int
    const maxPitch: int

    /** Every index of every step lies in [0, maxPitch - minPitch]. */
    ghost predicate Valid()
      reads this
    {
      AllWithinWidth(events, Width(minPitch, maxPitch))
    }

    /** `PianorollSequence(steps_per_quarter=..., start_step=...)`: no steps yet. */
    constructor Empty(stepsPerQuarter: nat, startStep: nat, minPitch: int, maxPitch: int)
      ensures Valid() && events == []
      ensures this.stepsPerQuarter == stepsPerQuarter && this.startStep == startStep
      ensures this.minPitch == minPitch && this.maxPitch == maxPitch
    {
      this.stepsPerQuarter := stepsPerQuarter;
      this.startStep := startStep;
      this.minPitch := minPitch;
      this.maxPitch := maxPitch;
      events := [];
    }

    /** `PianorollSequence(quantized_sequence, min_pitch, max_pitch,
        split_repeats)`: the pianoroll of a quantized score. */
    constructor FromQuantized(notes: seq<Note>, stepsPerQuarter: nat, minPitch: int, maxPitch: int, splitRepeats: bool)
      ensures Valid() && events == Extract(notes, minPitch, maxPitch, splitRepeats)
      ensures this.stepsPerQuarter == stepsPerQuarter && startStep == 0
      ensures this.minPitch == minPitch && this.maxPitch == maxPitch
    {
      this.stepsPerQuarter := stepsPerQuarter;
      startStep := 0;
      this.minPitch := minPitch;
      this.maxPitch := maxPitch;
      events := Extract(notes, minPitch, maxPitch, splitRepeats);
    }

    /** `PianorollSequence(events_list=..., shift_range=...)`: appends the
        given steps one by one, re-windowing raw pitches when `shiftRange`. */
    constructor FromEventsList(eventsList: seq<seq<int>>, stepsPerQuarter: nat, startStep: nat,
                               minPitch: int, maxPitch: int, shiftRange: bool)
      requires shiftRange || AllWithinWidth(eventsList, Width(minPitch, maxPitch))
      ensures Valid()
      ensures events == if shiftRange then ShiftAll(eventsList, minPitch, maxPitch) else eventsList
      ensures this.stepsPerQuarter == stepsPerQuarter && this.startStep == startStep
      ensures this.minPitch == minPitch && this.maxPitch == maxPitch
    {
      this.stepsPerQuarter := stepsPerQuarter;
      this.startStep := startStep;
      this.minPitch := minPitch;
      this.maxPitch := maxPitch;
      events := [];
      new;
      var k := 0;
      while k < |eventsList|
        invariant 0 <= k <= |eventsList|
        invariant Valid()
        invariant events == if shiftRange then ShiftAll(eventsList[..k], minPitch, maxPitch) else eventsList[..k]
      {
        Append(eventsList[k], shiftRange);
        assert eventsList[..k + 1] == eventsList[..k] + [eventsList[k]];
        k := k + 1;
      }
      assert eventsList[..k] == eventsList;
    }

    /** `append(event, shift_range)`: one more step at the end; the earlier
        steps are unchanged. */
    method Append(event: seq<int>, shiftRange: bool)
      requires Valid()
      requires shiftRange || WithinWidth(event, Width(minPitch, maxPitch))
      modifies this
      ensures Valid()
      ensures events == old(events) + [if shiftRange then ShiftRange(event, minPitch, maxPitch) else event]
    {
      var step := if shiftRange then ShiftRange(event, minPitch, maxPitch) else event;
      events := events + [step];
    }

    /** `set_length(n)`: pads with empty steps or drops steps from the end
        until there are exactly `n`; the steps kept are unchanged. */
    method SetLength(n: nat)
      requires Valid()
      modifies this
      ensures Valid()
      ensures NumSteps() == n
      ensures forall k :: 0 <= k < n && k < old(NumSteps()) ==> events[k] == old(events[k])
      ensures forall k :: old(NumSteps()) <= k < n ==> events[k] == []
    {
      if |events| < n {
        events := events + seq(n - |events|, _ => []);
      } else if |events| > n {
        events := events[..n];
      }
    }

    /** `num_steps`: the number of stored steps; zero exactly when there are none. */
    function NumSteps(): (n: nat)
      reads this
      ensures n == |events|
      ensures n == 0 <==> events == []
    {
      |events|
    }

    /** `steps`: the step numbers 0 .. num_steps - 1, whatever the start step. */
    function Steps(): (r: seq<nat>)
      reads this
      ensures |r| == NumSteps()
      ensures forall k :: 0 <= k < |r| ==> r[k] == k
    {
      var n := |events|;
      seq(n, k requires 0 <= k < n => k)
    }

    /** `to_sequence(velocity, base_note_sequence)`: the base score's notes,
        then one note per maximal run of every index, shifted by the start step. */
    function ToSequence(velocity: int, base: seq<Note>): (r: seq<Note>)
      reads this
      ensures |base| <= |r| && r[..|base|] == base
      ensures forall n :: n in r <==> n in base || RunNote(events, minPitch, startStep, velocity, n)
      ensures forall n :: n in r[|base|..] <==> RunNote(events, minPitch, startStep, velocity, n)
      ensures NoDuplicates(r[|base|..])
      ensures Valid() ==> forall n :: n in r[|base|..] ==> minPitch <= n.pitch <= maxPitch
    {
      var r := Reconstruction.ToSequence(events, minPitch, startStep, velocity, base);
      ReconstructMembers(events, minPitch, startStep, velocity);
      assert r[|base|..] == Reconstruct(events, minPitch, startStep, velocity);
      RunNotesInWindow(events, minPitch, maxPitch, startStep, velocity);
      r
    }
  }
}
