/** Lifting the chip's wrapping 16-bit block sequence number to an
    unbounded block index, by its signed 16-bit distance from the last
    index the clock tracking saw. */
module SequenceReconciler {

  const SEQUENCE_SPAN := 0x10000
  const HALF_SPAN := 0x8000

  /** True when `s` is a lifting of the 16-bit `sequence` that lies within
      the signed 16-bit window around `lastSequence`. */
  predicate InWindow(lastSequence: int, sequence: int, s: int)
  {
    && (s - sequence) % SEQUENCE_SPAN == 0
    && -HALF_SPAN <= s - lastSequence < HALF_SPAN
  }

  /** The difference from `lastSequence` modulo 2^16, read as a signed
      16-bit number and added to `lastSequence`. Python's 16-bit mask of a
      possibly negative difference is the non-negative remainder, and
      subtracting twice the weight of bit 15 makes the upper half of the
      range negative. */
  function Reconcile(lastSequence: int, sequence: int): (s: int)
    ensures InWindow(lastSequence, sequence, s)
  {
    var diff := (sequence - lastSequence) % SEQUENCE_SPAN;
    var signedDiff := diff - (diff / HALF_SPAN) * HALF_SPAN * 2;
    lastSequence + signedDiff
  }

  /** The window holds exactly one lifting: whatever satisfies the two
      conditions is the reconciled index. */
  lemma ReconcileUnique(lastSequence: int, sequence: int, s: int)
    requires InWindow(lastSequence, sequence, s)
    ensures s == Reconcile(lastSequence, sequence)
  {
    var r := Reconcile(lastSequence, sequence);
    assert (s - r) % SEQUENCE_SPAN == 0 by {
      assert s - r == (s - sequence) - (r - sequence);
    }
    assert -SEQUENCE_SPAN < s - r < SEQUENCE_SPAN;
  }

  /** The index is recovered from its low 16 bits whenever the chip moved
      by less than half the counter range, in either direction and across
      a wrap. */
  lemma ReconcileRecovers(lastSequence: int, advance: int)
    requires -HALF_SPAN <= advance < HALF_SPAN
    ensures Reconcile(lastSequence, (lastSequence + advance) % SEQUENCE_SPAN) == lastSequence + advance
  {
    var s := lastSequence + advance;
    var low := s % SEQUENCE_SPAN;
    assert (s - low) % SEQUENCE_SPAN == 0 by {
      assert s == (s / SEQUENCE_SPAN) * SEQUENCE_SPAN + low;
    }
    ReconcileUnique(lastSequence, low, s);
  }

  /** A sequence number equal to the last index modulo 2^16 reconciles to
      the last index itself; a forward wrap from 65535 to 2 is a step of 3, and a backward
      step below zero stays negative. */
  lemma ReconcileExamples()
    ensures Reconcile(70000, 70000 % SEQUENCE_SPAN) == 70000
    ensures Reconcile(65535, 2) == 65538
    ensures Reconcile(65530, 3) == 65539
    ensures Reconcile(5, 65534) == -2
  {
  }
}
