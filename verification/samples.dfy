/** Decoding one batch of raw blocks into samples: sequence reconciliation,
    the 4-byte sample format, the chip index of every sample, the error
    tally, and the chip clock recorded at the end of the batch. */
module SampleDecoder {
  import opened Wrappers
  import opened Device
  import opened SequenceReconciler

  const BYTES_PER_SAMPLE := 4
  /** Reference clock of the chip, in Hz. */
  const LDC1612_FREQ := 12000000
  /** The sample magnitude is a 28-bit fixed-point fraction of the
      reference clock. */
  const MAGNITUDE_SPAN := 0x1000_0000

  /** One raw message of the bulk queue: its 16-bit wrapping sequence
      number and its payload bytes. */
  datatype Block = Block(sequence: int, data: seq<byte>)

  /** The four bytes of one sample, in payload order. */
  datatype Word = Word(b0: byte, b1: byte, b2: byte, b3: byte)

  /** A decoded sample. The driver emits `(time, frequency)` as floats; the
      model keeps the two exact integers they are computed from: the chip
      index relative to the clock anchor, and the 28-bit magnitude. */
  datatype Sample = Sample(chipOffset: int, value: int)

  /** The clock translation `(time_base, chip_base, inv_freq)` in effect for
      the batch. */
  datatype Translation = Translation(timeBase: real, chipBase: int, invFreq: real)

  /** One of the four error bits, the top nibble of the first byte, is set. */
  predicate HasError(w: Word)
  {
    w.b0 / 16 != 0
  }

  /** The 28-bit conversion result: the low nibble of the first byte, then
      the other three bytes, most significant first. The fields do not
      overlap, so combining them is a sum. */
  function Magnitude(w: Word): (v: int)
    ensures 0 <= v < MAGNITUDE_SPAN
  {
    (w.b0 % 16) * 0x100_0000 + w.b1 * 0x1_0000 + w.b2 * 0x100 + w.b3
  }

  /** The frequency a magnitude stands for, the reference clock scaled by
      the magnitude's share of 2^28, exact (the driver rounds it to three
      decimals). */
  function Frequency(value: int): (f: real)
    requires 0 <= value < MAGNITUDE_SPAN
    ensures 0.0 <= f < LDC1612_FREQ as real
  {
    value as real * (LDC1612_FREQ as real / MAGNITUDE_SPAN as real)
  }

  /** Frequency is proportional to the magnitude, so distinct magnitudes
      stay distinct and ordered before the driver's rounding. */
  lemma FrequencyProportional(a: int, b: int)
    requires 0 <= a < MAGNITUDE_SPAN && 0 <= b < MAGNITUDE_SPAN
    ensures Frequency(a) * MAGNITUDE_SPAN as real == a as real * LDC1612_FREQ as real
    ensures a < b <==> Frequency(a) < Frequency(b)
  {
  }

  /** The host time of a sample under the linear clock model, exact (the
      driver rounds it to microseconds). */
  function SampleTime(tr: Translation, s: Sample): real
  {
    tr.timeBase + s.chipOffset as real * tr.invFreq
  }

  /** The four bytes a chip sends for a magnitude and a set of error bits:
      the independent definition of the sample format, byte by byte from
      the least significant end. */
  function EncodeWord(errorBits: int, value: int): Word
    requires 0 <= errorBits < 16
    requires 0 <= value < MAGNITUDE_SPAN
  {
    var q1 := value / 0x100;
    var q2 := q1 / 0x100;
    Word(errorBits * 16 + q2 / 0x100, q2 % 0x100, q1 % 0x100, value % 0x100)
  }

  lemma ByteSplit(x: int, q: int, r: int)
    requires 0 <= r < 0x100 && x == q * 0x100 + r
    ensures x / 0x100 == q && x % 0x100 == r
  {
  }

  /** Decoding an encoded sample gives back its magnitude whatever the error
      bits, and flags an error exactly when some error bit was set. */
  lemma DecodeEncode(errorBits: int, value: int)
    requires 0 <= errorBits < 16
    requires 0 <= value < MAGNITUDE_SPAN
    ensures Magnitude(EncodeWord(errorBits, value)) == value
    ensures HasError(EncodeWord(errorBits, value)) <==> errorBits != 0
  {
    var q1 := value / 0x100;
    var q2 := q1 / 0x100;
    var q3 := q2 / 0x100;
    assert value == q1 * 0x100 + value % 0x100;
    assert q1 == q2 * 0x100 + q1 % 0x100;
    assert q2 == q3 * 0x100 + q2 % 0x100;
    assert 0 <= q3 < 16;
    var b0 := errorBits * 16 + q3;
    assert b0 / 16 == errorBits && b0 % 16 == q3;
  }

  /** Every 4-byte word is the encoding of its top nibble and its magnitude:
      the decoder loses nothing but which error bits were set. */
  lemma EncodeDecode(w: Word)
    ensures EncodeWord(w.b0 / 16, Magnitude(w)) == w
  {
    var v := Magnitude(w);
    var q2 := (w.b0 % 16) * 0x100 + w.b1;
    var q1 := q2 * 0x100 + w.b2;
    assert v == q1 * 0x100 + w.b3;
    ByteSplit(v, q1, w.b3);
    ByteSplit(q1, q2, w.b2);
    ByteSplit(q2, w.b0 % 16, w.b1);
    assert w.b0 == (w.b0 / 16) * 16 + w.b0 % 16;
  }

  /** Sample `i` of a payload: bytes `4*i .. 4*i+3`. */
  function WordAt(d: seq<byte>, i: int): Word
    requires 0 <= i < |d| / BYTES_PER_SAMPLE
  {
    Word(d[4 * i], d[4 * i + 1], d[4 * i + 2], d[4 * i + 3])
  }

  /** The whole samples of a payload; trailing bytes short of a sample are
      ignored (`range(len(d) // BYTES_PER_SAMPLE)`). */
  function Words(d: seq<byte>): (ws: seq<Word>)
    ensures |ws| == |d| / BYTES_PER_SAMPLE
    ensures forall i :: 0 <= i < |ws| ==> ws[i] == WordAt(d, i)
  {
    seq(|d| / BYTES_PER_SAMPLE, i requires 0 <= i < |d| / BYTES_PER_SAMPLE => WordAt(d, i))
  }

  /** The samples of one payload whose block reconciled to `seqNo`: sample
      `i` sits at chip offset `seqNo * samplesPerBlock - chipBase + i`. */
  function BlockSamples(seqNo: int, d: seq<byte>, samplesPerBlock: int, chipBase: int): (ss: seq<Sample>)
    ensures |ss| == |d| / BYTES_PER_SAMPLE
  {
    seq(|d| / BYTES_PER_SAMPLE, i requires 0 <= i < |d| / BYTES_PER_SAMPLE =>
      Sample(seqNo * samplesPerBlock - chipBase + i, Magnitude(WordAt(d, i))))
  }

  /** Number of whole samples in a batch. */
  function SampleCount(blocks: seq<Block>): nat
  {
    if |blocks| == 0 then 0
    else SampleCount(blocks[..|blocks| - 1]) + |blocks[|blocks| - 1].data| / BYTES_PER_SAMPLE
  }

  /** The raw words of a batch, block after block. */
  function BatchWords(blocks: seq<Block>): (ws: seq<Word>)
    ensures |ws| == SampleCount(blocks)
  {
    if |blocks| == 0 then []
    else BatchWords(blocks[..|blocks| - 1]) + Words(blocks[|blocks| - 1].data)
  }

  /** The decoded samples of a batch, block after block, every block
      reconciled against the same `lastSequence`. */
  function BatchSamples(blocks: seq<Block>, lastSequence: int, samplesPerBlock: int, chipBase: int): (ss: seq<Sample>)
    ensures |ss| == SampleCount(blocks)
  {
    if |blocks| == 0 then []
    else
      var last := blocks[|blocks| - 1];
      BatchSamples(blocks[..|blocks| - 1], lastSequence, samplesPerBlock, chipBase)
        + BlockSamples(Reconcile(lastSequence, last.sequence), last.data, samplesPerBlock, chipBase)
  }

  /** Number of words carrying an error. */
  function Flagged(ws: seq<Word>): nat
  {
    if |ws| == 0 then 0
    else Flagged(ws[..|ws| - 1]) + (if HasError(ws[|ws| - 1]) then 1 else 0)
  }

  /** Positions of the words carrying an error. */
  function ErrorPositions(ws: seq<Word>): set<int>
  {
    set j | 0 <= j < |ws| && HasError(ws[j])
  }

  lemma {:induction false} FlaggedAppend(a: seq<Word>, b: seq<Word>)
    ensures Flagged(a + b) == Flagged(a) + Flagged(b)
    decreases |b|
  {
    if |b| > 0 {
      assert (a + b)[..|a + b| - 1] == a + b[..|b| - 1];
      FlaggedAppend(a, b[..|b| - 1]);
    } else {
      assert a + b == a;
    }
  }

  /** The error tally is the number of samples whose error nibble is set. */
  lemma {:induction false} FlaggedCountsErrors(ws: seq<Word>)
    ensures Flagged(ws) == |ErrorPositions(ws)|
    decreases |ws|
  {
    if |ws| > 0 {
      var n := |ws| - 1;
      var prefix := ws[..n];
      FlaggedCountsErrors(prefix);
      if HasError(ws[n]) {
        assert ErrorPositions(ws) == ErrorPositions(prefix) + {n};
      } else {
        assert ErrorPositions(ws) == ErrorPositions(prefix);
      }
    } else {
      assert ErrorPositions(ws) == {};
    }
  }

  /** Index, within its block, of the last sample decoded in the batch: the
      loop variable `i` as it stands after the loops. */
  function LastIndex(blocks: seq<Block>): Option<int>
  {
    if |blocks| == 0 then None
    else
      var n := |blocks[|blocks| - 1].data| / BYTES_PER_SAMPLE;
      if n > 0 then Some(n - 1) else LastIndex(blocks[..|blocks| - 1])
  }

  /** The loop variable `seq` after the loops: the reconciled sequence of
      the final block, 0 for an empty batch. */
  function FinalSequence(blocks: seq<Block>, lastSequence: int): int
  {
    if |blocks| == 0 then 0 else Reconcile(lastSequence, blocks[|blocks| - 1].sequence)
  }

  /** `seq * SAMPLES_PER_BLOCK + i` as line 149 evaluates it; `None` when
      no sample was decoded and `i` was never bound. When the final block
      is empty, `i` is left over from an earlier block while `seq` is the
      final block's. */
  function ChipClock(blocks: seq<Block>, lastSequence: int, samplesPerBlock: int): Option<int>
  {
    match LastIndex(blocks)
    case None => None
    case Some(i) => Some(FinalSequence(blocks, lastSequence) * samplesPerBlock + i)
  }

  /** Samples come out block after block and, inside a block, by index:
      sample `i` of block `k` is entry `SampleCount(blocks[..k]) + i` of the
      batch, decoded from its own four bytes at chip offset
      `seq * samplesPerBlock - chipBase + i`, where `seq` is block `k`'s
      sequence reconciled against the batch's `lastSequence`. */
  lemma {:induction false} SamplesInBlockOrder(blocks: seq<Block>, lastSequence: int, samplesPerBlock: int,
                                               chipBase: int, k: int, i: int)
    requires 0 <= k < |blocks|
    requires 0 <= i < |blocks[k].data| / BYTES_PER_SAMPLE
    ensures SampleCount(blocks[..k]) + i < SampleCount(blocks)
    ensures BatchWords(blocks)[SampleCount(blocks[..k]) + i] == WordAt(blocks[k].data, i)
    ensures BatchSamples(blocks, lastSequence, samplesPerBlock, chipBase)[SampleCount(blocks[..k]) + i]
         == Sample(Reconcile(lastSequence, blocks[k].sequence) * samplesPerBlock - chipBase + i,
                   Magnitude(WordAt(blocks[k].data, i)))
    decreases |blocks|
  {
    var n := |blocks|;
    var prefix := blocks[..n - 1];
    if k == n - 1 {
      assert blocks[..k] == prefix;
    } else {
      assert prefix[..k] == blocks[..k];
      SamplesInBlockOrder(prefix, lastSequence, samplesPerBlock, chipBase, k, i);
    }
  }

  /** Line 149 finds `i` bound exactly when the batch held a whole sample. */
  lemma {:induction false} ChipClockBoundIffSamples(blocks: seq<Block>, lastSequence: int, samplesPerBlock: int)
    ensures ChipClock(blocks, lastSequence, samplesPerBlock).Some? <==> SampleCount(blocks) > 0
    decreases |blocks|
  {
    if |blocks| > 0 {
      ChipClockBoundIffSamples(blocks[..|blocks| - 1], lastSequence, samplesPerBlock);
    }
  }

  /** When the final block holds `n > 0` samples, the recorded chip clock is
      `seq * samplesPerBlock + (n - 1)` for that block's `seq`: the chip
      index of the batch's last sample. */
  lemma ChipClockOfFinalBlock(blocks: seq<Block>, lastSequence: int, samplesPerBlock: int, chipBase: int)
    requires |blocks| > 0
    requires |blocks[|blocks| - 1].data| / BYTES_PER_SAMPLE > 0
    ensures ChipClock(blocks, lastSequence, samplesPerBlock)
         == Some(Reconcile(lastSequence, blocks[|blocks| - 1].sequence) * samplesPerBlock
                 + |blocks[|blocks| - 1].data| / BYTES_PER_SAMPLE - 1)
    ensures SampleCount(blocks) > 0
    ensures ChipClock(blocks, lastSequence, samplesPerBlock).value - chipBase
         == BatchSamples(blocks, lastSequence, samplesPerBlock, chipBase)[SampleCount(blocks) - 1].chipOffset
  {
    var k := |blocks| - 1;
    var n := |blocks[k].data| / BYTES_PER_SAMPLE;
    assert blocks[..k] == blocks[..|blocks| - 1];
    SamplesInBlockOrder(blocks, lastSequence, samplesPerBlock, chipBase, k, n - 1);
  }

  /** The pacing the microcontroller keeps: a block never holds more than
      `samplesPerBlock` samples, and successive blocks of a batch reconcile
      to increasing sequence numbers. */
  predicate WellPaced(blocks: seq<Block>, lastSequence: int, samplesPerBlock: int)
  {
    && samplesPerBlock > 0
    && (forall k :: 0 <= k < |blocks| ==> |blocks[k].data| / BYTES_PER_SAMPLE <= samplesPerBlock)
    && (forall k :: 0 <= k < |blocks| - 1 ==>
          Reconcile(lastSequence, blocks[k].sequence) < Reconcile(lastSequence, blocks[k + 1].sequence))
  }

  lemma MulSucc(a: int, c: int)
    ensures (a + 1) * c == a * c + c
  {
  }

  lemma ScaleMonotone(a: real, b: real, f: real)
    requires a <= b && f >= 0.0
    ensures a * f <= b * f
  {
    assert b * f - a * f == (b - a) * f;
  }

  lemma MulMonotone(a: int, b: int, c: int)
    requires a <= b && c >= 0
    ensures a * c <= b * c
  {
    assert b * c - a * c == (b - a) * c;
  }

  predicate StrictlyIncreasing(ss: seq<Sample>)
  {
    forall j1, j2 :: 0 <= j1 < j2 < |ss| ==> ss[j1].chipOffset < ss[j2].chipOffset
  }

  predicate Below(ss: seq<Sample>, bound: int)
  {
    forall j :: 0 <= j < |ss| ==> ss[j].chipOffset < bound
  }

  predicate AtLeast(ss: seq<Sample>, bound: int)
  {
    forall j :: 0 <= j < |ss| ==> bound <= ss[j].chipOffset
  }

  /** The offsets of one block start at `seqNo * samplesPerBlock - chipBase`,
      step by one, and stay below the next block's first offset. */
  lemma BlockOffsets(seqNo: int, d: seq<byte>, samplesPerBlock: int, chipBase: int)
    requires |d| / BYTES_PER_SAMPLE <= samplesPerBlock
    ensures StrictlyIncreasing(BlockSamples(seqNo, d, samplesPerBlock, chipBase))
    ensures AtLeast(BlockSamples(seqNo, d, samplesPerBlock, chipBase), seqNo * samplesPerBlock - chipBase)
    ensures Below(BlockSamples(seqNo, d, samplesPerBlock, chipBase), (seqNo + 1) * samplesPerBlock - chipBase)
  {
    MulSucc(seqNo, samplesPerBlock);
  }

  /** Two increasing runs, the first wholly below the second, make one. */
  lemma ConcatIncreasing(ps: seq<Sample>, bs: seq<Sample>, split: int, bound: int)
    requires StrictlyIncreasing(ps) && StrictlyIncreasing(bs)
    requires Below(ps, split) && AtLeast(bs, split) && Below(bs, bound) && split <= bound
    ensures StrictlyIncreasing(ps + bs) && Below(ps + bs, bound)
  {
    var ss := ps + bs;
    forall j1, j2 | 0 <= j1 < j2 < |ss|
      ensures ss[j1].chipOffset < ss[j2].chipOffset
    {
      if j2 < |ps| {
        assert ss[j1] == ps[j1] && ss[j2] == ps[j2];
      } else if j1 >= |ps| {
        assert ss[j1] == bs[j1 - |ps|] && ss[j2] == bs[j2 - |ps|];
      } else {
        assert ss[j1] == ps[j1] && ss[j2] == bs[j2 - |ps|];
      }
    }
    forall j | 0 <= j < |ss|
      ensures ss[j].chipOffset < bound
    {
      if j < |ps| {
        assert ss[j] == ps[j];
      } else {
        assert ss[j] == bs[j - |ps|];
      }
    }
  }

  lemma PrefixWellPaced(blocks: seq<Block>, lastSequence: int, samplesPerBlock: int)
    requires |blocks| > 0 && WellPaced(blocks, lastSequence, samplesPerBlock)
    ensures WellPaced(blocks[..|blocks| - 1], lastSequence, samplesPerBlock)
  {
    var prefix := blocks[..|blocks| - 1];
    forall k | 0 <= k < |prefix| - 1
      ensures Reconcile(lastSequence, prefix[k].sequence) < Reconcile(lastSequence, prefix[k + 1].sequence)
    {
      assert prefix[k] == blocks[k] && prefix[k + 1] == blocks[k + 1];
    }
  }

  /** Under that pacing, chip offsets strictly increase through the batch,
      and all of them lie below the block after the final one. */
  lemma {:induction false} OffsetsIncrease(blocks: seq<Block>, lastSequence: int, samplesPerBlock: int, chipBase: int)
    requires WellPaced(blocks, lastSequence, samplesPerBlock)
    ensures StrictlyIncreasing(BatchSamples(blocks, lastSequence, samplesPerBlock, chipBase))
    ensures Below(BatchSamples(blocks, lastSequence, samplesPerBlock, chipBase),
                  (FinalSequence(blocks, lastSequence) + 1) * samplesPerBlock - chipBase)
    decreases |blocks|
  {
    if |blocks| > 0 {
      var n := |blocks|;
      var prefix := blocks[..n - 1];
      var s := Reconcile(lastSequence, blocks[n - 1].sequence);
      PrefixWellPaced(blocks, lastSequence, samplesPerBlock);
      OffsetsIncrease(prefix, lastSequence, samplesPerBlock, chipBase);
      var ps := BatchSamples(prefix, lastSequence, samplesPerBlock, chipBase);
      var bs := BlockSamples(s, blocks[n - 1].data, samplesPerBlock, chipBase);
      assert BatchSamples(blocks, lastSequence, samplesPerBlock, chipBase) == ps + bs;
      BlockOffsets(s, blocks[n - 1].data, samplesPerBlock, chipBase);
      if n >= 2 {
        assert FinalSequence(prefix, lastSequence) == Reconcile(lastSequence, blocks[n - 2].sequence);
      }
      PrefixBelow(prefix, lastSequence, samplesPerBlock, chipBase, s);
      MulSucc(s, samplesPerBlock);
      ConcatIncreasing(ps, bs, s * samplesPerBlock - chipBase, (s + 1) * samplesPerBlock - chipBase);
    }
  }

  /** Every offset of a batch lies below the first offset of any later
      block. */
  lemma PrefixBelow(prefix: seq<Block>, lastSequence: int, samplesPerBlock: int, chipBase: int, s: int)
    requires samplesPerBlock > 0
    requires |prefix| > 0 ==> FinalSequence(prefix, lastSequence) < s
    requires Below(BatchSamples(prefix, lastSequence, samplesPerBlock, chipBase),
                   (FinalSequence(prefix, lastSequence) + 1) * samplesPerBlock - chipBase)
    ensures Below(BatchSamples(prefix, lastSequence, samplesPerBlock, chipBase), s * samplesPerBlock - chipBase)
  {
    if |prefix| > 0 {
      MulMonotone(FinalSequence(prefix, lastSequence) + 1, s, samplesPerBlock);
    }
  }

  predicate TimesNonDecreasingIn(tr: Translation, ss: seq<Sample>)
  {
    forall j1, j2 :: 0 <= j1 <= j2 < |ss| ==> SampleTime(tr, ss[j1]) <= SampleTime(tr, ss[j2])
  }

  /** Increasing chip offsets give non-decreasing host times when the
      seconds-per-sample slope is not negative. */
  lemma IncreasingOffsetsOrderTimes(tr: Translation, ss: seq<Sample>)
    requires StrictlyIncreasing(ss) && tr.invFreq >= 0.0
    ensures TimesNonDecreasingIn(tr, ss)
  {
    forall j1, j2 | 0 <= j1 <= j2 < |ss|
      ensures SampleTime(tr, ss[j1]) <= SampleTime(tr, ss[j2])
    {
      assert ss[j1].chipOffset <= ss[j2].chipOffset;
      ScaleMonotone(ss[j1].chipOffset as real, ss[j2].chipOffset as real, tr.invFreq);
    }
  }

  /** With a non-negative seconds-per-sample slope, the host times of a
      well-paced batch never go backwards. */
  lemma TimesNonDecreasing(tr: Translation, blocks: seq<Block>, lastSequence: int, samplesPerBlock: int)
    requires WellPaced(blocks, lastSequence, samplesPerBlock)
    requires tr.invFreq >= 0.0
    ensures TimesNonDecreasingIn(tr, BatchSamples(blocks, lastSequence, samplesPerBlock, tr.chipBase))
  {
    OffsetsIncrease(blocks, lastSequence, samplesPerBlock, tr.chipBase);
    IncreasingOffsetsOrderTimes(tr, BatchSamples(blocks, lastSequence, samplesPerBlock, tr.chipBase));
  }

  /** The outcome of decoding one batch whose samples all find a slot. */
  datatype Extraction = Extraction(samples: seq<Sample>, errors: nat, chipClock: Option<int>)

  function Extract(blocks: seq<Block>, lastSequence: int, samplesPerBlock: int, chipBase: int, errorsBefore: nat): Extraction
  {
    Extraction(BatchSamples(blocks, lastSequence, samplesPerBlock, chipBase),
               errorsBefore + Flagged(BatchWords(blocks)),
               ChipClock(blocks, lastSequence, samplesPerBlock))
  }

  /** `count * samplesPerBlock`, counted block by block. */
  function Times(count: nat, samplesPerBlock: int): int
  {
    if count == 0 then 0 else Times(count - 1, samplesPerBlock) + samplesPerBlock
  }

  lemma {:induction false} TimesIsProduct(count: nat, samplesPerBlock: int)
    ensures Times(count, samplesPerBlock) == count * samplesPerBlock
  {
    if count > 0 {
      TimesIsProduct(count - 1, samplesPerBlock);
      MulSucc(count - 1, samplesPerBlock);
    }
  }

  /** Length of the list preallocated at line 134: `SAMPLES_PER_BLOCK` slots
      per pulled block, and no slot at all when that product is not
      positive (Python's list repetition by a non-positive count). */
  function Slots(blocks: seq<Block>, samplesPerBlock: int): nat
  {
    var n := Times(|blocks|, samplesPerBlock);
    if n <= 0 then 0 else n
  }

  /** What `_extract_samples` does with a batch: the extraction when every
      sample finds a slot, or the `IndexError` of the first sample that
      finds none, with the error tally as it stood at the raise (its error
      bit is counted before the store fails). */
  datatype Decoding = Complete(extraction: Extraction) | NoSlotLeft(errors: nat)

  /** The outcome of `_extract_samples` on a batch. */
  function DecodeBatch(blocks: seq<Block>, lastSequence: int, samplesPerBlock: int, chipBase: int,
                       errorsBefore: nat): Decoding
  {
    if SampleCount(blocks) <= Slots(blocks, samplesPerBlock) then
      Complete(Extract(blocks, lastSequence, samplesPerBlock, chipBase, errorsBefore))
    else
      NoSlotLeft(errorsBefore + Flagged(BatchWords(blocks)[..Slots(blocks, samplesPerBlock) + 1]))
  }

  /** Samples beyond the preallocated slots make the batch raise; the tally
      at the raise counts the flagged samples up to and including the first
      sample without a slot. A batch that fits yields its samples in block
      order, its whole tally and the line-149 chip clock. */
  lemma DecodeBatchOutcome(blocks: seq<Block>, lastSequence: int, samplesPerBlock: int, chipBase: int,
                           errorsBefore: nat)
    ensures var r := DecodeBatch(blocks, lastSequence, samplesPerBlock, chipBase, errorsBefore);
      r.Complete? <==> SampleCount(blocks) <= Slots(blocks, samplesPerBlock)
    ensures SampleCount(blocks) <= Slots(blocks, samplesPerBlock) ==>
      DecodeBatch(blocks, lastSequence, samplesPerBlock, chipBase, errorsBefore)
        == Complete(Extraction(BatchSamples(blocks, lastSequence, samplesPerBlock, chipBase),
                               errorsBefore + |ErrorPositions(BatchWords(blocks))|,
                               ChipClock(blocks, lastSequence, samplesPerBlock)))
    ensures SampleCount(blocks) > Slots(blocks, samplesPerBlock) ==>
      DecodeBatch(blocks, lastSequence, samplesPerBlock, chipBase, errorsBefore)
        == NoSlotLeft(errorsBefore + |ErrorPositions(BatchWords(blocks)[..Slots(blocks, samplesPerBlock) + 1])|)
  {
    FlaggedCountsErrors(BatchWords(blocks));
    if SampleCount(blocks) > Slots(blocks, samplesPerBlock) {
      FlaggedCountsErrors(BatchWords(blocks)[..Slots(blocks, samplesPerBlock) + 1]);
    }
  }

  /** Under the microcontroller's pacing no sample ever lacks a slot. */
  lemma WellPacedFits(blocks: seq<Block>, lastSequence: int, samplesPerBlock: int)
    requires WellPaced(blocks, lastSequence, samplesPerBlock)
    ensures SampleCount(blocks) <= Slots(blocks, samplesPerBlock)
  {
    PacedCount(blocks, lastSequence, samplesPerBlock);
  }

  lemma {:induction false} PacedCount(blocks: seq<Block>, lastSequence: int, samplesPerBlock: int)
    requires WellPaced(blocks, lastSequence, samplesPerBlock)
    ensures SampleCount(blocks) <= Times(|blocks|, samplesPerBlock)
    decreases |blocks|
  {
    if |blocks| > 0 {
      PrefixWellPaced(blocks, lastSequence, samplesPerBlock);
      PacedCount(blocks[..|blocks| - 1], lastSequence, samplesPerBlock);
    }
  }

  /** The words of a prefix of the blocks open the words of the batch. */
  lemma {:induction false} BatchWordsPrefix(blocks: seq<Block>, k: int)
    requires 0 <= k <= |blocks|
    ensures SampleCount(blocks[..k]) <= SampleCount(blocks)
    ensures BatchWords(blocks[..k]) == BatchWords(blocks)[..SampleCount(blocks[..k])]
    decreases |blocks|
  {
    if k < |blocks| {
      var prefix := blocks[..|blocks| - 1];
      assert prefix[..k] == blocks[..k];
      BatchWordsPrefix(prefix, k);
    } else {
      assert blocks[..k] == blocks;
    }
  }

  /** When block `k` runs out of slots, the words decoded up to the raise
      are those of the earlier blocks and the first `room + 1` of block `k`,
      `room` being the slots left when block `k` began. */
  lemma OverflowWords(blocks: seq<Block>, k: int, slots: nat)
    requires 0 <= k < |blocks|
    requires SampleCount(blocks[..k]) <= slots < SampleCount(blocks[..k]) + |blocks[k].data| / BYTES_PER_SAMPLE
    ensures slots < SampleCount(blocks)
    ensures BatchWords(blocks)[..slots + 1]
         == BatchWords(blocks[..k]) + Words(blocks[k].data)[..slots - SampleCount(blocks[..k]) + 1]
  {
    var c := SampleCount(blocks[..k]);
    assert blocks[..k + 1][..k] == blocks[..k];
    var w := BatchWords(blocks[..k + 1]);
    assert w == BatchWords(blocks[..k]) + Words(blocks[k].data);
    BatchWordsPrefix(blocks, k + 1);
    assert BatchWords(blocks)[..slots + 1] == w[..slots + 1];
    assert w[..slots + 1] == BatchWords(blocks[..k]) + Words(blocks[k].data)[..slots - c + 1];
  }

  /** The tally at the raise when block `k` is the one that runs out of
      `slots`: the earlier blocks' flags plus block `k`'s up to the raise. */
  lemma OverflowTally(blocks: seq<Block>, k: int, slots: nat, errorsBefore: nat, errors: nat, flagged: nat)
    requires 0 <= k < |blocks|
    requires SampleCount(blocks[..k]) <= slots < SampleCount(blocks[..k]) + |blocks[k].data| / BYTES_PER_SAMPLE
    requires errors == errorsBefore + Flagged(BatchWords(blocks[..k]))
    requires flagged == Flagged(Words(blocks[k].data)[..slots - SampleCount(blocks[..k]) + 1])
    ensures slots < SampleCount(blocks)
    ensures errorsBefore + Flagged(BatchWords(blocks)[..slots + 1]) == errors + flagged
  {
    var head := BatchWords(blocks[..k]);
    var tail := Words(blocks[k].data)[..slots - SampleCount(blocks[..k]) + 1];
    OverflowWords(blocks, k, slots);
    FlaggedAppend(head, tail);
  }

  /** The outcome of a batch with more samples than slots. */
  lemma OverflowOutcome(blocks: seq<Block>, lastSequence: int, samplesPerBlock: int, chipBase: int,
                        errorsBefore: nat, slots: nat, errors: nat)
    requires slots == Slots(blocks, samplesPerBlock) < SampleCount(blocks)
    requires errors == errorsBefore + Flagged(BatchWords(blocks)[..slots + 1])
    ensures DecodeBatch(blocks, lastSequence, samplesPerBlock, chipBase, errorsBefore) == NoSlotLeft(errors)
  {
  }

  /** The outcome of a batch whose every sample found a slot, from the
      state the loops end in. */
  lemma CompleteOutcome(blocks: seq<Block>, lastSequence: int, samplesPerBlock: int, chipBase: int,
                        errorsBefore: nat, samples: seq<Sample>, errors: nat, seqNo: int, i: Option<int>)
    requires samples == BatchSamples(blocks, lastSequence, samplesPerBlock, chipBase)
    requires |samples| <= Slots(blocks, samplesPerBlock)
    requires errors == errorsBefore + Flagged(BatchWords(blocks))
    requires seqNo == FinalSequence(blocks, lastSequence) && i == LastIndex(blocks)
    ensures DecodeBatch(blocks, lastSequence, samplesPerBlock, chipBase, errorsBefore)
         == Complete(Extraction(samples, errors, if i.Some? then Some(seqNo * samplesPerBlock + i.value) else None))
  {
  }

  /** How the batch functions grow by one block. */
  lemma PrefixStep(blocks: seq<Block>, k: int, lastSequence: int, samplesPerBlock: int, chipBase: int)
    requires 0 <= k < |blocks|
    ensures BatchSamples(blocks[..k + 1], lastSequence, samplesPerBlock, chipBase)
      == BatchSamples(blocks[..k], lastSequence, samplesPerBlock, chipBase)
         + BlockSamples(Reconcile(lastSequence, blocks[k].sequence), blocks[k].data, samplesPerBlock, chipBase)
    ensures Flagged(BatchWords(blocks[..k + 1])) == Flagged(BatchWords(blocks[..k])) + Flagged(Words(blocks[k].data))
    ensures FinalSequence(blocks[..k + 1], lastSequence) == Reconcile(lastSequence, blocks[k].sequence)
    ensures LastIndex(blocks[..k + 1]) ==
      if |blocks[k].data| / BYTES_PER_SAMPLE == 0 then LastIndex(blocks[..k])
      else Some(|blocks[k].data| / BYTES_PER_SAMPLE - 1)
  {
    assert blocks[..k + 1][..k] == blocks[..k];
    FlaggedAppend(BatchWords(blocks[..k]), Words(blocks[k].data));
  }

  /** Sample `i` of a payload is read from bytes `4i..4i+3`, and the flag
      tally over the payload's first samples grows by its flag. */
  lemma WordStep(d: seq<byte>, i: int)
    requires 0 <= i < |d| / BYTES_PER_SAMPLE
    ensures 4 * i + 3 < |d|
    ensures Words(d)[i] == Word(d[4 * i], d[4 * i + 1], d[4 * i + 2], d[4 * i + 3])
    ensures Flagged(Words(d)[..i + 1]) == Flagged(Words(d)[..i]) + (if HasError(Words(d)[i]) then 1 else 0)
  {
    assert Words(d)[..i + 1][..i] == Words(d)[..i];
  }

  /** The decoded samples of a payload's first `i + 1` samples extend those
      of its first `i` by sample `i`. */
  lemma SampleStep(seqNo: int, d: seq<byte>, samplesPerBlock: int, chipBase: int, i: int)
    requires 0 <= i < |d| / BYTES_PER_SAMPLE
    ensures BlockSamples(seqNo, d, samplesPerBlock, chipBase)[..i + 1]
         == BlockSamples(seqNo, d, samplesPerBlock, chipBase)[..i]
            + [Sample(seqNo * samplesPerBlock - chipBase + i, Magnitude(Words(d)[i]))]
  {
  }

  /** The inner loop of `_extract_samples` over the whole samples of one
      payload: the decoded samples, how many were flagged, and the last
      value the loop variable `i` took (`None` when the loop did not run). */
  method DecodeBlock(seqNo: int, d: seq<byte>, samplesPerBlock: int, chipBase: int)
    returns (decoded: seq<Sample>, flagged: nat, lastI: Option<int>)
    ensures decoded == BlockSamples(seqNo, d, samplesPerBlock, chipBase)
    ensures flagged == Flagged(Words(d))
    ensures lastI == if |d| / BYTES_PER_SAMPLE == 0 then None else Some(|d| / BYTES_PER_SAMPLE - 1)
  {
    var msgChipDiff := seqNo * samplesPerBlock - chipBase;
    ghost var expected := BlockSamples(seqNo, d, samplesPerBlock, chipBase);
    decoded := [];
    flagged := 0;
    lastI := None;
    var i := 0;
    while i < |d| / BYTES_PER_SAMPLE
      invariant 0 <= i <= |d| / BYTES_PER_SAMPLE
      invariant decoded == expected[..i]
      invariant flagged == Flagged(Words(d)[..i])
      invariant lastI == if i == 0 then None else Some(i - 1)
    {
      WordStep(d, i);
      SampleStep(seqNo, d, samplesPerBlock, chipBase, i);
      var w := Word(d[4 * i], d[4 * i + 1], d[4 * i + 2], d[4 * i + 3]);
      if HasError(w) {
        flagged := flagged + 1;
      }
      decoded := decoded + [Sample(msgChipDiff + i, Magnitude(w))];
      lastI := Some(i);
      i := i + 1;
    }
    assert Words(d)[..i] == Words(d);
    assert expected[..i] == expected;
  }

  /** The inner loop on the payload that runs out of slots, `room` of them
      being free when it began: samples `0..room` have their error bits
      counted, and the store of sample `room` raises. The samples decoded
      before the raise are lost with it. */
  method FlagsUpToRaise(d: seq<byte>, room: nat) returns (flagged: nat)
    requires room < |d| / BYTES_PER_SAMPLE
    ensures flagged == Flagged(Words(d)[..room + 1])
  {
    flagged := 0;
    var i := 0;
    while i <= room
      invariant 0 <= i <= room + 1
      invariant flagged == Flagged(Words(d)[..i])
    {
      WordStep(d, i);
      var w := Word(d[4 * i], d[4 * i + 1], d[4 * i + 2], d[4 * i + 3]);
      if HasError(w) {
        flagged := flagged + 1;
      }
      i := i + 1;
    }
  }

  /** The loops of `_extract_samples` over the blocks that fit in the
      preallocated list: blocks are decoded whole, in order, while their
      samples fit in the `slots` still free. On return, either every block
      was decoded or block `k` is the first that does not fit. */
  method DecodeFittingBlocks(blocks: seq<Block>, lastSequence: int, samplesPerBlock: int, chipBase: int,
                             errorsBefore: nat, slots: nat)
    returns (k: nat, samples: seq<Sample>, errors: nat, seqNo: int, i: Option<int>)
    ensures k <= |blocks|
    ensures samples == BatchSamples(blocks[..k], lastSequence, samplesPerBlock, chipBase)
    ensures |samples| <= slots
    ensures errors == errorsBefore + Flagged(BatchWords(blocks[..k]))
    ensures seqNo == FinalSequence(blocks[..k], lastSequence)
    ensures i == LastIndex(blocks[..k])
    ensures k < |blocks| ==> slots < |samples| + |blocks[k].data| / BYTES_PER_SAMPLE
  {
    seqNo := 0;
    i := None;
    samples := [];
    errors := errorsBefore;
    k := 0;
    while k < |blocks| && |samples| + |blocks[k].data| / BYTES_PER_SAMPLE <= slots
      invariant 0 <= k <= |blocks|
      invariant samples == BatchSamples(blocks[..k], lastSequence, samplesPerBlock, chipBase)
      invariant |samples| <= slots
      invariant errors == errorsBefore + Flagged(BatchWords(blocks[..k]))
      invariant seqNo == FinalSequence(blocks[..k], lastSequence)
      invariant i == LastIndex(blocks[..k])
    {
      var d := blocks[k].data;
      seqNo := Reconcile(lastSequence, blocks[k].sequence);
      var decoded, flagged, blockI := DecodeBlock(seqNo, d, samplesPerBlock, chipBase);
      samples := samples + decoded;
      errors := errors + flagged;
      if blockI.Some? {
        i := blockI;
      }
      PrefixStep(blocks, k, lastSequence, samplesPerBlock, chipBase);
      k := k + 1;
    }
  }

  /** `_extract_samples`: every block reconciled against the same
      `lastSequence`, every whole sample decoded and stored in the next
      preallocated slot, the error tally bumped for each flagged sample, and
      the chip clock of line 149 computed from the final `seq` and `i`; or
      the raise of the first sample left without a slot, in the first block
      that does not fit. */
  method ExtractSamples(blocks: seq<Block>, lastSequence: int, samplesPerBlock: int, tr: Translation, errorsBefore: nat)
    returns (outcome: Decoding)
    ensures outcome == DecodeBatch(blocks, lastSequence, samplesPerBlock, tr.chipBase, errorsBefore)
  {
    var slots := Slots(blocks, samplesPerBlock);
    var k, samples, errors, seqNo, i := DecodeFittingBlocks(blocks, lastSequence, samplesPerBlock, tr.chipBase,
                                                          errorsBefore, slots);
    if k < |blocks| {
      var flagged := FlagsUpToRaise(blocks[k].data, slots - |samples|);
      OverflowTally(blocks, k, slots, errorsBefore, errors, flagged);
      OverflowOutcome(blocks, lastSequence, samplesPerBlock, tr.chipBase, errorsBefore, slots, errors + flagged);
      return NoSlotLeft(errors + flagged);
    }
    assert blocks[..k] == blocks;
    CompleteOutcome(blocks, lastSequence, samplesPerBlock, tr.chipBase, errorsBefore, samples, errors, seqNo, i);
    var chipClock := if i.Some? then Some(seqNo * samplesPerBlock + i.value) else None;
    return Complete(Extraction(samples, errors, chipClock));
  }
}
