# LDC1612 host driver: sample decoding and register protocol

A Dafny model of the pure logic of Klipper's LDC1612 inductance-sensor
driver (`klippy/extras/ldc1612.py`). The chip streams 4-byte frequency
samples in blocks that a microcontroller tags with a wrapping 16-bit
sequence number. The host driver has four jobs, and the model covers each:

- lift each block's sequence number to a full index;
- decode every sample's error nibble and 28-bit magnitude;
- place every sample at its chip index and count errors;
- program and identify the chip over I2C with two-byte register reads and
  writes, and calibrate the drive current.

Modules:

- `Wrappers` (`wrappers.dfy`): `Option` and `Result`.
- `Device` (`device.dfy`): register numbers and identity values.
  - `ReadReg`/`SetReg` are the big-endian register packing.
  - `Command` is one step of a trace of what the driver asks of the bus and
    the microcontroller.
  - `ApplyWrites` and `Streaming` give the effect of a trace on the chip's
    registers and on polling.
- `SequenceReconciler` (`sequence.dfy`): `Reconcile`, the signed 16-bit
  distance lift, and the window it always lands in.
- `SampleDecoder` (`samples.dfy`): the sample format (`Magnitude`,
  `HasError`, and the encoder `EncodeWord` they invert).
  - `BatchSamples`, `BatchWords`, `Flagged` and `ChipClock` are reference
    definitions of a batch's outcome.
  - `DecodeBatch` adds the preallocated sample list. A batch with more
    samples than its slots raises `IndexError` at the first sample
    without a slot.
  - `ExtractSamples`/`DecodeBlock` are the loop-for-loop implementation
    of `_extract_samples`, proved equal to `DecodeBatch`.
- `Session` (`session.dfy`): `_start_measurements` as a trace-returning step
  with a typed identity error.
  - `_finish_measurements`.
  - `_process_batch`, both as written and corrected (see Findings).
- `DriveCurrent` (`drive.dfy`): the `reg_drive_current` option and the
  `LDC_CALIBRATE_DRIVE_CURRENT` procedure.

Bytes are the integers 0..255. The source's `>>`, `<<`, `&` and `|` on
Python integers are written as floor division, multiplication, non-negative
remainder and sums of disjoint fields. For a positive divisor, Dafny's `/`
and `%` agree with Python's. Floats are replaced by exact values:

- a sample keeps the chip offset and magnitude its time and frequency are
  computed from;
- `SampleTime` and `Frequency` give the exact rationals.

Collaborators outside this file are parameters:

- `last_sequence`, from the chip clock updater;
- the clock translation `(time_base, chip_base, inv_freq)`, from the clock
  regression;
- the overflow count;
- the pulled blocks;
- the register responses;
- `rest_ticks`;
- `SAMPLES_PER_BLOCK`, which depends on `MAX_BULK_MSG_SIZE`.

Behaviour of the code the model keeps deliberately:

- Every block of a batch is reconciled against the same `last_sequence`.
  It is not reconciled against the previous block's result.
- A block's chip index uses the constant `SAMPLES_PER_BLOCK`, not that
  block's own sample count.
- A non-empty pull with no whole sample raises. It does not return an empty
  result.
- Trailing bytes short of a sample are ignored. They are not rejected.
- If the final block is empty, the chip clock at line 149 combines the final
  block's `seq` with the `i` left over from an earlier block. `ChipClock`
  models this as written.

## Model

| member | source | states |
|---|---|---|
| Device.ReadReg | klippy/extras/ldc1612.py:117-120 | the register value is in [0, 65535], its high byte is the first response byte and its low byte the second |
| Device.SetReg | klippy/extras/ldc1612.py:121-123 | the message is `[reg, hi, lo]` and its two data bytes, packed as `read_reg` packs them, give the value modulo 2^16 (also for out-of-range or negative values) |
| Device.PackingRoundTrip | klippy/extras/ldc1612.py:117-123 | `(val >> 8) & 0xff` and `val & 0xff` recombine to the low 16 bits of `val` |
| Device.SetRegThenReadReg | klippy/extras/ldc1612.py:117-123 | every value in [0, 65535] survives `set_reg` followed by `read_reg` unchanged |
| SequenceReconciler.Reconcile | klippy/extras/ldc1612.py:136-138 | the reconciled index is congruent to the 16-bit sequence modulo 65536 and lies within [-32768, 32767] of `last_sequence` |
| SequenceReconciler.ReconcileUnique | klippy/extras/ldc1612.py:136-138 | any index with those two properties is the reconciled one, so the window holds exactly one lifting |
| SequenceReconciler.ReconcileRecovers | klippy/extras/ldc1612.py:136-138 | an index that moved less than half the counter range from `last_sequence`, either way and across wraps, is recovered from its low 16 bits |
| SequenceReconciler.ReconcileExamples | klippy/extras/ldc1612.py:136-138 | a sequence equal to `last_sequence` mod 65536 gives `last_sequence`; 65535 then 2 steps forward by 3; a step back below zero stays negative |
| SampleDecoder.Magnitude | klippy/extras/ldc1612.py:145 | the decoded magnitude is in [0, 2^28) |
| SampleDecoder.Frequency | klippy/extras/ldc1612.py:146-147 | the exact frequency `val * 12000000 / 2^28` is in [0, 12 MHz) |
| SampleDecoder.FrequencyProportional | klippy/extras/ldc1612.py:147 | the exact frequency is the magnitude times 12 MHz / 2^28, so a larger magnitude always gives a larger frequency and distinct magnitudes give distinct frequencies |
| SampleDecoder.DecodeEncode | klippy/extras/ldc1612.py:143-145 | decoding the bytes of any magnitude and error nibble gives back the magnitude whatever the nibble, and flags an error exactly when the nibble is non-zero |
| SampleDecoder.EncodeDecode | klippy/extras/ldc1612.py:143-145 | every 4-byte sample is the encoding of its top nibble and its decoded magnitude, so the decoder drops nothing else |
| SampleDecoder.Words | klippy/extras/ldc1612.py:141-142 | a payload yields `len(d) // 4` samples, sample `i` being bytes `4i..4i+3`; trailing bytes are ignored |
| SampleDecoder.BlockSamples | klippy/extras/ldc1612.py:140-147 | a block contributes one sample per whole 4-byte word |
| SampleDecoder.BatchWords | klippy/extras/ldc1612.py:135-142 | the raw words of a batch number the sum over blocks of `len(data) // 4` |
| SampleDecoder.BatchSamples | klippy/extras/ldc1612.py:134-148 | a batch emits exactly the sum over blocks of `len(data) // 4` samples; none is dropped for an error |
| SampleDecoder.FlaggedCountsErrors | klippy/extras/ldc1612.py:143-144 | the error tally equals the number of positions whose byte 0 has a non-zero top nibble |
| SampleDecoder.SamplesInBlockOrder | klippy/extras/ldc1612.py:135-148 | sample `i` of block `k` is entry `SampleCount(blocks[..k]) + i`: it is decoded from that block's bytes `4i..4i+3`, at chip offset `seq*SAMPLES_PER_BLOCK - chip_base + i`, with `seq` reconciled against the batch's single `last_sequence` |
| SampleDecoder.ChipClockBoundIffSamples | klippy/extras/ldc1612.py:141-149 | line 149 finds `i` bound exactly when the batch held at least one whole sample |
| SampleDecoder.ChipClockOfFinalBlock | klippy/extras/ldc1612.py:149 | when the final block holds `n > 0` samples, the recorded chip clock is `seq*SAMPLES_PER_BLOCK + n - 1`, the chip index of the batch's last sample |
| SampleDecoder.OffsetsIncrease | klippy/extras/ldc1612.py:138-146 | when blocks hold at most `SAMPLES_PER_BLOCK` samples and reconcile to increasing sequences, chip offsets strictly increase through the batch |
| SampleDecoder.TimesNonDecreasing | klippy/extras/ldc1612.py:146 | under that pacing and a non-negative `inv_freq`, the exact sample times never go backwards |
| SampleDecoder.DecodeBatchOutcome | klippy/extras/ldc1612.py:134-149 | a batch completes exactly when its samples fit in the `len(raw_samples) * SAMPLES_PER_BLOCK` preallocated slots (none for a non-positive product). A complete batch gives the reference samples, tally and chip clock. Otherwise it raises, and the tally counts the flagged samples up to and including the first sample without a slot |
| SampleDecoder.WellPacedFits | klippy/extras/ldc1612.py:134-147 | when no block holds more than `SAMPLES_PER_BLOCK` samples, every sample of the batch finds a slot |
| SampleDecoder.OverflowTally | klippy/extras/ldc1612.py:141-147 | when block `k` is the one that runs out of slots, the batch really does overflow, and the tally over the batch up to the first sample without a slot is the earlier blocks' flagged count plus block `k`'s flags up to that sample |
| SampleDecoder.DecodeBlock | klippy/extras/ldc1612.py:140-148 | the inner loop over one block decodes exactly the reference samples of that block, in order, counts exactly its flagged samples, and leaves `i` at the block's last sample index, unbound if no iteration ran |
| SampleDecoder.FlagsUpToRaise | klippy/extras/ldc1612.py:141-147 | on the block that runs out of slots, the loop counts the flags of its samples up to and including the one without a slot, where the store raises |
| SampleDecoder.DecodeFittingBlocks | klippy/extras/ldc1612.py:135-148 | the outer loop over the blocks whose samples all fit leaves the reference samples, flag tally, final `seq` and `i` of those blocks, never more samples than slots, and stops either at the end of the batch or at a block with more samples than the slots left |
| SampleDecoder.ExtractSamples | klippy/extras/ldc1612.py:127-151 | the nested loops, whole blocks while they fit and then the overflowing block up to its raise, produce the reference samples in order, the error count plus the flagged samples and the line-149 chip clock. A sample left without a slot raises instead, with the tally as it stood at that point |
| DriveCurrent.ConfiguredDriveCurrent | klippy/extras/ldc1612.py:42-43 | an absent option gives 15; a given one is accepted exactly when it is in [0, 31], and then unchanged |
| DriveCurrent.DriveCurrentRegister | klippy/extras/ldc1612.py:173 | a drive current in [0, 31] shifted left by 11 fits 16 bits, with the current in bits 11..15 and zeros below |
| DriveCurrent.DriveCurrentRoundTrip | klippy/extras/ldc1612.py:173 | the DRIVE_CURRENT0 value written at start, read back, gives the configured current in bits 11..15 |
| DriveCurrent.InitDriveField | klippy/extras/ldc1612.py:70 | the calibrated drive current `(reg >> 6) & 0x1f` is in [0, 31] |
| DriveCurrent.InitDriveFieldRoundTrip | klippy/extras/ldc1612.py:70 | the extraction returns whatever value sits in bits 6..10, whatever the other bits hold |
| DriveCurrent.Calibrate | klippy/extras/ldc1612.py:53-70 | calibration reads CONFIG, writes 0x0201 to CONFIG, reads DRIVE_CURRENT0, and ends by writing CONFIG back with the value it read first. The reported value is in [0, 31] and is the drive field of the DRIVE_CURRENT0 response |
| DriveCurrent.CalibrationReportsField | klippy/extras/ldc1612.py:64-70 | the reported value is whatever the response holds in bits 6..10, whatever its other bits hold |
| DriveCurrent.CalibrationRestoresConfig | klippy/extras/ldc1612.py:61-67 | CONFIG holds 0x0201 while DRIVE_CURRENT0 is read; afterwards every register holds what it held before, and polling is unchanged |
| DriveCurrent.CalibratedValueIsConfigurable | klippy/extras/ldc1612.py:70-76 | the reported value is accepted as `reg_drive_current` and its start-up register value does not overflow 16 bits |
| Session.RoundHalfUp | klippy/extras/ldc1612.py:165-168 | `int(x + 0.5)` of a non-negative rational is the nearest integer, halves rounded up |
| Session.TimingRegisters | klippy/extras/ldc1612.py:165-168 | RCOUNT0 is 3049 and SETTLECOUNT0 is 3750 for the 250 Hz rate and 5 ms settle time |
| Session.StartMeasurements | klippy/extras/ldc1612.py:153-181 | start reads both ids first. It fails exactly when either differs from 0x5449/0x3055. A failure reports the observed and expected pairs, issues no write and no streaming command, and leaves the state alone. A success resets the error count to 0 |
| Session.StartEffects | klippy/extras/ldc1612.py:164-177 | a successful start programs each of the eight registers with its intended value and leaves the others untouched, and polling is on exactly when `rest_ticks` is non-zero. A failed start changes no register and no polling state |
| Session.ConfigApplied | klippy/extras/ldc1612.py:166-173 | the eight writes in order leave the register file equal to the programmed configuration |
| Session.TimingWrites | klippy/extras/ldc1612.py:166-168 | after the identity reads, the RCOUNT0, OFFSET0 and SETTLECOUNT0 writes store 3049, 0 and 3750 |
| Session.ModeWrites | klippy/extras/ldc1612.py:169-173 | the clock-divider, error-config, mux, config and drive-current writes store 0x1001, 0xf801, 0x020d, 0x1601 and the drive value |
| Session.FinishMeasurements | klippy/extras/ldc1612.py:182-186 | stopping leaves polling off from any state and writes no register |
| Session.ProcessBatch | klippy/extras/ldc1612.py:187-196 | raises `IndexError` exactly when the pull holds more samples than the preallocated slots, leaving the error count bumped by the flags up to the raise. Otherwise: it publishes nothing exactly when the pull holds no whole sample, and else the batch's samples, the cumulative error count and the overflow count. The error count grows by exactly the number of flagged samples. The recorded chip clock is line 149's `seq * SAMPLES_PER_BLOCK + i`, present exactly when a sample was decoded |
| Session.ProcessBatchAsWritten | klippy/extras/ldc1612.py:187-196 | the code as written fails exactly on a non-empty pull that holds no whole sample (unbound `i`) or more samples than its slots (`IndexError`). It agrees with the corrected batch step on every pull except the first kind |
| Session.OversizedBlockRaises | klippy/extras/ldc1612.py:134-147 | with one slot per block, a block of two samples raises `IndexError` on its second sample |
| Session.WellPacedBatchSucceeds | klippy/extras/ldc1612.py:134-147 | under the microcontroller's pacing the corrected batch step never raises |
| Session.EmptyBlockPullRaises | klippy/extras/ldc1612.py:149 | a pull of one empty block raises as written, while the corrected step publishes nothing and keeps the state |
| Session.RestartForgetsErrors | klippy/extras/ldc1612.py:181 | after a successful start, the error count a batch leaves counts only that batch's flagged samples, or those up to the raise when it runs out of slots |

## Findings

| source | as written | input that shows it | evidently intended | confidence | as-written member | corrected member |
|---|---|---|---|---|---|---|
| klippy/extras/ldc1612.py:149 | `i` is only bound inside the per-sample loop. When a non-empty pull has no block holding 4 or more bytes, line 149 raises `UnboundLocalError`, so the `if not samples: return {}` at lines 193-194 can never run | `raw_samples = [{'sequence': 0, 'data': b''}]` | publish nothing (`{}`) and record no chip clock | medium, not executed; depends on the transport ever delivering such a block | Session.ProcessBatchAsWritten | Session.ProcessBatch |

## Left out

- Float rounding: timestamps are rounded to 6 decimals and frequencies to 3. The model keeps the exact chip offset and magnitude, and gives exact times and frequencies.
- `rcount0` and the settle count are computed in float arithmetic. The model rounds the exact rationals half up, and for these constants gives the same integers.
- `rest_ticks` comes from `mcu.seconds_to_clock`. It is a parameter.
- Clock regression, chip clock updater, bulk queue and batch helper: they live in `bulk_sensor`, which is not part of this model. Their results are parameters: `last_sequence`, the translation, the overflow count and the pulled blocks. Their side effects are trace commands: `ClearSamples`, `NoteStart`, and the recorded chip clock.
- Transport and MCU setup: the I2C transport, MCU command lookup (`_build_config`), configuration commands in `__init__`, and the `minclock` argument of `set_reg`, which is always 0 here. These are I/O.
- Calibration glue: the subscriber registration around calibration (`add_client` and the `is_in_progress` callback), toolhead dwell and waits, G-code registration, `respond_info`, `configfile.set` and logging. These are glue with no decoding logic.
- SampleDecoder.TimesNonDecreasing: proved only under `WellPaced`, meaning at most `SAMPLES_PER_BLOCK` samples per block and increasing reconciled sequences. The host code checks neither condition per block. A batch whose total exceeds its slots raises at line 147, and that is modelled.
