/** The measurement session of the `LDC1612` class: start (identity check,
    register programming, streaming on), stop, and the periodic batch pull
    that decodes raw blocks and reports them. The clock tracking, the bulk
    queue and the microcontroller transport are outside the model: their
    outputs (`lastSequence`, the clock translation, the overflow count, the
    pulled blocks, the register responses, `rest_ticks`) are parameters. */
module Session {
  import opened Wrappers
  import opened Device
  import opened SampleDecoder
  import DriveCurrent

  /** The sample rate the driver asks of the chip, in Hz. */
  const DATA_RATE := 250
  /** SETTLETIME, 0.005 s, as an exact fraction. */
  const SETTLETIME_NUM := 5
  const SETTLETIME_DEN := 1000
  const DEGLITCH := 0x05
  const CLOCK_DIVIDERS := 0x1001      // (1 << 12) | 1
  const ERROR_CONFIG := 0xf801        // (0x1f << 11) | 1
  const MUX_CONFIG := 0x0208 + DEGLITCH
  const CONFIG_ACTIVE := 0x1601       // 0x001 | (1 << 12) | (1 << 10) | (1 << 9)

  /** `int(x + 0.5)` for the non-negative rational `x = num / den`: the
      integer nearest to `x`, halves rounded up. */
  function RoundHalfUp(num: int, den: int): (r: int)
    requires num >= 0 && den > 0
    ensures 2 * den * r <= 2 * num + den < 2 * den * (r + 1)
  {
    var q := (2 * num + den) / (2 * den);
    assert 2 * num + den == q * (2 * den) + (2 * num + den) % (2 * den);
    q
  }

  /** RCOUNT0 for the data rate: `LDC1612_FREQ / (16 * (data_rate - 4))`,
      rounded. */
  function RCount0(): int
  {
    RoundHalfUp(LDC1612_FREQ, 16 * (DATA_RATE - 4))
  }

  /** SETTLECOUNT0 for the settle time: `SETTLETIME * LDC1612_FREQ / 16`,
      rounded. */
  function SettleCount0(): int
  {
    RoundHalfUp(SETTLETIME_NUM * LDC1612_FREQ, SETTLETIME_DEN * 16)
  }

  /** The timing registers take their nearest-integer values, 3049 and 3750,
      both within the 16-bit registers. */
  lemma TimingRegisters()
    ensures RCount0() == 3049 && SettleCount0() == 3750
  {
  }

  /** The register writes of a start, in order. */
  function ConfigWrites(driveCurrent: int): seq<Command>
  {
    [ I2cWrite(SetReg(REG_RCOUNT0, RCount0())),
      I2cWrite(SetReg(REG_OFFSET0, 0)),
      I2cWrite(SetReg(REG_SETTLECOUNT0, SettleCount0())),
      I2cWrite(SetReg(REG_CLOCK_DIVIDERS0, CLOCK_DIVIDERS)),
      I2cWrite(SetReg(REG_ERROR_CONFIG, ERROR_CONFIG)),
      I2cWrite(SetReg(REG_MUX_CONFIG, MUX_CONFIG)),
      I2cWrite(SetReg(REG_CONFIG, CONFIG_ACTIVE)),
      I2cWrite(SetReg(REG_DRIVE_CURRENT0, driveCurrent * DriveCurrent.IDRIVE_UNIT)) ]
  }

  /** What the chip's registers must hold once a start has programmed it. */
  function Programmed(driveCurrent: int): map<byte, int>
    requires 0 <= driveCurrent <= DriveCurrent.DRIVECUR_MAX
  {
    map[REG_RCOUNT0 := 3049, REG_OFFSET0 := 0, REG_SETTLECOUNT0 := 3750,
        REG_CLOCK_DIVIDERS0 := 0x1001, REG_ERROR_CONFIG := 0xf801,
        REG_MUX_CONFIG := 0x020d, REG_CONFIG := 0x1601,
        REG_DRIVE_CURRENT0 := DriveCurrent.DriveCurrentRegister(driveCurrent)]
  }

  /** The host-side state the driver keeps across batches. */
  datatype Sensor = Sensor(lastErrorCount: nat)

  /** The fatal configuration error of a failed identity check, naming the
      identity read and the identity expected. */
  datatype StartError = InvalidId(manufId: int, devId: int, expectedManufId: int, expectedDevId: int)

  /** The commands a start issued, the resulting state, and its error. */
  datatype Start = Start(trace: seq<Command>, sensor: Sensor, error: Option<StartError>)

  /** `_start_measurements`. The responses are what the chip returned to
      the two identity reads; `driveCurrent` is the configured drive
      current; `restTicks` is the polling interval in microcontroller
      ticks. */
  function StartMeasurements(sensor: Sensor, manufResponse: seq<byte>, devResponse: seq<byte>,
                             driveCurrent: int, restTicks: int): (r: Start)
    requires |manufResponse| >= 2 && |devResponse| >= 2
    ensures |r.trace| >= 2 && r.trace[..2] == [I2cRead(REG_MANUFACTURER_ID), I2cRead(REG_DEVICE_ID)]
    ensures r.error.Some? <==>
      ReadReg(manufResponse) != LDC1612_MANUF_ID || ReadReg(devResponse) != LDC1612_DEV_ID
    ensures r.error.Some? ==>
      && r.error.value == InvalidId(ReadReg(manufResponse), ReadReg(devResponse), LDC1612_MANUF_ID, LDC1612_DEV_ID)
      && ReadsOnly(r.trace)
      && r.sensor == sensor
    ensures r.error.None? ==> r.sensor.lastErrorCount == 0 && NoteStart in r.trace
  {
    var manufId := ReadReg(manufResponse);
    var devId := ReadReg(devResponse);
    var identityReads := [I2cRead(REG_MANUFACTURER_ID), I2cRead(REG_DEVICE_ID)];
    if manufId != LDC1612_MANUF_ID || devId != LDC1612_DEV_ID then
      Start(identityReads, sensor, Some(InvalidId(manufId, devId, LDC1612_MANUF_ID, LDC1612_DEV_ID)))
    else
      Start(identityReads + ConfigWrites(driveCurrent) + [ClearSamples, Query(restTicks, false), NoteStart],
            Sensor(0), None)
  }

  /** A start that passes the identity check leaves every register it
      programs holding its intended value (for a configured drive current,
      the others untouched) and the microcontroller polling exactly when the
      rest interval is non-zero; one that fails changes neither. */
  lemma StartEffects(regs: map<byte, int>, wasStreaming: bool, sensor: Sensor,
                     manufResponse: seq<byte>, devResponse: seq<byte>, driveCurrent: int, restTicks: int)
    requires |manufResponse| >= 2 && |devResponse| >= 2
    requires 0 <= driveCurrent <= DriveCurrent.DRIVECUR_MAX
    ensures var r := StartMeasurements(sensor, manufResponse, devResponse, driveCurrent, restTicks);
      r.error.None? ==>
        && ApplyWrites(regs, r.trace) == regs + Programmed(driveCurrent)
        && Streaming(wasStreaming, r.trace) == (restTicks != 0)
    ensures var r := StartMeasurements(sensor, manufResponse, devResponse, driveCurrent, restTicks);
      r.error.Some? ==>
        && ApplyWrites(regs, r.trace) == regs
        && Streaming(wasStreaming, r.trace) == wasStreaming
  {
    var r := StartMeasurements(sensor, manufResponse, devResponse, driveCurrent, restTicks);
    if r.error.Some? {
      ReadsOnlyChangeNothing(regs, wasStreaming, r.trace);
    } else {
      var t := r.trace;
      assert |t| == 13;
      ConfigApplied(regs, t, driveCurrent);
      NonWriteStep(regs, t, 10);
      NonWriteStep(regs, t, 11);
      NonWriteStep(regs, t, 12);
      assert t[..13] == t;
      assert t[..12][..11] == t[..11];
      assert Streaming(wasStreaming, t[..12]) == (restTicks != 0);
    }
  }

  /** One more command that writes an in-range value updates exactly that
      register. */
  lemma WriteStep(regs: map<byte, int>, t: seq<Command>, k: int, reg: byte, val: int)
    requires 0 <= k < |t| && t[k] == I2cWrite(SetReg(reg, val)) && 0 <= val < 0x10000
    ensures ApplyWrites(regs, t[..k + 1]) == ApplyWrites(regs, t[..k])[reg := val]
  {
    assert t[..k + 1][..k] == t[..k];
  }

  /** A command other than a write leaves the register file as it was. */
  lemma NonWriteStep(regs: map<byte, int>, t: seq<Command>, k: int)
    requires 0 <= k < |t| && !t[k].I2cWrite?
    ensures ApplyWrites(regs, t[..k + 1]) == ApplyWrites(regs, t[..k])
  {
    assert t[..k + 1][..k] == t[..k];
  }

  /** The register file after the identity reads and the eight writes. */
  lemma ConfigApplied(regs: map<byte, int>, t: seq<Command>, driveCurrent: int)
    requires 0 <= driveCurrent <= DriveCurrent.DRIVECUR_MAX
    requires |t| >= 10
    requires t[..10] == [I2cRead(REG_MANUFACTURER_ID), I2cRead(REG_DEVICE_ID)] + ConfigWrites(driveCurrent)
    ensures ApplyWrites(regs, t[..10]) == regs + Programmed(driveCurrent)
  {
    TimingRegisters();
    assert t[0] == t[..10][0] && t[1] == t[..10][1] && t[2] == t[..10][2] && t[3] == t[..10][3]
        && t[4] == t[..10][4];
    assert t[5] == t[..10][5] && t[6] == t[..10][6] && t[7] == t[..10][7] && t[8] == t[..10][8]
        && t[9] == t[..10][9];
    TimingWrites(regs, t);
    ModeWrites(regs, t, DriveCurrent.DriveCurrentRegister(driveCurrent));
    ProgrammedIsUpdates(regs, driveCurrent);
  }

  /** The identity reads, then RCOUNT0, OFFSET0 and SETTLECOUNT0. */
  lemma TimingWrites(regs: map<byte, int>, t: seq<Command>)
    requires |t| >= 5 && t[0].I2cRead? && t[1].I2cRead?
    requires t[2] == I2cWrite(SetReg(REG_RCOUNT0, 3049))
    requires t[3] == I2cWrite(SetReg(REG_OFFSET0, 0))
    requires t[4] == I2cWrite(SetReg(REG_SETTLECOUNT0, 3750))
    ensures ApplyWrites(regs, t[..5]) == regs[REG_RCOUNT0 := 3049][REG_OFFSET0 := 0][REG_SETTLECOUNT0 := 3750]
  {
    assert t[..0] == [];
    NonWriteStep(regs, t, 0);
    NonWriteStep(regs, t, 1);
    WriteStep(regs, t, 2, REG_RCOUNT0, 3049);
    WriteStep(regs, t, 3, REG_OFFSET0, 0);
    WriteStep(regs, t, 4, REG_SETTLECOUNT0, 3750);
  }

  /** CLOCK_DIVIDERS0, ERROR_CONFIG, MUX_CONFIG, CONFIG and DRIVE_CURRENT0. */
  lemma ModeWrites(regs: map<byte, int>, t: seq<Command>, driveRegister: int)
    requires |t| >= 10 && 0 <= driveRegister < 0x10000
    requires t[5] == I2cWrite(SetReg(REG_CLOCK_DIVIDERS0, CLOCK_DIVIDERS))
    requires t[6] == I2cWrite(SetReg(REG_ERROR_CONFIG, ERROR_CONFIG))
    requires t[7] == I2cWrite(SetReg(REG_MUX_CONFIG, MUX_CONFIG))
    requires t[8] == I2cWrite(SetReg(REG_CONFIG, CONFIG_ACTIVE))
    requires t[9] == I2cWrite(SetReg(REG_DRIVE_CURRENT0, driveRegister))
    ensures ApplyWrites(regs, t[..10])
         == ApplyWrites(regs, t[..5])[REG_CLOCK_DIVIDERS0 := CLOCK_DIVIDERS][REG_ERROR_CONFIG := ERROR_CONFIG]
              [REG_MUX_CONFIG := MUX_CONFIG][REG_CONFIG := CONFIG_ACTIVE][REG_DRIVE_CURRENT0 := driveRegister]
  {
    WriteStep(regs, t, 5, REG_CLOCK_DIVIDERS0, CLOCK_DIVIDERS);
    WriteStep(regs, t, 6, REG_ERROR_CONFIG, ERROR_CONFIG);
    WriteStep(regs, t, 7, REG_MUX_CONFIG, MUX_CONFIG);
    WriteStep(regs, t, 8, REG_CONFIG, CONFIG_ACTIVE);
    WriteStep(regs, t, 9, REG_DRIVE_CURRENT0, driveRegister);
  }

  lemma ProgrammedIsUpdates(regs: map<byte, int>, driveCurrent: int)
    requires 0 <= driveCurrent <= DriveCurrent.DRIVECUR_MAX
    ensures regs + Programmed(driveCurrent)
         == regs[REG_RCOUNT0 := 3049][REG_OFFSET0 := 0][REG_SETTLECOUNT0 := 3750]
                [REG_CLOCK_DIVIDERS0 := CLOCK_DIVIDERS][REG_ERROR_CONFIG := ERROR_CONFIG]
                [REG_MUX_CONFIG := MUX_CONFIG][REG_CONFIG := CONFIG_ACTIVE]
                [REG_DRIVE_CURRENT0 := DriveCurrent.DriveCurrentRegister(driveCurrent)]
  {
    var a := regs + Programmed(driveCurrent);
    var b := regs[REG_RCOUNT0 := 3049][REG_OFFSET0 := 0][REG_SETTLECOUNT0 := 3750]
               [REG_CLOCK_DIVIDERS0 := CLOCK_DIVIDERS][REG_ERROR_CONFIG := ERROR_CONFIG]
               [REG_MUX_CONFIG := MUX_CONFIG][REG_CONFIG := CONFIG_ACTIVE]
               [REG_DRIVE_CURRENT0 := DriveCurrent.DriveCurrentRegister(driveCurrent)];
    assert a.Keys == b.Keys;
    forall k | k in a
      ensures a[k] == b[k]
    {
    }
  }

  /** `_finish_measurements`: halt polling (waiting for the acknowledgement)
      and drop whatever the bulk queue still holds. */
  function FinishMeasurements(): (trace: seq<Command>)
    ensures forall wasStreaming: bool :: !Streaming(wasStreaming, trace)
    ensures forall regs: map<byte, int> :: ApplyWrites(regs, trace) == regs
  {
    [Query(0, true), ClearSamples]
  }

  /** What a batch publishes: nothing, or the samples with the cumulative
      error count and the overflow count. */
  datatype Batch = NoData | Data(samples: seq<Sample>, errors: nat, overflows: nat)

  /** A batch's state change, report, and the chip clock it hands to the
      clock tracking (`None`: nothing recorded). */
  datatype BatchStep = BatchStep(sensor: Sensor, batch: Batch, chipClock: Option<int>)

  /** Raised while decoding a batch: `i` never bound at line 149, or a
      sample left without a preallocated slot at line 147 (`IndexError`),
      the latter after the error tally held in `sensor` was bumped. */
  datatype BatchError = UnboundSampleIndex | SampleIndexError(sensor: Sensor)

  /** `_process_batch` with the unbound-`i` crash corrected: a pull with no
      whole sample publishes nothing and records no chip clock. A batch
      larger than the preallocated list still raises, as it does in the
      code as written. */
  function ProcessBatch(sensor: Sensor, pulled: seq<Block>, lastSequence: int, samplesPerBlock: int,
                        tr: Translation, overflows: nat): (r: Result<BatchStep, BatchError>)
    ensures r.Failure? <==> SampleCount(pulled) > Slots(pulled, samplesPerBlock)
    ensures SampleCount(pulled) > Slots(pulled, samplesPerBlock) ==>
      r.error == SampleIndexError(Sensor(sensor.lastErrorCount
                                         + |ErrorPositions(BatchWords(pulled)[..Slots(pulled, samplesPerBlock) + 1])|))
    ensures r.Success? ==>
      && (r.value.batch.NoData? <==> SampleCount(pulled) == 0)
      && r.value.chipClock == ChipClock(pulled, lastSequence, samplesPerBlock)
      && (r.value.chipClock.Some? <==> SampleCount(pulled) > 0)
      && r.value.sensor.lastErrorCount == sensor.lastErrorCount + |ErrorPositions(BatchWords(pulled))|
    ensures r.Success? && r.value.batch.Data? ==>
      && r.value.batch.samples == BatchSamples(pulled, lastSequence, samplesPerBlock, tr.chipBase)
      && |r.value.batch.samples| == SampleCount(pulled)
      && r.value.batch.errors == r.value.sensor.lastErrorCount
      && r.value.batch.overflows == overflows
  {
    FlaggedCountsErrors(BatchWords(pulled));
    ChipClockBoundIffSamples(pulled, lastSequence, samplesPerBlock);
    DecodeBatchOutcome(pulled, lastSequence, samplesPerBlock, tr.chipBase, sensor.lastErrorCount);
    if |pulled| == 0 then Success(BatchStep(sensor, NoData, None))
    else
      match DecodeBatch(pulled, lastSequence, samplesPerBlock, tr.chipBase, sensor.lastErrorCount)
      case NoSlotLeft(errors) => Failure(SampleIndexError(Sensor(errors)))
      case Complete(x) =>
        var next := Sensor(x.errors);
        if |x.samples| == 0 then Success(BatchStep(next, NoData, x.chipClock))
        else Success(BatchStep(next, Data(x.samples, x.errors, overflows), x.chipClock))
  }

  /** `_process_batch` as written: a non-empty pull none of whose blocks
      holds a whole sample reaches line 149 with `i` unbound and raises, so
      the `if not samples: return {}` branch is never taken. Every other
      pull fares as in the corrected step. */
  function ProcessBatchAsWritten(sensor: Sensor, pulled: seq<Block>, lastSequence: int, samplesPerBlock: int,
                                 tr: Translation, overflows: nat): (r: Result<BatchStep, BatchError>)
    ensures r.Failure? <==>
      |pulled| > 0 && (SampleCount(pulled) == 0 || SampleCount(pulled) > Slots(pulled, samplesPerBlock))
    ensures |pulled| > 0 && SampleCount(pulled) == 0 ==> r == Failure(UnboundSampleIndex)
    ensures !(|pulled| > 0 && SampleCount(pulled) == 0) ==>
      r == ProcessBatch(sensor, pulled, lastSequence, samplesPerBlock, tr, overflows)
  {
    ChipClockBoundIffSamples(pulled, lastSequence, samplesPerBlock);
    if |pulled| == 0 then Success(BatchStep(sensor, NoData, None))
    else
      match DecodeBatch(pulled, lastSequence, samplesPerBlock, tr.chipBase, sensor.lastErrorCount)
      case NoSlotLeft(errors) => Failure(SampleIndexError(Sensor(errors)))
      case Complete(x) =>
        match x.chipClock
        case None => Failure(UnboundSampleIndex)
        case Some(_) =>
          var next := Sensor(x.errors);
          if |x.samples| == 0 then Success(BatchStep(next, NoData, x.chipClock))
          else Success(BatchStep(next, Data(x.samples, x.errors, overflows), x.chipClock))
  }

  /** A pull holding one block with an empty payload: the code as written
      raises, the corrected step publishes nothing and keeps the state. */
  lemma EmptyBlockPullRaises(sensor: Sensor, sequence: int, lastSequence: int, samplesPerBlock: int,
                             tr: Translation, overflows: nat)
    ensures ProcessBatchAsWritten(sensor, [Block(sequence, [])], lastSequence, samplesPerBlock, tr, overflows)
         == Failure(UnboundSampleIndex)
    ensures ProcessBatch(sensor, [Block(sequence, [])], lastSequence, samplesPerBlock, tr, overflows)
         == Success(BatchStep(sensor, NoData, None))
  {
    var pulled := [Block(sequence, [])];
    assert pulled[..0] == [];
  }

  /** A single block holding two samples when the list has one slot per
      block: the second sample finds no slot and the batch raises. */
  lemma OversizedBlockRaises(sensor: Sensor, lastSequence: int, tr: Translation, overflows: nat)
    ensures ProcessBatchAsWritten(sensor, [Block(0, [0, 0, 0, 0, 0, 0, 0, 0])], lastSequence, 1, tr, overflows)
         == Failure(SampleIndexError(sensor))
  {
    var pulled := [Block(0, [0, 0, 0, 0, 0, 0, 0, 0])];
    assert pulled[..0] == [];
    var ws := BatchWords(pulled)[..2];
    assert ws[0] == Word(0, 0, 0, 0) && ws[1] == Word(0, 0, 0, 0);
    assert ErrorPositions(ws) == {};
  }

  /** Under the microcontroller's pacing a batch never raises, and the
      corrected step publishes every sample of it. */
  lemma WellPacedBatchSucceeds(sensor: Sensor, pulled: seq<Block>, lastSequence: int, samplesPerBlock: int,
                               tr: Translation, overflows: nat)
    requires WellPaced(pulled, lastSequence, samplesPerBlock)
    ensures ProcessBatch(sensor, pulled, lastSequence, samplesPerBlock, tr, overflows).Success?
  {
    WellPacedFits(pulled, lastSequence, samplesPerBlock);
  }

  /** After a successful start the error count a batch reports counts that
      batch's flagged samples only, whatever the previous session left. */
  lemma RestartForgetsErrors(sensor: Sensor, manufResponse: seq<byte>, devResponse: seq<byte>,
                             driveCurrent: int, restTicks: int, pulled: seq<Block>, lastSequence: int,
                             samplesPerBlock: int, tr: Translation, overflows: nat)
    requires |manufResponse| >= 2 && |devResponse| >= 2
    requires StartMeasurements(sensor, manufResponse, devResponse, driveCurrent, restTicks).error.None?
    ensures var started := StartMeasurements(sensor, manufResponse, devResponse, driveCurrent, restTicks).sensor;
      var r := ProcessBatch(started, pulled, lastSequence, samplesPerBlock, tr, overflows);
      && (r.Success? ==> r.value.sensor.lastErrorCount == |ErrorPositions(BatchWords(pulled))|)
      && (r.Failure? ==>
            && r.error.SampleIndexError?
            && r.error.sensor.lastErrorCount
                 == |ErrorPositions(BatchWords(pulled)[..Slots(pulled, samplesPerBlock) + 1])|)
  {
  }
}
