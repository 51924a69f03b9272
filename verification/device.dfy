/** The LDC1612 as the host driver sees it: register numbers, identity
    values, the two-byte register packing of `read_reg`/`set_reg`, and the
    commands the driver issues, with their effect on the register file and
    on the microcontroller's streaming state. */
module Device {

  /** A byte as Python's `bytearray` yields it. */
  type byte = b: int | 0 <= b < 0x100

  // Register numbers.
  const REG_RCOUNT0: byte := 0x08
  const REG_OFFSET0: byte := 0x0c
  const REG_SETTLECOUNT0: byte := 0x10
  const REG_CLOCK_DIVIDERS0: byte := 0x14
  const REG_ERROR_CONFIG: byte := 0x19
  const REG_CONFIG: byte := 0x1a
  const REG_MUX_CONFIG: byte := 0x1b
  const REG_DRIVE_CURRENT0: byte := 0x1e
  const REG_MANUFACTURER_ID: byte := 0x7e
  const REG_DEVICE_ID: byte := 0x7f

  // Identity an LDC1612 reports.
  const LDC1612_MANUF_ID := 0x5449
  const LDC1612_DEV_ID := 0x3055

  /** `read_reg`: the two response bytes of a 2-byte register read,
      most significant first. */
  function ReadReg(response: seq<byte>): (v: int)
    requires |response| >= 2
    ensures 0 <= v < 0x10000
    ensures v / 0x100 == response[0] && v % 0x100 == response[1]
  {
    response[0] as int * 0x100 + response[1] as int
  }

  /** `set_reg`: a three-byte I2C message, the register number followed by
      bits 8..15 and bits 0..7 of the value. The value is an unbounded
      Python integer; with a positive divisor Dafny's `/` and `%` are floor
      division and non-negative remainder, which is what Python's shift and
      mask compute, also for a negative value. */
  function SetReg(reg: byte, val: int): (msg: seq<byte>)
    ensures |msg| == 3 && msg[0] == reg
    ensures ReadReg(msg[1..]) == val % 0x10000
  {
    var msg: seq<byte> := [reg, (val / 0x100) % 0x100, val % 0x100];
    PackingRoundTrip(val);
    msg
  }

  /** The two bytes `set_reg` sends, packed back as `read_reg` packs them,
      give the low 16 bits of the value. */
  lemma PackingRoundTrip(val: int)
    ensures ((val / 0x100) % 0x100) * 0x100 + val % 0x100 == val % 0x10000
  {
    var q := val / 0x100;
    var r := val % 0x100;
    var hi := q % 0x100;
    var qq := q / 0x100;
    assert val == q * 0x100 + r;
    assert q == qq * 0x100 + hi;
    assert val == qq * 0x10000 + (hi * 0x100 + r);
    LowSixteen(val, qq, hi * 0x100 + r);
  }

  /** Division with remainder by 2^16 is unique. */
  lemma LowSixteen(a: int, q: int, r: int)
    requires a == q * 0x10000 + r && 0 <= r < 0x10000
    ensures a % 0x10000 == r
  {
  }

  /** Every value in the 16-bit range survives `set_reg` followed by
      `read_reg`. */
  lemma SetRegThenReadReg(reg: byte, val: int)
    requires 0 <= val < 0x10000
    ensures ReadReg(SetReg(reg, val)[1..]) == val
  {
  }

  /** What the driver asks of the bus and of the microcontroller. */
  datatype Command =
    | I2cRead(reg: byte)                        // a 2-byte register read
    | I2cWrite(msg: seq<byte>)                  // `[reg, hi, lo]`
    | Query(restTicks: int, waitAck: bool)      // `query_ldc1612`
    | ClearSamples                              // drop buffered raw blocks
    | NoteStart                                 // clock tracking restarts

  /** The register file after the device has obeyed the writes of `trace`;
      a write stores the value its two data bytes pack to. */
  function ApplyWrites(regs: map<byte, int>, trace: seq<Command>): map<byte, int>
    decreases |trace|
  {
    if |trace| == 0 then regs
    else
      var before := ApplyWrites(regs, trace[..|trace| - 1]);
      match trace[|trace| - 1]
      case I2cWrite(msg) =>
        if |msg| == 3 then before[msg[0] := ReadReg(msg[1..])] else before
      case _ => before
  }

  /** Whether the microcontroller is polling the chip after `trace`: the
      last `query_ldc1612` decides, a zero rest interval meaning stop. */
  function Streaming(wasStreaming: bool, trace: seq<Command>): bool
    decreases |trace|
  {
    if |trace| == 0 then wasStreaming
    else match trace[|trace| - 1]
      case Query(restTicks, _) => restTicks != 0
      case _ => Streaming(wasStreaming, trace[..|trace| - 1])
  }

  /** True when no command of `trace` writes a register or talks to the
      microcontroller's query machinery. */
  predicate ReadsOnly(trace: seq<Command>)
  {
    forall k :: 0 <= k < |trace| ==> trace[k].I2cRead?
  }

  /** A trace that only reads leaves the registers and the streaming state
      as they were. */
  lemma {:induction false} ReadsOnlyChangeNothing(regs: map<byte, int>, wasStreaming: bool, trace: seq<Command>)
    requires ReadsOnly(trace)
    ensures ApplyWrites(regs, trace) == regs
    ensures Streaming(wasStreaming, trace) == wasStreaming
    decreases |trace|
  {
    if |trace| > 0 {
      ReadsOnlyChangeNothing(regs, wasStreaming, trace[..|trace| - 1]);
    }
  }
}
