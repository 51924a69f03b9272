/** The drive-current setting: the configured value and the one-shot
    calibration that asks the chip for a suggested value. */
module DriveCurrent {
  import opened Wrappers
  import opened Device

  /** Default of `reg_drive_current`. */
  const DRIVECUR := 15
  const DRIVECUR_MAX := 31
  /** CONFIG value during calibration: `0x001 | (1 << 9)`. */
  const CONFIG_CALIBRATE := 0x0201
  /** DRIVE_CURRENT0 takes the configured current in bits 11..15. */
  const IDRIVE_UNIT := 0x800

  datatype ConfigError = OutOfRange(value: int)

  /** `config.getint("reg_drive_current", DRIVECUR, minval=0, maxval=31)`:
      `None` when the option is absent. */
  function ConfiguredDriveCurrent(option: Option<int>): (r: Result<int, ConfigError>)
    ensures option.None? ==> r == Success(DRIVECUR)
    ensures option.Some? ==> (r.Success? <==> 0 <= option.value <= DRIVECUR_MAX)
    ensures option.Some? && r.Success? ==> r.value == option.value
    ensures r.Failure? ==> option.Some? && r.error == OutOfRange(option.value)
    ensures r.Success? ==> 0 <= r.value <= DRIVECUR_MAX
  {
    match option
    case None => Success(DRIVECUR)
    case Some(v) => if 0 <= v <= DRIVECUR_MAX then Success(v) else Failure(OutOfRange(v))
  }

  /** The DRIVE_CURRENT0 value written at start, `drive_cur << 11`. */
  function DriveCurrentRegister(driveCurrent: int): (v: int)
    requires 0 <= driveCurrent <= DRIVECUR_MAX
    ensures 0 <= v < 0x10000
    ensures v % IDRIVE_UNIT == 0 && v / IDRIVE_UNIT == driveCurrent
  {
    driveCurrent * IDRIVE_UNIT
  }

  /** A configured drive current survives the trip through `set_reg`, the
      bus and `read_reg`: bits 11..15 of the register read back give it. */
  lemma DriveCurrentRoundTrip(driveCurrent: int)
    requires 0 <= driveCurrent <= DRIVECUR_MAX
    ensures ReadReg(SetReg(REG_DRIVE_CURRENT0, DriveCurrentRegister(driveCurrent))[1..]) / IDRIVE_UNIT == driveCurrent
  {
  }

  /** The five bits above the low six of DRIVE_CURRENT0, where the chip
      leaves the drive current its automatic amplitude correction chose. */
  function InitDriveField(reg: int): (d: int)
    requires 0 <= reg < 0x10000
    ensures 0 <= d <= DRIVECUR_MAX
  {
    (reg / 64) % 32
  }

  /** The field extraction undoes placing a value in bits 6..10, whatever
      the other bits hold. */
  lemma InitDriveFieldRoundTrip(high: int, d: int, low: int)
    requires 0 <= high < 32 && 0 <= d < 32 && 0 <= low < 64
    ensures 0 <= high * 2048 + d * 64 + low < 0x10000
    ensures InitDriveField(high * 2048 + d * 64 + low) == d
  {
    var reg := high * 2048 + d * 64 + low;
    assert reg / 64 == high * 32 + d;
  }

  /** The outcome of `LDC_CALIBRATE_DRIVE_CURRENT`: the bus commands it
      issued and the value it reports. */
  datatype Calibration = Calibration(trace: seq<Command>, driveCurrent: int)

  /** `cmd_LDC_CALIBRATE`: read CONFIG, switch the chip to calibration,
      read DRIVE_CURRENT0, restore the CONFIG value read first, and report
      the drive-current field. The two responses are what the chip
      returned to the two reads. */
  function Calibrate(configResponse: seq<byte>, driveResponse: seq<byte>): (r: Calibration)
    requires |configResponse| >= 2 && |driveResponse| >= 2
    ensures 0 <= r.driveCurrent <= DRIVECUR_MAX
    ensures r.driveCurrent == InitDriveField(ReadReg(driveResponse))
    ensures |r.trace| == 4 && r.trace[0] == I2cRead(REG_CONFIG) && r.trace[2] == I2cRead(REG_DRIVE_CURRENT0)
    ensures r.trace[1] == I2cWrite(SetReg(REG_CONFIG, CONFIG_CALIBRATE))
    ensures r.trace[3].I2cWrite? && |r.trace[3].msg| == 3 && r.trace[3].msg[0] == REG_CONFIG
    ensures ReadReg(r.trace[3].msg[1..]) == ReadReg(configResponse)
  {
    var oldConfig := ReadReg(configResponse);
    var reg := ReadReg(driveResponse);
    Calibration([I2cRead(REG_CONFIG),
                 I2cWrite(SetReg(REG_CONFIG, CONFIG_CALIBRATE)),
                 I2cRead(REG_DRIVE_CURRENT0),
                 I2cWrite(SetReg(REG_CONFIG, oldConfig))],
                InitDriveField(reg))
  }

  /** The reported value is the drive current the chip left in bits 6..10
      of the DRIVE_CURRENT0 response, whatever its other bits hold. */
  lemma CalibrationReportsField(configResponse: seq<byte>, driveResponse: seq<byte>, high: int, d: int, low: int)
    requires |configResponse| >= 2 && |driveResponse| >= 2
    requires 0 <= high < 32 && 0 <= d < 32 && 0 <= low < 64
    requires ReadReg(driveResponse) == high * 2048 + d * 64 + low
    ensures Calibrate(configResponse, driveResponse).driveCurrent == d
  {
    InitDriveFieldRoundTrip(high, d, low);
  }

  /** When the first read saw the register's real content, the chip is in
      calibration mode while DRIVE_CURRENT0 is read, and afterwards every
      register, CONFIG included, holds what it held before; streaming is
      left as it was. */
  lemma CalibrationRestoresConfig(regs: map<byte, int>, wasStreaming: bool,
                                  configResponse: seq<byte>, driveResponse: seq<byte>)
    requires |configResponse| >= 2 && |driveResponse| >= 2
    requires REG_CONFIG in regs && regs[REG_CONFIG] == ReadReg(configResponse)
    ensures ApplyWrites(regs, Calibrate(configResponse, driveResponse).trace[..2])[REG_CONFIG] == CONFIG_CALIBRATE
    ensures ApplyWrites(regs, Calibrate(configResponse, driveResponse).trace) == regs
    ensures Streaming(wasStreaming, Calibrate(configResponse, driveResponse).trace) == wasStreaming
  {
    var t := Calibrate(configResponse, driveResponse).trace;
    assert t[..4] == t;
    assert t[..4][..3] == t[..3] && t[..3][..2] == t[..2] && t[..2][..1] == t[..1] && t[..1][..0] == [];
    var m1 := ApplyWrites(regs, t[..2]);
    assert ApplyWrites(regs, t[..1]) == regs;
    assert m1 == regs[REG_CONFIG := CONFIG_CALIBRATE];
    assert ApplyWrites(regs, t[..3]) == m1;
    assert ApplyWrites(regs, t) == m1[REG_CONFIG := regs[REG_CONFIG]];
    assert Streaming(wasStreaming, t[..1]) == wasStreaming;
    assert Streaming(wasStreaming, t[..2]) == wasStreaming;
    assert Streaming(wasStreaming, t[..3]) == wasStreaming;
  }

  /** The reported value is always acceptable as `reg_drive_current`, and
      writing it at start cannot overflow the 16-bit register. */
  lemma CalibratedValueIsConfigurable(configResponse: seq<byte>, driveResponse: seq<byte>)
    requires |configResponse| >= 2 && |driveResponse| >= 2
    ensures var d := Calibrate(configResponse, driveResponse).driveCurrent;
      && ConfiguredDriveCurrent(Some(d)) == Success(d)
      && ReadReg(SetReg(REG_DRIVE_CURRENT0, DriveCurrentRegister(d))[1..]) == DriveCurrentRegister(d)
  {
  }
}
