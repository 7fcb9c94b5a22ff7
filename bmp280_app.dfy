/**
 * The BMP280 application: its global data (command counters, housekeeping
 * and sensor telemetry, I2C descriptor, calibration), its initialisation,
 * and the command handling on the software bus.  The bus transfers and the
 * cFE services it calls are inputs: each outcome is a parameter.
 */
module Bmp280App {
  import opened Cfe
  import opened SizeAccounting
  import opened Bmp280Codec

  /** uint32 */
  type UInt32 = x: int | 0 <= x < 0x1_0000_0000

  /** x++ on a uint8, which wraps from 255 to 0. */
  function Inc8(x: UInt8): (r: UInt8)
    ensures x < 0xFF ==> r == x + 1
    ensures x == 0xFF ==> r == 0
  {
    (x + 1) % 0x100
  }

  /** x++ on a uint32, which wraps from 2^32 - 1 to 0. */
  function Inc32(x: UInt32): (r: UInt32)
    ensures x < 0xFFFF_FFFF ==> r == x + 1
    ensures x == 0xFFFF_FFFF ==> r == 0
  {
    (x + 1) % 0x1_0000_0000
  }

  const CMD_MID: nat := 0x1884
  const SEND_HK_MID: nat := 0x1885
  const NOOP_CC: UInt8 := 0
  const RESET_COUNTERS_CC: UInt8 := 1
  const READ_SENSOR_CC: UInt8 := 2

  /** SensorStatus values in the housekeeping packet. */
  const SENSOR_NOT_INITIALIZED: UInt8 := 0
  const SENSOR_INITIALIZED: UInt8 := 1
  const SENSOR_ERROR: UInt8 := 2

  /** What the message services report about a received command: message id, function code and length. */
  datatype CommandMessage = CommandMessage(MsgId: nat, FcnCode: UInt8, Size: SizeT)

  /** BMP280_HkTlm_t, its payload. */
  datatype HousekeepingTlm = HousekeepingTlm(CommandCounter: UInt8, CommandErrorCounter: UInt8, SensorStatus: UInt8)

  /** BMP280_SensorTlm_t, its counters (the float readings are not part of this model). */
  datatype SensorDataTlm = SensorDataTlm(ReadCounter: UInt32, ErrorCounter: UInt32)

  /** CFE_ES_RunStatus values. */
  datatype RunStatus = Undefined | AppRun | AppExit | AppError

  /** The outcome of opening the I2C bus: the descriptor open returned, and whether the slave address could be set. */
  datatype I2cOpen = I2cOpen(Fd: Int32, SlaveAddressSet: bool)

  /**
   * The sensor's answers during initialisation: the chip id register read,
   * the 24-byte calibration read, and whether the control and config
   * register writes went through.
   */
  datatype SensorBus = SensorBus(ChipIdReply: Option<seq<UInt8>>, CalibrationReply: Option<seq<UInt8>>,
                                 ControlWritten: bool, ConfigWritten: bool)

  /** The cFE services' answers during initialisation, in call order. */
  datatype Startup = Startup(EventRegister: Status, CreatePipe: Status, SubscribeHk: Status, SubscribeCmd: Status)

  /**
   * The status BMP280_InitSensor returns: the chip id must read as 0x58, the
   * calibration must read in full, and both configuration writes must go
   * through, checked in that order.
   */
  function InitSensorStatus(bus: SensorBus): (s: Status)
    ensures s == Success || s == ExternalResourceFail
    ensures s == Success <==>
              ReadChipId(bus.ChipIdReply) == Ok(CHIP_ID) &&
              ReadRegisters(bus.CalibrationReply, CALIBRATION_LENGTH).Ok? &&
              bus.ControlWritten && bus.ConfigWritten
  {
    match ReadChipId(bus.ChipIdReply)
    case Err => ExternalResourceFail
    case Ok(id) =>
      if id != CHIP_ID then ExternalResourceFail
      else if ReadRegisters(bus.CalibrationReply, CALIBRATION_LENGTH).Err? then ExternalResourceFail
      else if !bus.ControlWritten then WriteRegisterStatus(false)
      else WriteRegisterStatus(bus.ConfigWritten)
  }

  /** The calibration after BMP280_InitSensor: parsed only when the chip id is right and the block was read whole. */
  function CalibrationAfterInit(c: CalibData, bus: SensorBus): (r: CalibData)
    ensures InitSensorStatus(bus) == Success ==> r == ParseCalibration(c, bus.CalibrationReply.value)
    ensures ReadChipId(bus.ChipIdReply) != Ok(CHIP_ID) ==> r == c
    ensures ReadRegisters(bus.CalibrationReply, CALIBRATION_LENGTH).Err? ==> r == c
  {
    if ReadChipId(bus.ChipIdReply) == Ok(CHIP_ID) && ReadRegisters(bus.CalibrationReply, CALIBRATION_LENGTH).Ok? then
      ParseCalibration(c, bus.CalibrationReply.value)
    else c
  }

  /** A chip that does not answer 0x58 is refused and its calibration is never read. */
  lemma WrongChipRefused(c: CalibData, bus: SensorBus, calib2: Option<seq<UInt8>>)
    requires ReadChipId(bus.ChipIdReply).Ok? && ReadChipId(bus.ChipIdReply).value != CHIP_ID
    ensures InitSensorStatus(bus) == ExternalResourceFail
    ensures CalibrationAfterInit(c, bus.(CalibrationReply := calib2)) == c
  {
  }

  /** The status BMP280_InitI2C returns: the bus must open and accept the slave address. */
  function InitI2cStatus(open: I2cOpen): (s: Status)
    ensures s == Success <==> open.Fd >= 0 && open.SlaveAddressSet
    ensures s == Success || s == ExternalResourceFail
  {
    if open.Fd < 0 || !open.SlaveAddressSet then ExternalResourceFail else Success
  }

  /** SensorStatus after BMP280_APP_Init reaches the sensor set-up: 1 when both the bus and the sensor came up, 2 otherwise. */
  function SensorStatusAfterInit(open: I2cOpen, bus: SensorBus): (s: UInt8)
    ensures s == SENSOR_INITIALIZED <==> InitI2cStatus(open) == Success && InitSensorStatus(bus) == Success
    ensures s == SENSOR_INITIALIZED || s == SENSOR_ERROR
  {
    if InitI2cStatus(open) != Success then SENSOR_ERROR
    else if InitSensorStatus(bus) != Success then SENSOR_ERROR
    else SENSOR_INITIALIZED
  }

  /** The first failing start-up service, in call order, or success. */
  function StartupStatus(startup: Startup): (s: Status)
    ensures s == Success <==>
              startup.EventRegister == Success && startup.CreatePipe == Success &&
              startup.SubscribeHk == Success && startup.SubscribeCmd == Success
    ensures s != Success ==> s == startup.EventRegister || s == startup.CreatePipe ||
                             s == startup.SubscribeHk || s == startup.SubscribeCmd
    ensures startup.EventRegister != Success ==> s == startup.EventRegister
    ensures startup.EventRegister == Success && startup.CreatePipe != Success ==> s == startup.CreatePipe
    ensures startup.EventRegister == Success && startup.CreatePipe == Success && startup.SubscribeHk != Success ==>
              s == startup.SubscribeHk
    ensures startup.EventRegister == Success && startup.CreatePipe == Success && startup.SubscribeHk == Success ==>
              s == startup.SubscribeCmd
  {
    if startup.EventRegister != Success then startup.EventRegister
    else if startup.CreatePipe != Success then startup.CreatePipe
    else if startup.SubscribeHk != Success then startup.SubscribeHk
    else startup.SubscribeCmd
  }

  /** The part of BMP280_AppData that command handling changes: the two command counters and both telemetry payloads' counters. */
  datatype Counters = Counters(Cmd: UInt8, Err: UInt8, Hk: HousekeepingTlm, Sensor: SensorDataTlm)

  /**
   * The counters after BMP280_APP_ProcessGroundCommand, given whether the
   * sensor was initialised and the length every command of this application
   * must have.
   */
  function GroundCommandEffect(c: Counters, msg: CommandMessage, rawReply: Option<seq<UInt8>>,
                               initialized: bool, cmdLength: SizeT): Counters
  {
    if msg.FcnCode !in {NOOP_CC, RESET_COUNTERS_CC, READ_SENSOR_CC} then c.(Err := Inc8(c.Err))
    else if msg.Size != cmdLength then c.(Err := Inc8(c.Err))
    else if msg.FcnCode == NOOP_CC then c.(Cmd := Inc8(c.Cmd))
    else if msg.FcnCode == RESET_COUNTERS_CC then c.(Cmd := 0, Err := 0, Sensor := SensorDataTlm(0, 0))
    else if !initialized || ReadRawData(rawReply).Err? then
      c.(Cmd := Inc8(c.Cmd), Err := Inc8(c.Err), Sensor := c.Sensor.(ErrorCounter := Inc32(c.Sensor.ErrorCounter)))
    else c.(Cmd := Inc8(c.Cmd), Sensor := c.Sensor.(ReadCounter := Inc32(c.Sensor.ReadCounter)))
  }

  /** The counters after BMP280_APP_ProcessCommandPacket. */
  function PacketEffect(c: Counters, msg: CommandMessage, rawReply: Option<seq<UInt8>>,
                        initialized: bool, cmdLength: SizeT): Counters
  {
    if msg.MsgId == CMD_MID then GroundCommandEffect(c, msg, rawReply, initialized, cmdLength)
    else if msg.MsgId == SEND_HK_MID then c.(Hk := c.Hk.(CommandCounter := c.Cmd, CommandErrorCounter := c.Err))
    else c
  }

  /**
   * Packet dispatch: a message id other than the command and housekeeping
   * ids changes nothing; a housekeeping request copies the command counters
   * into the housekeeping payload and changes nothing else; a ground command
   * leaves the housekeeping payload alone.
   */
  lemma PacketDispatch(c: Counters, msg: CommandMessage, rawReply: Option<seq<UInt8>>, initialized: bool, cmdLength: SizeT)
    ensures var r := PacketEffect(c, msg, rawReply, initialized, cmdLength);
            (msg.MsgId != CMD_MID && msg.MsgId != SEND_HK_MID ==> r == c) &&
            (msg.MsgId == SEND_HK_MID ==>
               r.Cmd == c.Cmd && r.Err == c.Err && r.Sensor == c.Sensor &&
               r.Hk == HousekeepingTlm(c.Cmd, c.Err, c.Hk.SensorStatus)) &&
            (msg.MsgId == CMD_MID ==> r.Hk == c.Hk)
  {
  }

  /**
   * Dispatch of a ground command: an unknown function code or a wrong length
   * counts exactly one error and changes nothing else; a no-op counts one
   * command; a sensor read counts one command, and one error exactly when the
   * sensor is not initialised or its data cannot be read.
   */
  lemma GroundCommandErrors(c: Counters, msg: CommandMessage, rawReply: Option<seq<UInt8>>,
                            initialized: bool, cmdLength: SizeT)
    ensures var r := GroundCommandEffect(c, msg, rawReply, initialized, cmdLength);
            (msg.FcnCode !in {NOOP_CC, RESET_COUNTERS_CC, READ_SENSOR_CC} || msg.Size != cmdLength ==>
               r == c.(Err := Inc8(c.Err))) &&
            (msg.FcnCode == NOOP_CC && msg.Size == cmdLength ==> r == c.(Cmd := Inc8(c.Cmd))) &&
            (msg.FcnCode == READ_SENSOR_CC && msg.Size == cmdLength ==>
               r.Cmd == Inc8(c.Cmd) &&
               (r.Err == Inc8(c.Err) <==> !initialized || ReadRawData(rawReply).Err?) &&
               (r.Sensor.ReadCounter == Inc32(c.Sensor.ReadCounter) <==> initialized && ReadRawData(rawReply).Ok?))
  {
  }

  /** What one CFE_SB_ReceiveBuffer call on the command pipe gives the main loop. */
  datatype Delivery = Delivered(Msg: CommandMessage, RawReply: Option<seq<UInt8>>) | ReceiveFailed(Code: Status)

  /** The position of the first failed receive, or the length of the inbox when every receive succeeds. */
  function FirstFailure(inbox: seq<Delivery>): (k: nat)
    ensures k <= |inbox|
    ensures forall i :: 0 <= i < k ==> inbox[i].Delivered?
    ensures k < |inbox| ==> inbox[k].ReceiveFailed?
  {
    if inbox == [] then 0
    else if inbox[0].ReceiveFailed? then 0
    else 1 + FirstFailure(inbox[1..])
  }

  /** The counters after the main loop has processed the received packets of the inbox, in order. */
  function RunCommands(c: Counters, inbox: seq<Delivery>, initialized: bool, cmdLength: SizeT): Counters
  {
    if inbox == [] then c
    else
      var before := RunCommands(c, inbox[..|inbox| - 1], initialized, cmdLength);
      match inbox[|inbox| - 1]
      case Delivered(msg, rawReply) => PacketEffect(before, msg, rawReply, initialized, cmdLength)
      case ReceiveFailed(_) => before
  }

  /** Whether a delivery is a ground command of the given function code with the right length. */
  predicate IsCommand(d: Delivery, fcnCode: UInt8, cmdLength: SizeT)
  {
    d.Delivered? && d.Msg.MsgId == CMD_MID && d.Msg.FcnCode == fcnCode && d.Msg.Size == cmdLength
  }

  /** The number of accepted sensor read commands since the last accepted counter reset, starting from t. */
  function ReadsSinceReset(t: nat, inbox: seq<Delivery>, cmdLength: SizeT): nat
  {
    if inbox == [] then t
    else
      var before := ReadsSinceReset(t, inbox[..|inbox| - 1], cmdLength);
      var last := inbox[|inbox| - 1];
      if IsCommand(last, RESET_COUNTERS_CC, cmdLength) then 0
      else if IsCommand(last, READ_SENSOR_CC, cmdLength) then before + 1
      else before
  }

  /** The read and error counters of the sensor telemetry, which wrap as one uint32 sum. */
  function SensorTally(c: Counters): int
  {
    (c.Sensor.ReadCounter + c.Sensor.ErrorCounter) % 0x1_0000_0000
  }

  /** One packet keeps the sensor counters' sum equal to the reads since the last reset, modulo 2^32. */
  lemma PacketKeepsTally(c: Counters, d: Delivery, t: nat, initialized: bool, cmdLength: SizeT)
    requires d.Delivered?
    requires SensorTally(c) == t % 0x1_0000_0000
    ensures SensorTally(PacketEffect(c, d.Msg, d.RawReply, initialized, cmdLength)) ==
            ReadsSinceReset(t, [d], cmdLength) % 0x1_0000_0000
  {
    assert [d][..0] == [];
    var r := PacketEffect(c, d.Msg, d.RawReply, initialized, cmdLength);
    if IsCommand(d, READ_SENSOR_CC, cmdLength) {
      var (rd, er) := (c.Sensor.ReadCounter, c.Sensor.ErrorCounter);
      if !initialized || ReadRawData(d.RawReply).Err? {
        assert r.Sensor == SensorDataTlm(rd, Inc32(er));
        WrappedIncrement(er, rd, t);
      } else {
        assert r.Sensor == SensorDataTlm(Inc32(rd), er);
        WrappedIncrement(rd, er, t);
      }
    }
  }

  /** Incrementing one of two uint32 counters adds one to their sum modulo 2^32. */
  lemma WrappedIncrement(x: UInt32, y: UInt32, t: nat)
    requires (x + y) % 0x1_0000_0000 == t % 0x1_0000_0000
    ensures (Inc32(x) + y) % 0x1_0000_0000 == (t + 1) % 0x1_0000_0000
    ensures (y + Inc32(x)) % 0x1_0000_0000 == (t + 1) % 0x1_0000_0000
  {
  }

  /**
   * Over any run of the main loop, every accepted sensor read command counts
   * exactly once, as a read or as an error, in the sensor telemetry, and an
   * accepted reset starts the count again: the sum of the two counters is the
   * number of reads since the last reset, modulo 2^32.
   */
  lemma {:induction false} SensorCountsEveryRead(c: Counters, inbox: seq<Delivery>, t: nat,
                                                 initialized: bool, cmdLength: SizeT)
    requires SensorTally(c) == t % 0x1_0000_0000
    ensures SensorTally(RunCommands(c, inbox, initialized, cmdLength)) ==
            ReadsSinceReset(t, inbox, cmdLength) % 0x1_0000_0000
  {
    if inbox != [] {
      var prefix := inbox[..|inbox| - 1];
      var last := inbox[|inbox| - 1];
      SensorCountsEveryRead(c, prefix, t, initialized, cmdLength);
      var before := RunCommands(c, prefix, initialized, cmdLength);
      var tb := ReadsSinceReset(t, prefix, cmdLength);
      if last.Delivered? {
        PacketKeepsTally(before, last, tb, initialized, cmdLength);
        assert [last][..0] == [];
      }
    }
  }

  /** BMP280_AppData: the application's global state. */
  class AppData {
    var RunStatus: RunStatus
    var CmdCounter: UInt8
    var ErrCounter: UInt8
    var HkTlm: HousekeepingTlm
    var SensorTlm: SensorDataTlm
    var I2cFd: Int32
    var CalibData: CalibData
    var SensorInitialized: bool
    /** sizeof(BMP280_NoopCmd_t), which is also the size of the other two commands: each is a bare command header. */
    const NoArgsCmdLength: SizeT

    /** The zero-initialised static storage of BMP280_AppData. */
    constructor (noArgsCmdLength: SizeT)
      ensures NoArgsCmdLength == noArgsCmdLength
      ensures RunStatus == Undefined && CmdCounter == 0 && ErrCounter == 0
      ensures HkTlm == HousekeepingTlm(0, 0, 0) && SensorTlm == SensorDataTlm(0, 0)
      ensures I2cFd == 0 && CalibData == ZeroCalibration && !SensorInitialized
    {
      NoArgsCmdLength := noArgsCmdLength;
      RunStatus := Undefined;
      CmdCounter := 0;
      ErrCounter := 0;
      HkTlm := HousekeepingTlm(0, 0, 0);
      SensorTlm := SensorDataTlm(0, 0);
      I2cFd := 0;
      CalibData := ZeroCalibration;
      SensorInitialized := false;
    }

    /**
     * BMP280_APP_Init.  A failing cFE service ends initialisation with that
     * service's status; the sensor's fate does not: it only decides
     * SensorStatus and SensorInitialized, and the result is then success.
     * CFE_MSG_Init clears both telemetry packets.
     */
    method Init(startup: Startup, open: I2cOpen, bus: SensorBus) returns (status: Status)
      modifies this
      ensures status == StartupStatus(startup)
      ensures RunStatus == AppRun && CmdCounter == 0 && ErrCounter == 0
      ensures startup.EventRegister != Success ==>
                HkTlm == old(HkTlm) && SensorTlm == old(SensorTlm) &&
                I2cFd == -1 && CalibData == ZeroCalibration && !SensorInitialized
      ensures startup.EventRegister == Success && status != Success ==>
                HkTlm == HousekeepingTlm(0, 0, 0) && SensorTlm == SensorDataTlm(0, 0) &&
                I2cFd == -1 && CalibData == ZeroCalibration && !SensorInitialized
      ensures status == Success ==>
                HkTlm == HousekeepingTlm(0, 0, SensorStatusAfterInit(open, bus)) && SensorTlm == SensorDataTlm(0, 0) &&
                I2cFd == (if open.Fd >= 0 && !open.SlaveAddressSet then -1 else open.Fd) &&
                CalibData == (if InitI2cStatus(open) == Success then CalibrationAfterInit(ZeroCalibration, bus) else ZeroCalibration) &&
                SensorInitialized == (SensorStatusAfterInit(open, bus) == SENSOR_INITIALIZED)
    {
      RunStatus := AppRun;
      CmdCounter := 0;
      ErrCounter := 0;
      SensorInitialized := false;
      I2cFd := -1;
      CalibData := ZeroCalibration;

      status := startup.EventRegister;
      if status != Success {
        return;
      }
      HkTlm := HousekeepingTlm(0, 0, 0);
      SensorTlm := SensorDataTlm(0, 0);
      status := startup.CreatePipe;
      if status != Success {
        return;
      }
      status := startup.SubscribeHk;
      if status != Success {
        return;
      }
      status := startup.SubscribeCmd;
      if status != Success {
        return;
      }

      status := InitI2C(open);
      if status != Success {
        HkTlm := HkTlm.(SensorStatus := SENSOR_ERROR);
      } else {
        status := InitSensor(bus);
        if status != Success {
          HkTlm := HkTlm.(SensorStatus := SENSOR_ERROR);
        } else {
          SensorInitialized := true;
          HkTlm := HkTlm.(SensorStatus := SENSOR_INITIALIZED);
        }
      }
      status := Success;
    }

    /** BMP280_InitI2C: the descriptor is kept when the bus opened, and reset to -1 when the slave address was refused. */
    method InitI2C(open: I2cOpen) returns (status: Status)
      modifies this`I2cFd
      ensures status == InitI2cStatus(open)
      ensures I2cFd == if open.Fd >= 0 && !open.SlaveAddressSet then -1 else open.Fd
    {
      I2cFd := open.Fd;
      if I2cFd < 0 {
        return ExternalResourceFail;
      }
      if !open.SlaveAddressSet {
        I2cFd := -1;
        return ExternalResourceFail;
      }
      status := Success;
    }

    /** BMP280_InitSensor: check the chip id, read the calibration, configure the sensor. */
    method InitSensor(bus: SensorBus) returns (status: Status)
      modifies this`CalibData
      ensures status == InitSensorStatus(bus)
      ensures CalibData == CalibrationAfterInit(old(CalibData), bus)
    {
      var chipId := ReadChipId(bus.ChipIdReply);
      status := TransferStatus(chipId);
      if status != Success {
        return;
      }
      if chipId.value != CHIP_ID {
        return ExternalResourceFail;
      }
      status := ReadCalibration(bus.CalibrationReply);
      if status != Success {
        return;
      }
      status := WriteRegisterStatus(bus.ControlWritten);
      if status != Success {
        return;
      }
      status := WriteRegisterStatus(bus.ConfigWritten);
    }

    /** BMP280_ReadCalibration: a failed read leaves the calibration as it was and returns the failure. */
    method ReadCalibration(reply: Option<seq<UInt8>>) returns (status: Status)
      modifies this`CalibData
      ensures var block := ReadRegisters(reply, CALIBRATION_LENGTH);
              status == TransferStatus(block) &&
              CalibData == if block.Ok? then ParseCalibration(old(CalibData), block.value) else old(CalibData)
    {
      var block := ReadRegisters(reply, CALIBRATION_LENGTH);
      status := TransferStatus(block);
      if status != Success {
        return;
      }
      CalibData := ParseCalibration(CalibData, block.value);
    }

    /** The counters and housekeeping payload that command handling changes. */
    function Counts(): Counters
      reads this`CmdCounter, this`ErrCounter, this`HkTlm, this`SensorTlm
    {
      Counters(CmdCounter, ErrCounter, HkTlm, SensorTlm)
    }

    /**
     * BMP280_APP_ProcessCommandPacket: ground commands and housekeeping
     * requests are handled, any other message id changes nothing.
     * rawReply is the sensor's answer should the command be a sensor read.
     */
    method ProcessCommandPacket(msg: CommandMessage, rawReply: Option<seq<UInt8>>)
      modifies this`CmdCounter, this`ErrCounter, this`SensorTlm, this`HkTlm
      ensures Counts() == PacketEffect(old(Counts()), msg, rawReply, SensorInitialized, NoArgsCmdLength)
    {
      if msg.MsgId == CMD_MID {
        ProcessGroundCommand(msg, rawReply);
      } else if msg.MsgId == SEND_HK_MID {
        var _ := ReportHousekeeping();
      }
    }

    /**
     * BMP280_APP_ProcessGroundCommand: an unknown function code counts one
     * error; a known one runs its handler only when the length is right, and
     * counts one error otherwise.
     */
    method ProcessGroundCommand(msg: CommandMessage, rawReply: Option<seq<UInt8>>)
      modifies this`CmdCounter, this`ErrCounter, this`SensorTlm
      ensures Counts() == GroundCommandEffect(old(Counts()), msg, rawReply, SensorInitialized, NoArgsCmdLength)
    {
      if msg.FcnCode == NOOP_CC {
        var ok := VerifyCmdLength(msg, NoArgsCmdLength);
        if ok {
          var _ := Noop();
        }
      } else if msg.FcnCode == RESET_COUNTERS_CC {
        var ok := VerifyCmdLength(msg, NoArgsCmdLength);
        if ok {
          var _ := ResetCounters();
        }
      } else if msg.FcnCode == READ_SENSOR_CC {
        var ok := VerifyCmdLength(msg, NoArgsCmdLength);
        if ok {
          var _ := ReadSensor(rawReply);
        }
      } else {
        ErrCounter := Inc8(ErrCounter);
      }
    }

    /**
     * The main loop of BMP280_APP_Main: while the run status is APP_RUN it
     * receives the next packet and processes it; a failed receive sets the
     * run status to APP_ERROR, which ends the loop.  The end of the inbox
     * stands for executive services asking the application to stop.
     */
    method RunLoop(inbox: seq<Delivery>)
      modifies this`RunStatus, this`CmdCounter, this`ErrCounter, this`SensorTlm, this`HkTlm
      ensures old(RunStatus) != AppRun ==> RunStatus == old(RunStatus) && Counts() == old(Counts())
      ensures old(RunStatus) == AppRun ==>
                var k := FirstFailure(inbox);
                Counts() == RunCommands(old(Counts()), inbox[..k], SensorInitialized, NoArgsCmdLength) &&
                RunStatus == if k < |inbox| then AppError else AppRun
    {
      ghost var start := Counts();
      ghost var k := FirstFailure(inbox);
      var i := 0;
      while RunStatus == AppRun && i < |inbox|
        invariant old(RunStatus) != AppRun ==> i == 0 && RunStatus == old(RunStatus) && Counts() == start
        invariant old(RunStatus) == AppRun ==>
                    i <= k && Counts() == RunCommands(start, inbox[..i], SensorInitialized, NoArgsCmdLength) &&
                    (RunStatus == AppRun || (RunStatus == AppError && i == k < |inbox|))
        decreases |inbox| - i, if RunStatus == AppRun then 1 else 0
      {
        match inbox[i]
        case Delivered(msg, rawReply) =>
          assert inbox[..i + 1][..i] == inbox[..i];
          ProcessCommandPacket(msg, rawReply);
          i := i + 1;
        case ReceiveFailed(_) =>
          RunStatus := AppError;
      }
    }

    /** BMP280_APP_ReportHousekeeping: copies the command counters into the housekeeping packet. */
    method ReportHousekeeping() returns (status: Status)
      modifies this`HkTlm
      ensures status == Success
      ensures HkTlm == old(HkTlm).(CommandCounter := CmdCounter, CommandErrorCounter := ErrCounter)
    {
      HkTlm := HkTlm.(CommandCounter := CmdCounter, CommandErrorCounter := ErrCounter);
      status := Success;
    }

    /** BMP280_APP_ResetCounters: zeroes the two command counters and the two sensor counters, nothing else. */
    method ResetCounters() returns (status: Status)
      modifies this`CmdCounter, this`ErrCounter, this`SensorTlm
      ensures status == Success
      ensures CmdCounter == 0 && ErrCounter == 0 && SensorTlm == SensorDataTlm(0, 0)
    {
      CmdCounter := 0;
      ErrCounter := 0;
      SensorTlm := SensorTlm.(ReadCounter := 0);
      SensorTlm := SensorTlm.(ErrorCounter := 0);
      status := Success;
    }

    /** BMP280_APP_Noop: counts one command. */
    method Noop() returns (status: Status)
      modifies this`CmdCounter
      ensures status == Success
      ensures CmdCounter == Inc8(old(CmdCounter))
    {
      CmdCounter := Inc8(CmdCounter);
      status := Success;
    }

    /**
     * BMP280_APP_ReadSensor: always counts one command; an uninitialised
     * sensor or a failed raw read counts one error in both error counters,
     * and a good read counts one read.  It succeeds in every case.
     */
    method ReadSensor(rawReply: Option<seq<UInt8>>) returns (status: Status)
      modifies this`CmdCounter, this`ErrCounter, this`SensorTlm
      ensures status == Success
      ensures CmdCounter == Inc8(old(CmdCounter))
      ensures var failed := !SensorInitialized || ReadRawData(rawReply).Err?;
              ErrCounter == (if failed then Inc8(old(ErrCounter)) else old(ErrCounter)) &&
              SensorTlm == if failed then old(SensorTlm).(ErrorCounter := Inc32(old(SensorTlm).ErrorCounter))
                           else old(SensorTlm).(ReadCounter := Inc32(old(SensorTlm).ReadCounter))
    {
      CmdCounter := Inc8(CmdCounter);
      if !SensorInitialized {
        ErrCounter := Inc8(ErrCounter);
        SensorTlm := SensorTlm.(ErrorCounter := Inc32(SensorTlm.ErrorCounter));
        return Success;
      }
      var raw := ReadRawData(rawReply);
      if raw.Err? {
        ErrCounter := Inc8(ErrCounter);
        SensorTlm := SensorTlm.(ErrorCounter := Inc32(SensorTlm.ErrorCounter));
        return Success;
      }
      SensorTlm := SensorTlm.(ReadCounter := Inc32(SensorTlm.ReadCounter));
      status := Success;
    }

    /** BMP280_APP_VerifyCmdLength: true exactly when the length is the expected one; a mismatch counts one error. */
    method VerifyCmdLength(msg: CommandMessage, expectedLength: SizeT) returns (ok: bool)
      modifies this`ErrCounter
      ensures ok <==> msg.Size == expectedLength
      ensures ErrCounter == if ok then old(ErrCounter) else Inc8(old(ErrCounter))
    {
      ok := true;
      if expectedLength != msg.Size {
        ok := false;
        ErrCounter := Inc8(ErrCounter);
      }
    }
  }
}
