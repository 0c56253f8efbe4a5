/**
 * The Bender CC612/613 charge controller driver (charger/bender.go): the
 * register catalogue, the decoding of each register into a charger quantity,
 * the `BenderCC` handle whose methods issue the register transactions, and
 * `NewBenderCC`, which probes a device for its optional features.
 */
module Bender {
  import opened Wrappers
  import opened Modbus

  // ---------------------------------------------------------------------------
  // Register catalogue (all holding registers)

  const RegChargePointState: nat := 122      // vehicle (control pilot) state
  const RegChargePointModel: nat := 142      // charge point model, 20 bytes; absent in the legacy layout
  const RegPhaseEnergy: nat := 200           // per-phase energy of the primary meter, 3 x uint32
  const RegCurrents: nat := 212              // per-phase currents of the primary meter (mA), 3 x uint32
  const RegTotalEnergy: nat := 218           // total energy of the primary meter, uint32
  const RegActivePower: nat := 220           // active power of the primary meter (W), uint32
  const RegVoltages: nat := 222              // per-phase voltages of the OCPP meter (V), 3 x uint32
  const RegUserID: nat := 720                // OCPP IdTag of the session, 20 bytes
  const RegEVBatteryState: nat := 730        // EV battery state (%)
  const RegSmartVehicleDetected: nat := 740  // 1 if the connected EV is a smart vehicle
  const RegEVCCID: nat := 741                // EVCCID as ASCII hex, 12 bytes
  const RegHemsCurrentLimit: nat := 1000     // current limit (A)
  const RegHemsCurrentLimit10: nat := 1001   // current limit (0.1 A)
  const RegHemsPowerLimit: nat := 1002       // power limit (W)

  /** Power limit that forces single-phase charging: 207 V * 3 phases * 6 A - 1 W. */
  const PowerLimit1p: Word := 3725
  /** Power limit that leaves all three phases available. */
  const PowerLimit3p: Word := 0xFFFF

  /** The smallest current a charger may be set to (A). */
  const MinCurrent := 6

  /** Go's `int64`. */
  type Int64 = x: int | -0x8000_0000_0000_0000 <= x < 0x8000_0000_0000_0000

  /** Vehicle state: A not connected, B connected and not charging, C charging. */
  datatype ChargeStatus = StatusNone | StatusA | StatusB | StatusC

  datatype Error =
    | Transport(fault: Fault)     // a register transaction failed; passed on unchanged
    | InvalidStatus(code: Word)   // the state register holds no known state
    | InvalidCurrent              // a current below the minimum (or above 16 bits) was requested
    | NotAvailable                // the value exists but has no meaning right now

  /**
   * The optional interfaces a handle exposes, one flag per optional
   * operation: what the decorated charger offers besides Status, Enabled,
   * Enable and MaxCurrent.
   */
  datatype Capabilities = Capabilities(
    meter: bool,          // CurrentPower
    phaseCurrents: bool,  // Currents
    phaseVoltages: bool,  // Voltages
    meterEnergy: bool,    // TotalEnergy
    battery: bool,        // Soc
    identifier: bool,     // Identify
    chargerEx: bool,      // MaxCurrentMillis
    phaseSwitcher: bool,  // Phases1p3p
    phaseGetter: bool)    // GetPhases

  // ---------------------------------------------------------------------------
  // Decoding of single registers

  /** The vehicle state a state register value stands for. */
  function StatusOf(code: Word): (r: Result<ChargeStatus, Error>)
    ensures r.Success? <==> 1 <= code <= 4
    ensures r.Failure? ==> r.error == InvalidStatus(code)
    ensures r == Success(StatusA) <==> code == 1
    ensures r == Success(StatusB) <==> code == 2
    ensures r == Success(StatusC) <==> code == 3 || code == 4
  {
    if code == 1 then Success(StatusA)
    else if code == 2 then Success(StatusB)
    else if code == 3 || code == 4 then Success(StatusC)
    else Failure(InvalidStatus(code))
  }

  /** The power limit that selects `phases` phases; reading it back gives that phase count. */
  function PowerLimitFor(phases: int): (w: Word)
    ensures PhasesOf(w) == if phases == 1 then 1 else 3
  {
    if phases == 1 then PowerLimit1p else PowerLimit3p
  }

  /** The phase count a power limit allows: a limit up to the single-phase ceiling means one phase. */
  function PhasesOf(limit: Word): (n: int)
    ensures n == 1 || n == 3
    ensures n == 1 <==> limit <= PowerLimit1p
  {
    if limit <= PowerLimit1p then 1 else 3
  }

  /** One phase reading in its unit: the all-ones sentinel means "no data" and reads as zero. */
  function PhaseValue(raw: nat, divider: real): (v: real)
    requires divider > 0.0
    ensures raw == MaxUint32 ==> v == 0.0
    ensures raw != MaxUint32 ==> v * divider == raw as real
    ensures v >= 0.0
  {
    if raw == MaxUint32 then 0.0 else raw as real / divider
  }

  /** `b` without its trailing zero bytes. */
  function TrimTrailingZeros(b: seq<Byte>): (t: seq<Byte>)
    ensures t <= b
    ensures t == [] || t[|t| - 1] != 0
    ensures forall i | |t| <= i < |b| :: b[i] == 0
    decreases |b|
  {
    if b == [] || b[|b| - 1] != 0 then b else TrimTrailingZeros(b[..|b| - 1])
  }

  /** The text of an identifier block: its bytes as characters, trailing zero bytes dropped. */
  function BytesAsString(b: seq<Byte>): (s: string)
    ensures |s| <= |b|
    ensures s == "" <==> forall i | 0 <= i < |b| :: b[i] == 0
  {
    var t := TrimTrailingZeros(b);
    seq(|t|, i requires 0 <= i < |t| => t[i] as char)
  }

  // ---------------------------------------------------------------------------
  // Current setpoints

  /** Go's `uint16(x)` for an integer `x`: the low 16 bits. */
  function TruncateUint16(x: int): (w: Word)
    ensures (w - x) % 0x1_0000 == 0
  {
    x % 0x1_0000
  }

  /** The register value `MaxCurrent` writes and caches, as the source computes it. */
  function MaxCurrentAsWritten(current: Int64): (r: Result<Word, Error>)
    ensures r.Success? <==> current >= MinCurrent
    ensures r.Success? && current < 0x1_0000 ==> r.value == current
    ensures r.Success? ==> (r.value - current) % 0x1_0000 == 0
  {
    if current < MinCurrent then Failure(InvalidCurrent) else Success(TruncateUint16(current))
  }

  /** The register value `MaxCurrent` writes: the request itself, which must lie in 6..65535. */
  function CurrentSetpoint(current: Int64): (r: Result<Word, Error>)
    ensures r.Success? <==> MinCurrent <= current < 0x1_0000
    ensures r.Success? ==> r.value == current && r.value >= MinCurrent
    ensures r.Failure? ==> r.error == InvalidCurrent
  {
    if current < MinCurrent || current >= 0x1_0000 then Failure(InvalidCurrent) else Success(current)
  }

  /** The register value `maxCurrentMillis` writes: the request in whole tenths of an ampere. */
  function MillisSetpoint(current: real): (r: Result<Word, Error>)
    requires current * 10.0 < 0x1_0000 as real
    ensures r.Success? <==> current >= MinCurrent as real
    ensures r.Success? ==> r.value as real <= current * 10.0 < r.value as real + 1.0
    ensures r.Success? ==> r.value >= 10 * MinCurrent
    ensures r.Failure? ==> r.error == InvalidCurrent
  {
    if current < MinCurrent as real then Failure(InvalidCurrent) else Success((current * 10.0).Floor)
  }

  // ---------------------------------------------------------------------------
  // What each operation answers, in terms of the device's registers

  /** The error a failed read reports. */
  function ReadError(dev: Device, addr: nat, count: nat): Error
    requires !dev.Readable(addr, count)
    reads dev
  {
    Transport(dev.Read(addr, count).error)
  }

  /** Three phase readings from the uint32 registers at `reg`, `reg + 2` and `reg + 4`. */
  function PhaseValues(dev: Device, reg: nat, divider: real): (r: Result<(real, real, real), Error>)
    requires divider > 0.0
    reads dev
    ensures r.Success? <==> dev.Readable(reg, 6)
    ensures r.Success? ==> r.value.0 >= 0.0 && r.value.1 >= 0.0 && r.value.2 >= 0.0
  {
    if !dev.Readable(reg, 6) then Failure(ReadError(dev, reg, 6))
    else Success((PhaseValue(dev.Reg32(reg), divider),
                  PhaseValue(dev.Reg32(reg + 2), divider),
                  PhaseValue(dev.Reg32(reg + 4), divider)))
  }

  /** The energy of the first `n` phases of the legacy per-phase registers, in kWh. */
  function PhaseEnergy(dev: Device, n: nat): (e: real)
    requires n <= 3 && dev.Present(RegPhaseEnergy, 6)
    reads dev
    ensures e >= 0.0
  {
    if n == 0 then 0.0
    else PhaseEnergy(dev, n - 1) + dev.Reg32(RegPhaseEnergy + 2 * (n - 1)) as real / 1000.0
  }

  /** The legacy total is the sum of the three per-phase registers, scaled to kWh. */
  lemma PhaseEnergyOfThree(dev: Device)
    requires dev.Present(RegPhaseEnergy, 6)
    ensures PhaseEnergy(dev, 3) * 1000.0 ==
      (dev.Reg32(RegPhaseEnergy) + dev.Reg32(RegPhaseEnergy + 2) + dev.Reg32(RegPhaseEnergy + 4)) as real
  {
    assert PhaseEnergy(dev, 1) == dev.Reg32(RegPhaseEnergy) as real / 1000.0;
    assert PhaseEnergy(dev, 2) == PhaseEnergy(dev, 1) + dev.Reg32(RegPhaseEnergy + 2) as real / 1000.0;
  }

  /** The meter's total energy in kWh. */
  function TotalEnergyOf(dev: Device, legacy: bool): (r: Result<real, Error>)
    reads dev
    ensures legacy ==> (r.Success? <==> dev.Readable(RegPhaseEnergy, 6))
    ensures legacy && r.Success? ==>
      r.value * 1000.0 == (dev.Reg32(RegPhaseEnergy) + dev.Reg32(RegPhaseEnergy + 2) + dev.Reg32(RegPhaseEnergy + 4)) as real
    ensures !legacy ==> (r.Success? <==> dev.Readable(RegTotalEnergy, 2))
    ensures !legacy && r.Success? ==> r.value * 1000.0 == dev.Reg32(RegTotalEnergy) as real
  {
    if legacy then
      if !dev.Readable(RegPhaseEnergy, 6) then Failure(ReadError(dev, RegPhaseEnergy, 6))
      else
        PhaseEnergyOfThree(dev);
        Success(PhaseEnergy(dev, 3))
    else if !dev.Readable(RegTotalEnergy, 2) then Failure(ReadError(dev, RegTotalEnergy, 2))
    else Success(dev.Reg32(RegTotalEnergy) as real / 1000.0)
  }

  /** The power drawn in W: measured, or in the legacy layout 230 V times the sum of the phase currents. */
  function CurrentPowerOf(dev: Device, legacy: bool): (r: Result<real, Error>)
    reads dev
    ensures legacy ==> (r.Success? <==> dev.Readable(RegCurrents, 6))
    ensures legacy && r.Success? ==>
      var p := PhaseValues(dev, RegCurrents, 1000.0).value;
      r.value == 230.0 * (p.0 + p.1 + p.2)
    ensures !legacy ==> (r.Success? <==> dev.Readable(RegActivePower, 2))
    ensures !legacy && r.Success? ==> r.value == dev.Reg32(RegActivePower) as real
    ensures r.Success? ==> r.value >= 0.0
  {
    if legacy then
      match PhaseValues(dev, RegCurrents, 1000.0)
      case Failure(e) => Failure(e)
      case Success(p) => Success(230.0 * (p.0 + p.1 + p.2))
    else if !dev.Readable(RegActivePower, 2) then Failure(ReadError(dev, RegActivePower, 2))
    else Success(dev.Reg32(RegActivePower) as real)
  }

  /** The battery state in percent, available only while a smart vehicle is connected. */
  function SocOf(dev: Device): (r: Result<real, Error>)
    reads dev
    ensures !dev.Readable(RegSmartVehicleDetected, 1) ==> r == Failure(ReadError(dev, RegSmartVehicleDetected, 1))
    ensures dev.Readable(RegSmartVehicleDetected, 1) && dev.regs[RegSmartVehicleDetected] != 1 ==> r == Failure(NotAvailable)
    ensures r.Success? <==>
      dev.Readable(RegSmartVehicleDetected, 1) && dev.regs[RegSmartVehicleDetected] == 1 &&
      dev.Readable(RegEVBatteryState, 1) && dev.regs[RegEVBatteryState] <= 100
    ensures r.Success? ==> 0.0 <= r.value <= 100.0 && r.value == dev.regs[RegEVBatteryState] as real
    ensures dev.Readable(RegSmartVehicleDetected, 1) && dev.regs[RegSmartVehicleDetected] == 1 ==>
      (!dev.Readable(RegEVBatteryState, 1) ==> r == Failure(ReadError(dev, RegEVBatteryState, 1)))
    ensures dev.Readable(RegSmartVehicleDetected, 1) && dev.regs[RegSmartVehicleDetected] == 1 ==>
      (dev.Readable(RegEVBatteryState, 1) && dev.regs[RegEVBatteryState] > 100 ==> r == Failure(NotAvailable))
  {
    if !dev.Readable(RegSmartVehicleDetected, 1) then Failure(ReadError(dev, RegSmartVehicleDetected, 1))
    else if dev.regs[RegSmartVehicleDetected] != 1 then Failure(NotAvailable)
    else if !dev.Readable(RegEVBatteryState, 1) then Failure(ReadError(dev, RegEVBatteryState, 1))
    else if dev.regs[RegEVBatteryState] <= 100 then Success(dev.regs[RegEVBatteryState] as real)
    else Failure(NotAvailable)
  }

  /** The vehicle's EVCCID. */
  function EvccId(dev: Device): (s: string)
    requires dev.Readable(RegEVCCID, 6)
    reads dev
    ensures |s| <= 12
    ensures s == "" <==> forall i | RegEVCCID <= i < RegEVCCID + 6 :: dev.regs[i] == 0
  {
    var b := dev.Read(RegEVCCID, 6).value;
    EncodeDecode(b);
    var ws := dev.Block(RegEVCCID, 6);
    ZeroBytesIffZeroWords(ws);
    assert (forall i | 0 <= i < 6 :: ws[i] == 0) <==> (forall i | RegEVCCID <= i < RegEVCCID + 6 :: dev.regs[i] == 0) by {
      if forall i | 0 <= i < 6 :: ws[i] == 0 {
        forall i | RegEVCCID <= i < RegEVCCID + 6 ensures dev.regs[i] == 0 {
          assert ws[i - RegEVCCID] == 0;
        }
      }
    }
    BytesAsString(b)
  }

  /** The OCPP IdTag of the session. */
  function UserId(dev: Device): (s: string)
    requires dev.Readable(RegUserID, 10)
    reads dev
    ensures |s| <= 20
    ensures s == "" <==> forall i | RegUserID <= i < RegUserID + 10 :: dev.regs[i] == 0
  {
    var b := dev.Read(RegUserID, 10).value;
    EncodeDecode(b);
    var ws := dev.Block(RegUserID, 10);
    ZeroBytesIffZeroWords(ws);
    assert (forall i | 0 <= i < 10 :: ws[i] == 0) <==> (forall i | RegUserID <= i < RegUserID + 10 :: dev.regs[i] == 0) by {
      if forall i | 0 <= i < 10 :: ws[i] == 0 {
        forall i | RegUserID <= i < RegUserID + 10 ensures dev.regs[i] == 0 {
          assert ws[i - RegUserID] == 0;
        }
      }
    }
    BytesAsString(b)
  }

  /**
   * The identification of the connected vehicle: in the current layout the
   * EVCCID of a smart vehicle when it is not empty, otherwise (and always in
   * the legacy layout) the session's user id, which may be empty.
   */
  function IdentifyOf(dev: Device, legacy: bool): (r: Result<string, Error>)
    reads dev
    ensures r.Success? ==> |r.value| <= 20
    ensures !legacy && !dev.Readable(RegSmartVehicleDetected, 1) ==>
      r == Failure(ReadError(dev, RegSmartVehicleDetected, 1))
    ensures r.Success? && r.value == "" ==> dev.Readable(RegUserID, 10) && UserId(dev) == ""
  {
    if !legacy && !dev.Readable(RegSmartVehicleDetected, 1) then
      Failure(ReadError(dev, RegSmartVehicleDetected, 1))
    else if !legacy && dev.regs[RegSmartVehicleDetected] != 0 && !dev.Readable(RegEVCCID, 6) then
      Failure(ReadError(dev, RegEVCCID, 6))
    else if !legacy && dev.regs[RegSmartVehicleDetected] != 0 && EvccId(dev) != "" then
      Success(EvccId(dev))
    else if !dev.Readable(RegUserID, 10) then
      Failure(ReadError(dev, RegUserID, 10))
    else
      Success(UserId(dev))
  }

  /** Whether the device meters: the probed power (or legacy energy) register reads and is not the sentinel. */
  predicate MeteringOf(dev: Device, legacy: bool)
    reads dev
    ensures MeteringOf(dev, false) ==>
      CurrentPowerOf(dev, false).Success? && CurrentPowerOf(dev, false).value < MaxUint32 as real
  {
    var reg := if legacy then RegPhaseEnergy else RegActivePower;
    dev.Readable(reg, 2) && dev.Reg32(reg) != MaxUint32
  }

  /** Whether the device has the OCPP meter: metering, and a positive reading at the voltage registers. */
  predicate VoltagesOf(dev: Device, legacy: bool)
    reads dev
    ensures VoltagesOf(dev, legacy) && dev.Readable(RegVoltages, 6) && dev.Reg32(RegVoltages) != MaxUint32 ==>
      PhaseValues(dev, RegVoltages, 1.0).value.0 > 0.0
  {
    MeteringOf(dev, legacy) && dev.Readable(RegVoltages, 2) && dev.Reg32(RegVoltages) > 0
  }

  /** Whether the device reports the battery state: metering, the current layout, and a readable 730. */
  predicate BatteryOf(dev: Device, legacy: bool)
    reads dev
    ensures BatteryOf(dev, legacy) && dev.Readable(RegSmartVehicleDetected, 1) && dev.regs[RegSmartVehicleDetected] == 1 ==>
      (SocOf(dev).Success? || SocOf(dev) == Failure(NotAvailable))
  {
    MeteringOf(dev, legacy) && !legacy && dev.Readable(RegEVBatteryState, 1)
  }

  /** The features the probe finds on a device. */
  function CapabilitiesOf(dev: Device): (c: Capabilities)
    reads dev
    ensures c.phaseCurrents == c.meter && c.meterEnergy == c.meter
    ensures c.phaseVoltages ==> c.meter && dev.Readable(RegVoltages, 2)
    ensures c.battery ==> c.meter && dev.Readable(RegChargePointModel, 10)
    ensures c.chargerEx <==> dev.Readable(RegHemsCurrentLimit10, 1)
    ensures c.phaseSwitcher == c.phaseGetter && (c.phaseGetter <==> dev.Readable(RegHemsPowerLimit, 1))
  {
    var legacy := !dev.Readable(RegChargePointModel, 10);
    var metering := MeteringOf(dev, legacy);
    var phases := dev.Readable(RegHemsPowerLimit, 1);
    Capabilities(
      meter := metering,
      phaseCurrents := metering,
      phaseVoltages := VoltagesOf(dev, legacy),
      meterEnergy := metering,
      battery := BatteryOf(dev, legacy),
      identifier := IdentifyOf(dev, legacy).Success?,
      chargerEx := dev.Readable(RegHemsCurrentLimit10, 1),
      phaseSwitcher := phases,
      phaseGetter := phases)
  }

  // ---------------------------------------------------------------------------
  // The charger handle

  /**
   * A connection to one controller. `current` caches the last current
   * written (whole amperes from MaxCurrent, tenths from MaxCurrentMillis),
   * `regCurr` is the current-limit register that Enable and Enabled use,
   * `legacy` records the older register layout.
   */
  class BenderCC {
    const conn: Device
    var current: Word
    var regCurr: nat
    var legacy: bool

    ghost predicate Valid()
      reads this
    {
      current >= MinCurrent && (regCurr == RegHemsCurrentLimit || regCurr == RegHemsCurrentLimit10)
    }

    constructor (conn: Device)
      ensures this.conn == conn && !legacy
      ensures current == MinCurrent && regCurr == RegHemsCurrentLimit
      ensures Valid()
    {
      this.conn := conn;
      current := MinCurrent;
      regCurr := RegHemsCurrentLimit;
      legacy := false;
    }

    /** The vehicle state, from the state register. */
    method Status() returns (r: Result<ChargeStatus, Error>)
      ensures !conn.Readable(RegChargePointState, 1) ==> r == Failure(ReadError(conn, RegChargePointState, 1))
      ensures conn.Readable(RegChargePointState, 1) ==> r == StatusOf(conn.regs[RegChargePointState])
    {
      var b := conn.Read(RegChargePointState, 1);
      if b.Failure? {
        return Failure(Transport(b.error));
      }
      ReadUint16(conn, RegChargePointState, 1, 0);
      r := StatusOf(Uint16(b.value));
    }

    /** Whether charging is enabled: the active current limit is not zero. */
    method Enabled() returns (r: Result<bool, Error>)
      ensures !conn.Readable(regCurr, 1) ==> r == Failure(ReadError(conn, regCurr, 1))
      ensures conn.Readable(regCurr, 1) ==> r == Success(conn.regs[regCurr] != 0)
    {
      var b := conn.Read(regCurr, 1);
      if b.Failure? {
        return Failure(Transport(b.error));
      }
      ReadUint16(conn, regCurr, 1, 0);
      return Success(Uint16(b.value) != 0);
    }

    /** Writes the cached current to the active current limit to enable, zero to disable. */
    method Enable(enable: bool) returns (r: Outcome<Error>)
      modifies conn
      ensures r.Pass? <==> old(conn.Writable(regCurr, 1))
      ensures r.Fail? ==> r.error.Transport?
      ensures conn.regs == if r.Pass? then old(conn.regs)[regCurr := if enable then current else 0] else old(conn.regs)
    {
      var b := WordBytes(0);
      if enable {
        b := WordBytes(current);
      }
      ghost var before := conn.regs;
      var w := conn.WriteMultipleRegisters(regCurr, 1, b);
      if w.Fail? {
        return Fail(Transport(w.error));
      }
      StoreWord(before, regCurr, if enable then current else 0);
      return Pass;
    }

    /** Sets the current limit in whole amperes, always through the whole-ampere register. */
    method MaxCurrent(current: Int64) returns (r: Outcome<Error>)
      requires Valid()
      modifies this`current, conn
      ensures Valid()
      ensures CurrentSetpoint(current).Failure? ==>
        r == Fail(InvalidCurrent) && this.current == old(this.current) && conn.regs == old(conn.regs)
      ensures CurrentSetpoint(current).Success? ==> (r.Pass? <==> old(conn.Writable(RegHemsCurrentLimit, 1)))
      ensures r.Pass? ==> this.current == current && conn.regs == old(conn.regs)[RegHemsCurrentLimit := current]
      ensures r.Fail? ==> this.current == old(this.current) && conn.regs == old(conn.regs)
    {
      var setpoint := CurrentSetpoint(current);
      if setpoint.Failure? {
        return Fail(setpoint.error);
      }
      var curr := setpoint.value;
      ghost var before := conn.regs;
      var w := conn.WriteMultipleRegisters(RegHemsCurrentLimit, 1, WordBytes(curr));
      if w.Fail? {
        return Fail(Transport(w.error));
      }
      StoreWord(before, RegHemsCurrentLimit, curr);
      this.current := curr;
      return Pass;
    }

    /** Sets the current limit in tenths of an ampere through the fine current-limit register. */
    method MaxCurrentMillis(current: real) returns (r: Outcome<Error>)
      requires Valid()
      requires current * 10.0 < 0x1_0000 as real
      modifies this`current, conn
      ensures Valid()
      ensures current < MinCurrent as real ==>
        r == Fail(InvalidCurrent) && this.current == old(this.current) && conn.regs == old(conn.regs)
      ensures current >= MinCurrent as real ==> (r.Pass? <==> old(conn.Writable(RegHemsCurrentLimit10, 1)))
      ensures r.Pass? ==>
        this.current == (current * 10.0).Floor && conn.regs == old(conn.regs)[RegHemsCurrentLimit10 := this.current]
      ensures r.Fail? ==> this.current == old(this.current) && conn.regs == old(conn.regs)
    {
      var setpoint := MillisSetpoint(current);
      if setpoint.Failure? {
        return Fail(setpoint.error);
      }
      var curr := setpoint.value;
      ghost var before := conn.regs;
      var w := conn.WriteMultipleRegisters(RegHemsCurrentLimit10, 1, WordBytes(curr));
      if w.Fail? {
        return Fail(Transport(w.error));
      }
      StoreWord(before, RegHemsCurrentLimit10, curr);
      this.current := curr;
      return Pass;
    }

    /** The power drawn (W). */
    method CurrentPower() returns (r: Result<real, Error>)
      ensures r == CurrentPowerOf(conn, legacy)
    {
      if legacy {
        var c := Currents();
        match c
        case Failure(e) => return Failure(e);
        case Success(p) => return Success(230.0 * (p.0 + p.1 + p.2));
      }
      var b := conn.Read(RegActivePower, 2);
      if b.Failure? {
        return Failure(Transport(b.error));
      }
      ReadUint32(conn, RegActivePower, 2, 0);
      return Success(Uint32(b.value) as real);
    }

    /** The meter's total energy (kWh). */
    method TotalEnergy() returns (r: Result<real, Error>)
      ensures r == TotalEnergyOf(conn, legacy)
    {
      if legacy {
        var b := conn.Read(RegPhaseEnergy, 6);
        if b.Failure? {
          return Failure(Transport(b.error));
        }
        var total := 0.0;
        for l := 0 to 3
          invariant total == PhaseEnergy(conn, l)
        {
          ReadUint32(conn, RegPhaseEnergy, 6, 2 * l);
          assert b.value[4 * l..4 * (l + 1)][..4] == b.value[2 * (2 * l)..][..4];
          total := total + Uint32(b.value[4 * l..4 * (l + 1)]) as real / 1000.0;
        }
        return Success(total);
      }
      var b := conn.Read(RegTotalEnergy, 2);
      if b.Failure? {
        return Failure(Transport(b.error));
      }
      ReadUint32(conn, RegTotalEnergy, 2, 0);
      return Success(Uint32(b.value) as real / 1000.0);
    }

    /** Three sequential uint32 readings from `reg`, each divided by `divider`; the sentinel reads as zero. */
    method GetPhaseValues(reg: nat, divider: real) returns (r: Result<(real, real, real), Error>)
      requires divider > 0.0
      ensures r == PhaseValues(conn, reg, divider)
    {
      var b := conn.Read(reg, 6);
      if b.Failure? {
        return Failure(Transport(b.error));
      }
      var res := new real[3];
      for i := 0 to 3
        invariant forall j | 0 <= j < i :: res[j] == PhaseValue(conn.Reg32(reg + 2 * j), divider)
      {
        ReadUint32(conn, reg, 6, 2 * i);
        var u32 := Uint32(b.value[4 * i..]);
        if u32 == MaxUint32 {
          u32 := 0;
        }
        res[i] := u32 as real / divider;
      }
      return Success((res[0], res[1], res[2]));
    }

    /** The phase currents (A). */
    method Currents() returns (r: Result<(real, real, real), Error>)
      ensures r == PhaseValues(conn, RegCurrents, 1000.0)
    {
      r := GetPhaseValues(RegCurrents, 1000.0);
    }

    /** The phase voltages (V). */
    method Voltages() returns (r: Result<(real, real, real), Error>)
      ensures r == PhaseValues(conn, RegVoltages, 1.0)
    {
      r := GetPhaseValues(RegVoltages, 1.0);
    }

    /** Switches between one and three phases by setting the power limit. */
    method Phases1p3p(phases: int) returns (r: Outcome<Error>)
      modifies conn
      ensures r.Pass? <==> old(conn.Writable(RegHemsPowerLimit, 1))
      ensures r.Fail? ==> r.error.Transport?
      ensures conn.regs == if r.Pass? then old(conn.regs)[RegHemsPowerLimit := PowerLimitFor(phases)] else old(conn.regs)
    {
      var b := WordBytes(PowerLimit3p);
      if phases == 1 {
        b := WordBytes(PowerLimit1p);
      }
      ghost var before := conn.regs;
      var w := conn.WriteMultipleRegisters(RegHemsPowerLimit, 1, b);
      if w.Fail? {
        return Fail(Transport(w.error));
      }
      StoreWord(before, RegHemsPowerLimit, PowerLimitFor(phases));
      return Pass;
    }

    /** The phase count the power limit allows. */
    method GetPhases() returns (r: Result<int, Error>)
      ensures !conn.Readable(RegHemsPowerLimit, 1) ==> r == Failure(ReadError(conn, RegHemsPowerLimit, 1))
      ensures conn.Readable(RegHemsPowerLimit, 1) ==> r == Success(PhasesOf(conn.regs[RegHemsPowerLimit]))
    {
      var b := conn.Read(RegHemsPowerLimit, 1);
      if b.Failure? {
        return Failure(Transport(b.error));
      }
      ReadUint16(conn, RegHemsPowerLimit, 1, 0);
      if Uint16(b.value) <= PowerLimit1p {
        return Success(1);
      }
      return Success(3);
    }

    /** The identification of the connected vehicle. */
    method Identify() returns (r: Result<string, Error>)
      ensures r == IdentifyOf(conn, legacy)
    {
      if !legacy {
        var b := conn.Read(RegSmartVehicleDetected, 1);
        if b.Success? {
          ReadUint16(conn, RegSmartVehicleDetected, 1, 0);
        }
        if b.Success? && Uint16(b.value) != 0 {
          b := conn.Read(RegEVCCID, 6);
        }
        var id := if b.Success? then BytesAsString(b.value) else "";
        if id != "" || b.Failure? {
          return if b.Failure? then Failure(Transport(b.error)) else Success(id);
        }
      }
      var b := conn.Read(RegUserID, 10);
      if b.Failure? {
        return Failure(Transport(b.error));
      }
      return Success(BytesAsString(b.value));
    }

    /** The battery state of a connected smart vehicle (%). */
    method Soc() returns (r: Result<real, Error>)
      ensures r == SocOf(conn)
    {
      var b := conn.Read(RegSmartVehicleDetected, 1);
      if b.Failure? {
        return Failure(Transport(b.error));
      }
      ReadUint16(conn, RegSmartVehicleDetected, 1, 0);
      if Uint16(b.value) == 1 {
        b := conn.Read(RegEVBatteryState, 1);
        if b.Failure? {
          return Failure(Transport(b.error));
        }
        ReadUint16(conn, RegEVBatteryState, 1, 0);
        var soc := Uint16(b.value);
        if soc <= 100 {
          return Success(soc as real);
        }
      }
      return Failure(NotAvailable);
    }
  }

  /**
   * The metering part of the probe: the power (current layout) or phase
   * energy (legacy layout) register must read and not hold the sentinel;
   * only then are the voltage and battery registers probed.
   */
  method ProbeMetering(conn: Device, legacy: bool) returns (metering: bool, voltages: bool, soc: bool)
    ensures metering == MeteringOf(conn, legacy)
    ensures voltages == VoltagesOf(conn, legacy)
    ensures soc == BatteryOf(conn, legacy)
  {
    var reg := RegActivePower;
    if legacy {
      reg := RegPhaseEnergy;
    }
    metering, voltages, soc := false, false, false;
    var b := conn.Read(reg, 2);
    if b.Success? {
      ReadUint32(conn, reg, 2, 0);
    }
    if b.Success? && Uint32(b.value) != MaxUint32 {
      metering := true;
      var v := conn.Read(RegVoltages, 2);
      if v.Success? {
        ReadUint32(conn, RegVoltages, 2, 0);
      }
      if v.Success? && Uint32(v.value) > 0 {
        voltages := true;
      }
      if !legacy {
        var s := conn.Read(RegEVBatteryState, 1);
        if s.Success? {
          soc := true;
        }
      }
    }
  }

  /**
   * Opens a handle on `conn`: probes the register layout and the optional
   * features with reads only, and reports which optional operations the
   * handle offers.
   */
  method NewBenderCC(conn: Device) returns (wb: BenderCC, caps: Capabilities)
    ensures fresh(wb) && wb.conn == conn && wb.Valid()
    ensures wb.current == MinCurrent
    ensures wb.legacy == !conn.Readable(RegChargePointModel, 10)
    ensures wb.regCurr == if conn.Readable(RegHemsCurrentLimit10, 1) then RegHemsCurrentLimit10 else RegHemsCurrentLimit
    ensures caps == CapabilitiesOf(conn)
    ensures unchanged(conn)
  {
    wb := new BenderCC(conn);

    // the model register is missing from the legacy register set
    var model := conn.Read(RegChargePointModel, 10);
    if model.Failure? {
      wb.legacy := true;
    }

    var metering, voltages, soc := ProbeMetering(conn, wb.legacy);

    // current limit in 0.1 A steps
    var millis := false;
    var m := conn.Read(RegHemsCurrentLimit10, 1);
    if m.Success? {
      millis := true;
      wb.regCurr := RegHemsCurrentLimit10;
    }

    // power limit for phase switching
    var p := conn.Read(RegHemsPowerLimit, 1);
    var phases := p.Success?;

    // identification
    var id := wb.Identify();

    caps := Capabilities(
      meter := metering,
      phaseCurrents := metering,
      phaseVoltages := voltages,
      meterEnergy := metering,
      battery := soc,
      identifier := id.Success?,
      chargerEx := millis,
      phaseSwitcher := phases,
      phaseGetter := phases);
  }
}
