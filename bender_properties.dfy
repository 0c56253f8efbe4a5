/**
 * Properties of the Bender driver that relate several operations, or an
 * operation and the registers it reads: the setpoint finding, the identify
 * fallback chain, the sentinel handling of phase readings, the probe's
 * capability exclusion, and client sequences of calls on one handle.
 */
module BenderProperties {
  import opened Wrappers
  import opened Modbus
  import opened Bender

  // ---------------------------------------------------------------------------
  // MaxCurrent's 16-bit conversion

  /** As written, a request of 65536 A passes the minimum check and writes and caches 0. */
  lemma MaxCurrentAsWrittenStoresZero()
    ensures MaxCurrentAsWritten(0x1_0000) == Success(0)
    ensures MaxCurrentAsWritten(0x1_0000 + 3) == Success(3)
  {
  }

  /** The checked setpoint agrees with the source on every request that fits 16 bits. */
  lemma CurrentSetpointAgreesBelow16Bits(current: Int64)
    requires current < 0x1_0000
    ensures CurrentSetpoint(current) == MaxCurrentAsWritten(current)
  {
  }

  // ---------------------------------------------------------------------------
  // Identifier blocks

  /** A block of zero registers carries the empty identifier. */
  lemma {:induction false} ZeroBlockIsEmpty(ws: seq<Word>)
    requires forall i | 0 <= i < |ws| :: ws[i] == 0
    ensures BytesAsString(Encode(ws)) == ""
  {
    var b := Encode(ws);
    forall k | 0 <= k < |b|
      ensures b[k] == 0
    {
      EncodeAt(ws, k / 2);
      assert k == 2 * (k / 2) || k == 2 * (k / 2) + 1;
    }
  }

  /** In the current layout a smart vehicle's non-empty EVCCID is the identification. */
  lemma IdentifyPrefersEvccId(dev: Device)
    requires dev.Readable(RegSmartVehicleDetected, 1) && dev.regs[RegSmartVehicleDetected] != 0
    requires dev.Readable(RegEVCCID, 6) && EvccId(dev) != ""
    ensures IdentifyOf(dev, false) == Success(EvccId(dev))
  {
  }

  /**
   * Without a smart vehicle, with an empty EVCCID, or in the legacy layout,
   * the identification is the user id, empty or not, or the error of reading it.
   */
  lemma IdentifyFallsBackToUserId(dev: Device, legacy: bool)
    requires legacy ||
      (dev.Readable(RegSmartVehicleDetected, 1) &&
       (dev.regs[RegSmartVehicleDetected] == 0 || (dev.Readable(RegEVCCID, 6) && EvccId(dev) == "")))
    ensures dev.Readable(RegUserID, 10) ==> IdentifyOf(dev, legacy) == Success(UserId(dev))
    ensures !dev.Readable(RegUserID, 10) ==> IdentifyOf(dev, legacy) == Failure(ReadError(dev, RegUserID, 10))
  {
  }

  /** An EVCCID block of zero registers falls back to the user id. */
  lemma IdentifyZeroEvccIdFallsBack(dev: Device)
    requires dev.Readable(RegSmartVehicleDetected, 1) && dev.regs[RegSmartVehicleDetected] != 0
    requires dev.Readable(RegEVCCID, 6)
    requires forall i | RegEVCCID <= i < RegEVCCID + 6 :: dev.regs[i] == 0
    requires dev.Readable(RegUserID, 10)
    ensures IdentifyOf(dev, false) == Success(UserId(dev))
  {
    ZeroBlockIsEmpty(dev.Block(RegEVCCID, 6));
  }

  /** In the current layout the errors of the flag and EVCCID reads are returned, not papered over. */
  lemma IdentifyPropagatesReadErrors(dev: Device)
    requires dev.Readable(RegSmartVehicleDetected, 1) && dev.regs[RegSmartVehicleDetected] != 0
    requires !dev.Readable(RegEVCCID, 6)
    ensures IdentifyOf(dev, false) == Failure(ReadError(dev, RegEVCCID, 6))
  {
  }

  // ---------------------------------------------------------------------------
  // Phase readings

  /** A phase slot holding all ones reads as zero while the others keep their scaled value. */
  lemma SentinelSlotReadsZero(dev: Device, reg: nat, divider: real)
    requires divider > 0.0 && dev.Readable(reg, 6)
    requires dev.regs[reg + 2] == 0xFFFF && dev.regs[reg + 3] == 0xFFFF
    ensures PhaseValues(dev, reg, divider).value.1 == 0.0
    ensures dev.Reg32(reg) != MaxUint32 ==> PhaseValues(dev, reg, divider).value.0 * divider == dev.Reg32(reg) as real
  {
  }

  /** Each of the three slots reads 0 when its register pair is all ones, and its scaled 32-bit value otherwise. */
  lemma PhaseValuesPerSlot(dev: Device, reg: nat, divider: real)
    requires divider > 0.0 && dev.Readable(reg, 6)
    ensures var p := PhaseValues(dev, reg, divider).value;
      (dev.Reg32(reg) == MaxUint32 ==> p.0 == 0.0) &&
      (dev.Reg32(reg) != MaxUint32 ==> p.0 * divider == dev.Reg32(reg) as real) &&
      (dev.Reg32(reg + 2) == MaxUint32 ==> p.1 == 0.0) &&
      (dev.Reg32(reg + 2) != MaxUint32 ==> p.1 * divider == dev.Reg32(reg + 2) as real) &&
      (dev.Reg32(reg + 4) == MaxUint32 ==> p.2 == 0.0) &&
      (dev.Reg32(reg + 4) != MaxUint32 ==> p.2 * divider == dev.Reg32(reg + 4) as real)
  {
  }

  /** A reading stored big-endian in two registers decodes to the reading, unless it is the sentinel. */
  lemma PhaseValueOfStoredReading(dev: Device, reg: nat, divider: real, v: nat)
    requires divider > 0.0 && dev.Readable(reg, 6) && v < MaxUint32
    requires dev.regs[reg] == v / 0x1_0000 && dev.regs[reg + 1] == v % 0x1_0000
    ensures PhaseValues(dev, reg, divider).value.0 == v as real / divider
  {
  }

  // ---------------------------------------------------------------------------
  // The probe

  /** A device that answers none of the optional probes offers none of the optional operations. */
  lemma NoOptionalCapabilities(dev: Device)
    requires !dev.Readable(RegActivePower, 2) && !dev.Readable(RegPhaseEnergy, 2)
    requires !dev.Readable(RegHemsCurrentLimit10, 1) && !dev.Readable(RegHemsPowerLimit, 1)
    requires !dev.Readable(RegSmartVehicleDetected, 1) && !dev.Readable(RegUserID, 10)
    ensures CapabilitiesOf(dev) == Capabilities(false, false, false, false, false, false, false, false, false)
  {
  }

  /** A meter whose probed register holds the sentinel counts as absent, and so do voltages and SoC. */
  lemma SentinelMeansNoMeter(dev: Device)
    requires dev.Readable(RegChargePointModel, 10) && dev.Readable(RegActivePower, 2)
    requires dev.regs[RegActivePower] == 0xFFFF && dev.regs[RegActivePower + 1] == 0xFFFF
    ensures !CapabilitiesOf(dev).meter && !CapabilitiesOf(dev).phaseVoltages && !CapabilitiesOf(dev).battery
  {
  }

  /** Probing a controller that has only the status and whole-ampere registers finds no optional feature. */
  method ProbeMinimalController() returns (caps: Capabilities)
    ensures caps == Capabilities(false, false, false, false, false, false, false, false, false)
  {
    var dev := new Device(map[RegChargePointState := 2, RegHemsCurrentLimit := 0], {}, {});
    assert RegChargePointModel !in dev.regs && RegPhaseEnergy !in dev.regs;
    assert RegHemsCurrentLimit10 !in dev.regs && RegHemsPowerLimit !in dev.regs;
    assert RegUserID !in dev.regs;
    var wb;
    wb, caps := NewBenderCC(dev);
  }

  // ---------------------------------------------------------------------------
  // Sequences of calls on one handle

  /** After a successful Enable(b), Enabled reports b; the handle's own state is untouched. */
  method EnableThenEnabled(wb: BenderCC, enable: bool) returns (w: Outcome<Error>, e: Result<bool, Error>)
    requires wb.Valid()
    modifies wb.conn
    ensures w.Pass? && wb.conn.Readable(wb.regCurr, 1) ==> e == Success(enable)
    ensures wb.current == old(wb.current) && wb.regCurr == old(wb.regCurr) && wb.legacy == old(wb.legacy)
  {
    w := wb.Enable(enable);
    e := wb.Enabled();
  }

  /** After MaxCurrent(10), enabling a whole-ampere handle writes exactly 10 to its current limit. */
  method SetCurrentThenEnable(wb: BenderCC) returns (s: Outcome<Error>, w: Outcome<Error>)
    requires wb.Valid() && wb.regCurr == RegHemsCurrentLimit
    modifies wb, wb.conn
    ensures s.Pass? && w.Pass? ==>
      wb.current == 10 && RegHemsCurrentLimit in wb.conn.regs && wb.conn.regs[RegHemsCurrentLimit] == 10
  {
    s := wb.MaxCurrent(10);
    w := wb.Enable(true);
  }

  /**
   * MaxCurrent caches whole amperes even on a handle whose active register
   * counts tenths, so a later Enable(true) writes 16 to the 0.1 A register.
   */
  method WholeAmpsIntoTenthsRegister(wb: BenderCC) returns (s: Outcome<Error>, w: Outcome<Error>)
    requires wb.Valid() && wb.regCurr == RegHemsCurrentLimit10
    modifies wb, wb.conn
    ensures s.Pass? && w.Pass? ==>
      RegHemsCurrentLimit in wb.conn.regs && wb.conn.regs[RegHemsCurrentLimit] == 16 &&
      RegHemsCurrentLimit10 in wb.conn.regs && wb.conn.regs[RegHemsCurrentLimit10] == 16
  {
    s := wb.MaxCurrent(16);
    w := wb.Enable(true);
  }

  /** After a successful Phases1p3p(n), GetPhases reports 1 exactly when n is 1, and 3 otherwise. */
  method SwitchThenGetPhases(wb: BenderCC, phases: int) returns (w: Outcome<Error>, g: Result<int, Error>)
    modifies wb.conn
    ensures w.Pass? && wb.conn.Readable(RegHemsPowerLimit, 1) ==> g == Success(if phases == 1 then 1 else 3)
  {
    w := wb.Phases1p3p(phases);
    g := wb.GetPhases();
  }
}
