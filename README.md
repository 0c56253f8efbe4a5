# Bender CC612/613 charger driver, modelled in Dafny

This project models the driver for charge controllers of the Bender CC612/613
series (`charger/bender.go`). The driver talks Modbus TCP to the controller.
All it uses are holding-register reads (function code 0x03) and multi-register
writes (function code 0x10), with multi-register values in big-endian order
(sections 6.3, 6.12 and 4.2 of the Modbus Application Protocol Specification
V1.1b3).

The model has two parts:

- **The probe.** `Bender.NewBenderCC` opens a handle on a device. It tells the
  legacy register layout from the current one, picks the current-limit
  register (1000 for whole amperes, 1001 for tenths), and finds the optional
  features: metering, phase voltages, battery state, 0.1 A control, phase
  switching and identification. It only reads. Its result is a
  `Capabilities` record with one flag per optional operation. The record
  stands for the decorated charger the source builds.
- **The register codec.** Each operation of the `Bender.BenderCC` class issues
  its register transactions and decodes them. Each method is proved against a
  specification function over the device's registers: `StatusOf`,
  `PhaseValues`, `TotalEnergyOf`, `CurrentPowerOf`, `SocOf`, `IdentifyOf`,
  `CapabilitiesOf`. Lemmas state what those functions promise.

Modules:

- `Wrappers` (wrappers.dfy): result and outcome types for Go's `(value, error)`
  returns.
- `Modbus` (modbus.dfy): bytes and 16-bit registers, the big-endian codec with
  its round trips, and the class `Device`. A `Device` is a simulated server: a
  register map, the reads that fail in transport, and the addresses where
  writes fail. It also answers Modbus exceptions for a quantity out of range
  and for missing registers.
- `Bender` (bender.dfy): the register catalogue, the decoding functions, the
  handle class and the probe.
- `BenderProperties` (bender_properties.dfy): lemmas that relate operations,
  plus client methods that chain calls on one handle (enable then read back,
  set a current then enable, switch phases then read back).

The cached current is not kept in the unit of the active register.
`MaxCurrent` always writes register 1000 and caches whole amperes, even on a
handle whose `regCurr` is 1001. A later `Enable(true)` then writes those whole
amperes into the 0.1 A register. The model keeps this behaviour and shows it
in `BenderProperties.WholeAmpsIntoTenthsRegister`.

## Model

| member | source | states |
|---|---|---|
| `Modbus.WordBytes` | charger/bender.go:207-209 | the two bytes put for a register are its high byte then its low byte, and they recombine to the register |
| `Modbus.Encode` | charger/bender.go:300 | a sequence of registers travels as twice as many bytes |
| `Modbus.Uint32` | charger/bender.go:139 | a big-endian 32-bit value read from four bytes never exceeds the all-ones value |
| `Modbus.Uint16` | charger/bender.go:183 | a 16-bit value read from two bytes has the first byte as its high byte and the second as its low byte |
| `Modbus.Decode` | charger/bender.go:212 | an even byte string carries half as many registers |
| `Modbus.DecodeEncode` | charger/bender.go:224-226 | decoding the bytes of any register sequence gives that sequence back |
| `Modbus.EncodeDecode` | charger/bender.go:178-183 | encoding the registers decoded from any even byte string gives the bytes back |
| `Modbus.EncodeAt` | charger/bender.go:307 | register i sits at bytes 2i (high) and 2i+1 (low) of the encoding |
| `Modbus.ZeroBytesIffZeroWords` | charger/bender.go:359-363 | a register block travels as all zero bytes exactly when every register in it is zero |
| `Modbus.Uint16At` | charger/bender.go:183 | the 16-bit value at byte 2i of an encoding is register i |
| `Modbus.Uint32At` | charger/bender.go:307 | the 32-bit value at byte 2i of an encoding is register i times 65536 plus register i+1 |
| `Modbus.Store` | charger/bender.go:212 | a multi-register write keeps the set of registers, replaces those from the start address by the written words and leaves every other one as it was |
| `Modbus.Device.constructor` | charger/bender.go:40 | the handle's `conn` is stood for by a simulated server that starts with the given registers and failure sets |
| `Modbus.Device.Block` | charger/bender.go:300 | the registers of a read, in address order, as many as were asked for |
| `Modbus.Device.Reg32` | charger/bender.go:263-268 | the value joined from two registers is at most the all-ones 32-bit value |
| `Modbus.Device.Read` | charger/bender.go:117 | a read answers data exactly when it is readable; the data is twice as many bytes as registers and decodes to those registers; an out-of-range quantity is an exception |
| `Modbus.Device.WriteMultipleRegisters` | charger/bender.go:212 | a write succeeds exactly when the registers exist, the start address does not fail and the byte count matches; success stores the decoded data, failure changes nothing |
| `Modbus.ReadUint16` | charger/bender.go:183 | the 16-bit value at byte 2k of a read of n registers from a is register a+k |
| `Modbus.ReadUint32` | charger/bender.go:307 | the 32-bit value at byte 2k of a read from a is the 32-bit value of registers a+k and a+k+1 |
| `Modbus.StoreWord` | charger/bender.go:212 | writing the two bytes of one word changes exactly that register to the word |
| `Bender.StatusOf` | charger/bender.go:183-192 | 1 means A, 2 means B, 3 or 4 mean C, and exactly the other codes give an invalid-status error carrying the code |
| `Bender.PowerLimitFor` | charger/bender.go:329-334 | the power limit written for n phases reads back as 1 phase exactly when n is 1, else 3 |
| `Bender.PhasesOf` | charger/bender.go:348-352 | a power limit means one phase exactly when it is at most 3725, else three |
| `Bender.PhaseValue` | charger/bender.go:307-311 | the all-ones sentinel reads as 0; any other raw value is the reading times the divider; readings are never negative |
| `Bender.TrimTrailingZeros` | charger/bender.go:363 | the trimmed block is a prefix of the block, does not end in a zero byte, and only zero bytes were dropped |
| `Bender.BytesAsString` | charger/bender.go:373 | an identifier block of all zero bytes gives the empty string; the text is never longer than the block; with the model's trailing-zero decoding the converse holds too (see Left out) |
| `Bender.TruncateUint16` | charger/bender.go:224 | Go's uint16 conversion keeps the value modulo 65536 |
| `Bender.MaxCurrentAsWritten` | charger/bender.go:219-228 | as written, every request of at least 6 A is accepted; the value written is congruent to the request modulo 65536, and equals it when it fits 16 bits |
| `Bender.CurrentSetpoint` | charger/bender.go:219-228 | a request is accepted exactly when it lies in 6..65535; the accepted value is the request and at least 6; others give the invalid-current error |
| `Bender.MillisSetpoint` | charger/bender.go:236-240 | a request is accepted exactly when it is at least 6 A; the value written is the request in whole tenths, truncated, and is at least 60 |
| `Bender.PhaseValues` | charger/bender.go:299-315 | three phase readings exist exactly when the six registers are readable, and none is negative |
| `Bender.PhaseEnergy` | charger/bender.go:282-285 | the running sum of per-phase energies is never negative |
| `Bender.PhaseEnergyOfThree` | charger/bender.go:282-287 | the legacy total, times 1000, is the sum of the three uint32 registers at 200, 202 and 204 |
| `Bender.TotalEnergyOf` | charger/bender.go:275-296 | legacy: succeeds exactly when 200..205 are readable, and is their three uint32 values summed over 1000 with no sentinel handling; otherwise: the uint32 at 218 over 1000 |
| `Bender.CurrentPowerOf` | charger/bender.go:257-269 | legacy: 230 times the sum of the three phase currents, failing exactly when they cannot be read; otherwise the uint32 at 220 in watts; never negative |
| `Bender.SocOf` | charger/bender.go:377-394 | a failed flag read is passed on; a flag other than 1 gives not-available whatever 730 holds; with flag 1 a failed read of 730 is passed on and a battery value above 100 gives not-available; success happens exactly for flag 1 and a readable battery value up to 100, and returns that value |
| `Bender.EvccId` | charger/bender.go:360-363 | the EVCCID decoded from registers 741..746 has at most 12 characters and is empty when all six registers are zero; with the model's trailing-zero decoding, only then (see Left out) |
| `Bender.UserId` | charger/bender.go:368-373 | the user id decoded from registers 720..729 has at most 20 characters and is empty when all ten registers are zero; with the model's trailing-zero decoding, only then (see Left out) |
| `Bender.IdentifyOf` | charger/bender.go:356-374 | an identification is at most 20 characters; a flag read error is passed on in the current layout; an empty identification is always the user id |
| `Bender.MeteringOf` | charger/bender.go:134-140 | the metering probe: in the current layout, on the same device state, a device that passes it answers the power read at 220 with a value below all ones |
| `Bender.VoltagesOf` | charger/bender.go:145-147 | the meter-voltage probe: on the same device state, a device that passes it and whose voltage registers read reports a positive first-phase voltage unless that slot holds the sentinel |
| `Bender.BatteryOf` | charger/bender.go:149-153 | the battery probe: on the same device state, a device that passes it and has a smart vehicle (flag 1) gives a battery state that succeeds or is not available, and no read error |
| `Bender.CapabilitiesOf` | charger/bender.go:133-171 | power, currents and energy come together; voltages and battery need metering; battery needs the current layout; 0.1 A control is there exactly when 1001 is readable; phase switching and reading come together, exactly when 1002 is readable |
| `Bender.BenderCC.constructor` | charger/bender.go:110-114 | a new handle caches 6 A, uses register 1000 and starts in the current layout |
| `Bender.BenderCC.Status` | charger/bender.go:177-193 | a failed read of 122 passes its fault on; otherwise the status is the decoding of register 122 |
| `Bender.BenderCC.Enabled` | charger/bender.go:196-203 | the charger is enabled exactly when the active current-limit register is not zero; a failed read passes its fault on |
| `Bender.BenderCC.Enable` | charger/bender.go:206-215 | the active current-limit register gets the cached current (enable) or 0 (disable); nothing else changes, and nothing at all on a failed write |
| `Bender.BenderCC.MaxCurrent` | charger/bender.go:218-232 | a request outside 6..65535 is rejected before any write; a successful write sets register 1000 and the cache to the request; a failed write changes neither; the cache stays at least 6 |
| `Bender.BenderCC.MaxCurrentMillis` | charger/bender.go:235-251 | a request below 6 A is rejected before any write; a successful write sets register 1001 and the cache to the request in truncated tenths; a failed write changes neither; the cache stays at least 6 |
| `Bender.BenderCC.CurrentPower` | charger/bender.go:257-269 | the result is the power specified by CurrentPowerOf for the handle's layout |
| `Bender.BenderCC.TotalEnergy` | charger/bender.go:275-296 | the loop over the three legacy phases yields the energy specified by TotalEnergyOf |
| `Bender.BenderCC.GetPhaseValues` | charger/bender.go:299-315 | the loop over the three slots yields the readings specified by PhaseValues |
| `Bender.BenderCC.Currents` | charger/bender.go:318-320 | the phase currents are the readings at 212 divided by 1000 |
| `Bender.BenderCC.Voltages` | charger/bender.go:323-325 | the phase voltages are the readings at 222 divided by 1 |
| `Bender.BenderCC.Phases1p3p` | charger/bender.go:328-339 | register 1002 gets 3725 for one phase and 65535 for anything else; a failed write changes nothing |
| `Bender.BenderCC.GetPhases` | charger/bender.go:342-353 | the phase count is the one register 1002's power limit allows; a failed read passes its fault on |
| `Bender.BenderCC.Identify` | charger/bender.go:356-374 | the identification is the one IdentifyOf specifies for the handle's layout |
| `Bender.BenderCC.Soc` | charger/bender.go:377-394 | the battery state is the one SocOf specifies |
| `Bender.ProbeMetering` | charger/bender.go:133-154 | metering holds exactly when the power register (current layout) or the phase-energy register (legacy) reads and is not all ones; voltages need metering and a positive value at 222; the battery needs metering, the current layout and a readable 730 |
| `Bender.NewBenderCC` | charger/bender.go:110-173 | legacy holds exactly when the model read fails; regCurr is 1001 exactly when 1001 is readable, else 1000; the flags are CapabilitiesOf the device; the cache is 6 A; no register changes |
| `BenderProperties.MaxCurrentAsWrittenStoresZero` | charger/bender.go:219-228 | as written, a request of 65536 A passes the guard and writes and caches 0, and 65539 A writes and caches 3 |
| `BenderProperties.CurrentSetpointAgreesBelow16Bits` | charger/bender.go:219-228 | the checked setpoint and the source agree on every request below 65536 |
| `BenderProperties.ZeroBlockIsEmpty` | charger/bender.go:359-363 | a block of zero registers decodes to the empty string |
| `BenderProperties.IdentifyPrefersEvccId` | charger/bender.go:357-365 | in the current layout, a smart vehicle with a non-empty EVCCID is identified by it |
| `BenderProperties.IdentifyFallsBackToUserId` | charger/bender.go:363-373 | in the legacy layout, with no smart vehicle, or with an empty EVCCID, the result is the user id even if empty, or its read error |
| `BenderProperties.IdentifyZeroEvccIdFallsBack` | charger/bender.go:358-373 | an EVCCID block of zero registers falls back to the user id |
| `BenderProperties.IdentifyPropagatesReadErrors` | charger/bender.go:360-364 | an EVCCID read error is returned at once |
| `BenderProperties.SentinelSlotReadsZero` | charger/bender.go:306-311 | a slot of all ones reads 0 while a neighbouring slot keeps its scaled value |
| `BenderProperties.PhaseValuesPerSlot` | charger/bender.go:305-312 | each of the three slots reads 0 when its register pair holds all ones, and otherwise is that pair's 32-bit value over the divider |
| `BenderProperties.PhaseValueOfStoredReading` | charger/bender.go:307-311 | a non-sentinel reading stored big-endian in two registers decodes to the reading over the divider |
| `BenderProperties.NoOptionalCapabilities` | charger/bender.go:133-171 | a device that answers none of the optional probes offers none of the optional operations |
| `BenderProperties.SentinelMeansNoMeter` | charger/bender.go:139-153 | an all-ones power register means no metering, hence no voltages and no battery state |
| `BenderProperties.ProbeMinimalController` | charger/bender.go:116-173 | probing a controller with only the status and whole-ampere registers finds no optional feature |
| `BenderProperties.EnableThenEnabled` | charger/bender.go:196-215 | after a successful Enable(b), Enabled reports b, and the handle's cache, register choice and layout are unchanged |
| `BenderProperties.SetCurrentThenEnable` | charger/bender.go:218-232 | after MaxCurrent(10) and Enable(true) succeed on a whole-ampere handle, register 1000 holds 10 |
| `BenderProperties.WholeAmpsIntoTenthsRegister` | charger/bender.go:157-160 | on a 0.1 A handle, MaxCurrent(16) then Enable(true) leave 16 in both 1000 and 1001 |
| `BenderProperties.SwitchThenGetPhases` | charger/bender.go:328-353 | after a successful Phases1p3p(n), GetPhases reports 1 exactly when n is 1, else 3 |

## Findings

| source | as written | input that shows it | evidently intended | confidence | as-written member | corrected member |
|---|---|---|---|---|---|---|
| charger/bender.go:219-228 | the guard rejects only requests below 6 A, then `uint16(current)` keeps the low 16 bits of the int64 | `MaxCurrent(65536)` writes 0 to register 1000 and caches 0, so a later `Enable(true)` writes 0 and turns charging off | requests that do not fit 16 bits are rejected, so the written and cached value is the request and stays at least 6 | low; not executed; callers normally limit the current far below 65536 A | `BenderProperties.MaxCurrentAsWrittenStoresZero` | `Bender.CurrentSetpoint` |

`Bender.BenderCC.MaxCurrent` uses the corrected setpoint, so its contract keeps the cached
current at or above 6. `Bender.MaxCurrentAsWritten` is the source's conversion.
`BenderProperties.CurrentSetpointAgreesBelow16Bits` shows that the two agree on every request below 65536.

## Left out

- Opening the Modbus connection, the sponsor check and the logger (charger/bender.go:98-108) are I/O and licensing. The model starts from a given `Device`.
- `init`, the registry entry and `NewBenderCCFromConfig` (charger/bender.go:77-92) are global registration and generic config decoding.
- `decorateBenderCC` is generated code that is not part of this model. The probe returns `Capabilities` flags instead. A method of `BenderCC` can still be called when its flag is false, so structural exclusion is not modelled.
- `Diagnose` (charger/bender.go:399-429) only prints and returns nothing.
- The diagnostic-only registers 100, 104 and 120 belong to `Diagnose` and are not in the catalogue.
- Floating point: `/1e3`, `230*` and `current*10` are computed in `real`. IEEE rounding, NaN and infinities are not modelled.
- Bender.BenderCC.MaxCurrentMillis: requires `current * 10 < 65536`, because Go's float-to-uint16 conversion is implementation-defined out of range.
- `bytesAsString` is defined outside the files modelled here. The model removes trailing zero bytes and takes each byte as a character. Whitespace trimming and leading zero bytes are not modelled. The helper is assumed only to give the empty string for an all-zero block and never to lengthen the text. The identify lemmas rely on those two assumptions. The "only when all bytes are zero" direction also depends on the trailing-zero body.
- Bender.BytesAsString: the "empty only when all bytes are zero" direction holds for the model's decoding only; a helper that also trims whitespace would give the empty string for an all-space block.
- Bender.EvccId: "empty only when all six registers are zero" rests on the model's `BytesAsString`, not on the unshown helper.
- Bender.UserId: "empty only when all ten registers are zero" rests on the model's `BytesAsString`, not on the unshown helper.
- Error texts of `fmt.Errorf` are not modelled. An invalid status carries its code; an invalid current carries nothing.
- When `identify` fails, Go also returns the text decoded from the failed read's buffer. The model returns only the error.
- Transport details (timeouts, retries, TCP framing) are folded into one `TransportFailure` fault. It is configured per read `(address, count)` and per write start address.
- The device is modelled as one state: register values and failing reads stay the same between the probe in `NewBenderCC` and later calls, except for the driver's own writes. On a real charger a register can change, or a read can start to fail, after the probe; the facts stated for `MeteringOf`, `VoltagesOf` and `BatteryOf` hold only for the device state the probe saw.
- Concurrency: the handle is used by one caller at a time. Nothing here models concurrent calls.
- api/plans.go is a plain data structure with no behaviour.
