# BQ25895 charger driver — a Dafny model

This project models the driver for the TI BQ25895 single-cell Li-ion charger. The driver talks
to the chip over I2C and covers:

- programming charge current, input current limit, charge voltage, termination current and the
  input-voltage regulation threshold (VINDPM);
- status, fault and ADC measurement read-out;
- emergency battery mode and ship mode;
- USB reconnection recovery, power-loss and shutdown handling;
- BATFET, charging-restart and register-repair helpers;
- a protective shutdown on over-voltage;
- a register self-test.

The model also covers the mock I2C device of the test suite, together with the test scenarios
as methods whose postconditions are the tests' expectations.

The model is in two layers.

- **A pure layer.** `Session` holds one function per driver operation. Each maps a
  `DriverState` (the driver's fields plus the device, as an `Option<Bus>`) to its successor
  state and result. `Bus` is the mock device's state:
  - its register map;
  - its injected-failure flags and counters;
  - a trace of every transfer.

  The lemma modules state what each operation does to the registers and flags:
  - `Transport`: bus retries and read-modify-write;
  - `Lifecycle`: initialisation and setters;
  - `Protection`: emergency, shutdown and voltage safety;
  - `Monitoring`: status, metrics, faults and VBUS;
  - `Recovery`: USB recovery, self-test, BATFET, restart and repair;
  - `Controls`: the remaining single-register operations;
  - `CodecLaws`: the register encodings.
- **An imperative layer.** `Mock.MockI2CDevice` and `Driver.BQ25895Driver` are classes whose
  fields the methods update in place. Every driver method runs its bus transactions step by step
  through the mock object. Its postcondition ties the new object state and the result to the
  pure function, as `(Abs(), ok) == Session.Op(old(Abs()))`, so every lemma about
  `Session.Op` holds for the method as well. `Scenarios` drives the two classes the way the
  test cases do.

Supporting modules:

| module | contents |
|---|---|
| `Base` | bytes, 16/32-bit integers, the wrap-around clock difference, C division |
| `Bits` | the bit view of bytes and the masked merge of `updateRegisterBits` |
| `Registers` | register addresses, masks and the VBUS / charge-status enumerations |
| `Codec` | every field encoding and decoding the driver performs |
| `Settings` | the configuration presets and the default status and metrics records |

Modelling choices:

- Registers are bytes (integers 0..255). C bit operations with fixed masks are written
  arithmetically (`x & 0x7F` is `x % 128`, `(x & 0xE0) >> 5` is `x / 32`).
- The generic masked update is a per-bit merge with a per-bit characterisation.
- `millis()` becomes a `now` parameter. `unsigned long` differences wrap modulo 2^32.
- The driver operations run the code as written, including the defects listed under
  "## Findings": `SetChargeVoltage` uses the masked `ChargeVoltageField`, the VINDPM step of
  `Initialize` the 4-bit `VindpmReg`, and `RepairRegisters` writes register 0x02. Each defect
  also has a corrected definition (`ClampedChargeVoltageField`, `ClampedVindpmReg`,
  `RepairRegistersCorrected`) with the evidently intended property proved about it.

## Model

| member | source | states |
|---|---|---|
| Base.Elapsed | src/BQ25895Driver.cpp:813 | the unsigned `now - since`: the plain difference without rollover, the difference plus 2^32 after a rollover |
| Base.TruncDiv | src/BQ25895Driver.cpp:317 | C integer division: equal to floor division for non-negative dividends, rounded toward zero (never below the true quotient) for negative ones |
| Registers.VBusTypeOf | src/BQ25895Driver.h:64-73 | casting a 3-bit code to `VBusType` yields the enumerator with that numeric value |
| Registers.ChargeStatusOf | src/BQ25895Driver.h:76-81 | casting a 2-bit code to `ChargeStatus` yields the enumerator with that numeric value |
| Registers.VBusFieldTotal | src/BQ25895Driver.h:52-61 | VBUS_STAT_MASK selects exactly bits 7-5; `(b & mask) >> shift` is `b / 32`; code and enumerator convert both ways without loss |
| Registers.ChargeFieldTotal | src/BQ25895Driver.cpp:181 | `(b >> 3) & 0x03` is `b / 8 % 4`; the 2-bit code and `ChargeStatus` convert both ways without loss |
| Registers.WatchdogField | src/BQ25895Driver.h:52-61 | WATCHDOG_MASK selects exactly bits 5-4; the disable setting shifted into place is 0 and the 160 s setting fills the mask |
| Bits.MergeSelects | src/BQ25895Driver.cpp:994 | in `(current & ~mask) \| (value & mask)` every bit the mask selects comes from `value` and every other bit from `current` |
| Bits.MergeUnchanged | src/BQ25895Driver.cpp:986-1006 | the merged byte equals the current one exactly when every masked bit already has the requested value, the case in which the write is skipped |
| Bits.FlipLowBit | src/BQ25895Driver.cpp:859 | `b ^ 0x01` differs from `b` in bit 0 and agrees above it |
| Codec.ChargeCurrentCode | src/BQ25895Driver.cpp:283 | the ICHG code has 7 bits; below 8192 mA it is the number of whole 64 mA steps |
| Codec.InputCurrentCode | src/BQ25895Driver.cpp:296-303 | 0 up to 100 mA; the number of whole 50 mA steps above 100 mA up to 3250 mA; 0x3F above 3250 mA |
| Codec.ChargeVoltageField | src/BQ25895Driver.cpp:317 | the expression as written: the whole 16 mV steps above 3840 mV within 3840..4863 mV; 0 for 3825..3839 mV (truncating division); a 6-bit field always |
| Codec.ClampedChargeVoltageField | src/BQ25895Driver.cpp:314-317 | the intended VREG field: 0 below 3840 mV, the whole 16 mV steps in range, 63 from 4864 mV up |
| Codec.ChargeVoltageReg | src/BQ25895Driver.cpp:327 | bits 1-0 of the old REG06 are kept, bits 7-2 hold the field, and the field reads back unchanged |
| Codec.InputCurrentReg | src/BQ25895Driver.cpp:1226-1235 | bits 5-0 of REG00 hold the code, bits 7-6 of the old value are kept |
| Codec.TerminationCode | src/BQ25895Driver.cpp:343-350 | 0 up to 64 mA; the whole 64 mA steps above 64 mA up to 1024 mA; 0x0F above |
| Codec.TerminationReg | src/BQ25895Driver.cpp:360 | bits 3-0 hold ITERM, bits 7-4 of the old REG05 are kept |
| Codec.VindpmReg | src/BQ25895Driver.cpp:90-96 | the expression as written: FORCE_VINDPM (bit 7) always set; within 2600..4199 mV the low bits count whole 100 mV steps above 2600 mV (outside that range it wraps, see `CodecLaws.VindpmWraps` and `CodecLaws.VindpmBelowRangeWraps`) |
| Codec.ClampedVindpmReg | src/BQ25895Driver.cpp:90-96 | the intended REG0D: bit 7 set; 0x80 below 2600 mV; the whole 100 mV steps over the full 7-bit range; 0xFF at the top |
| Codec.VendorId | src/BQ25895Driver.cpp:1055 | the vendor id is bits 7-3 of REG0A, as a 5-bit number |
| Codec.StatusVBus | src/BQ25895Driver.cpp:180 | the reported VBUS type is the one whose code is bits 7-5 of REG0B |
| Codec.StatusCharge | src/BQ25895Driver.cpp:181 | the reported charge status is the one whose code is bits 4-3 of REG0B |
| Codec.WatchdogFault | src/BQ25895Driver.cpp:193 | the watchdog fault holds exactly when bit 7 of REG0C is set |
| Codec.OtgFault | src/BQ25895Driver.cpp:449 | the OTG fault holds exactly when bit 6 is set |
| Codec.ChargeFault | src/BQ25895Driver.cpp:194 | the charge fault holds exactly when bit 5 or bit 4 is set |
| Codec.BatteryFault | src/BQ25895Driver.cpp:195 | the battery fault holds exactly when bit 3 is set |
| Codec.NtcFault | src/BQ25895Driver.cpp:196 | the NTC fault holds exactly when one of bits 2-0 is set |
| Codec.FaultLabels | src/BQ25895Driver.cpp:447-452 | each group's label is listed exactly when one of that group's bits is set; the list is empty exactly for a zero register |
| Codec.FaultGroupsCover | src/BQ25895Driver.cpp:443-452 | a fault register is non-zero exactly when one of the five groups is present, so no non-zero register decodes to an empty list |
| Codec.DecodeFaults | src/BQ25895Driver.cpp:442-464 | zero decodes to "No faults"; otherwise the labels, space-separated with the trailing space removed, followed by " fault(s)" |
| Codec.StripLastSpace | src/BQ25895Driver.cpp:454-458 | removing the last character of the space-terminated label list leaves the space-separated list |
| Codec.VBusStatusLabel | src/BQ25895Driver.cpp:789-801 | the text is "Invalid" exactly for codes from 8 up, and "No Input" exactly for code 0 |
| Codec.BatteryMillivolts | src/BQ25895Driver.cpp:223 | 2304..4844 mV in 20 mV steps; the step count is the 7-bit BATV field |
| Codec.InputMillivolts | src/BQ25895Driver.cpp:233 | 2600..15300 mV in 100 mV steps; the step count is the 7-bit VBUSV field |
| Codec.ChargeMilliamps | src/BQ25895Driver.cpp:238 | 0..6350 mA in 50 mA steps; the step count is the 7-bit ICHGR field |
| Codec.TsMillivolts | src/BQ25895Driver.cpp:244 | 0..5000 mV; the floor of 5000 times the 7-bit TSPCT field divided by 127 |
| Settings.DefaultConfig | src/BQ25895Driver.h:103-112 | default configuration: 1500 mA input, 2000 mA charge, 4208 mV, 128 mA termination, 3900 mV VINDPM, 5500 mV safety limit, watchdog and safety timer disabled |
| Settings.LedDriverPreset | src/BQ25895Driver.h:118-129 | the LED-driver preset differs from the defaults in exactly the five fields the header sets |
| Settings.PortableDevicePreset | src/BQ25895Driver.h:132-143 | the portable-device preset differs from the defaults in exactly the six fields the header sets |
| Settings.FastChargingPreset | src/BQ25895Driver.h:146-157 | the fast-charging preset is the portable preset with higher input, charge and termination currents |
| Settings.LabTestingPreset | src/BQ25895Driver.h:160-171 | the lab-testing preset differs from the defaults in exactly the six fields the header sets |
| Settings.DefaultMetrics | src/BQ25895Driver.h:175-182 | a fresh metrics record is all zero except its timestamp |
| Settings.DefaultStatus | src/BQ25895Driver.h:185-198 | a fresh status record reports no input, not charging, no faults, no error |
| Mock.WithDefaults | test/test_bq25895_driver.cpp:49-59 | the nine default registers take their listed values; every other register keeps its value |
| Mock.Store | test/test_bq25895_driver.cpp:79-90 | a write that is not a REG14 reset stores its value in its register and changes no other |
| Mock.BusWrite | test/test_bq25895_driver.cpp:67-93 | an injected failure consumes one pending failure and changes no register; otherwise exactly a two-byte buffer succeeds and is stored; every call is traced |
| Mock.BusRead | test/test_bq25895_driver.cpp:96-125 | an injected failure consumes one pending failure; otherwise a one-byte request returns the register (0 when unset) and a read of REG0C clears it; every call is traced |
| Mock.WithVBusType | test/test_bq25895_driver.cpp:136-140 | the new REG0B decodes to the simulated VBUS type and keeps bits 4-0 |
| Mock.WithChargeStatus | test/test_bq25895_driver.cpp:142-146 | the new REG0B decodes to the simulated charge status and keeps the VBUS field and bits 2-0 |
| Mock.BatteryVoltageCode | test/test_bq25895_driver.cpp:152-156 | within the ADC's range the encoded voltage decodes to the 20 mV step just below the simulated voltage |
| Mock.ChargeCurrentCodeOf | test/test_bq25895_driver.cpp:158-162 | within the ADC's range the encoded current decodes to the 50 mA step just below the simulated current |
| Mock.MockI2CDevice.constructor | test/test_bq25895_driver.cpp:46 | a new mock has no registers, no pending failures and an empty trace |
| Mock.MockI2CDevice.SetupDefaultRegisters | test/test_bq25895_driver.cpp:49-59 | the register map becomes the defaults over the old map |
| Mock.MockI2CDevice.Begin | test/test_bq25895_driver.cpp:62-64 | always succeeds |
| Mock.MockI2CDevice.Write | test/test_bq25895_driver.cpp:67-93 | the device state moves exactly as `BusWrite` says |
| Mock.MockI2CDevice.WriteThenRead | test/test_bq25895_driver.cpp:96-125 | the device state and the byte read are exactly those of `BusRead` |
| Mock.MockI2CDevice.SetRegister | test/test_bq25895_driver.cpp:128-130 | only the given register changes |
| Mock.MockI2CDevice.GetRegister | test/test_bq25895_driver.cpp:132-134 | the stored value, or 0 for a register never set |
| Mock.MockI2CDevice.SimulateVBusType | test/test_bq25895_driver.cpp:136-140 | only REG0B changes, to `WithVBusType` of its old value |
| Mock.MockI2CDevice.SimulateChargeStatus | test/test_bq25895_driver.cpp:142-146 | only REG0B changes, to `WithChargeStatus` of its old value |
| Mock.MockI2CDevice.SimulateFault | test/test_bq25895_driver.cpp:148-150 | only REG0C changes, to the given bits |
| Mock.MockI2CDevice.SimulateBatteryVoltage | test/test_bq25895_driver.cpp:152-156 | only REG0E changes, to the encoded voltage |
| Mock.MockI2CDevice.SimulateChargeCurrent | test/test_bq25895_driver.cpp:158-162 | only REG12 changes, to the encoded current |
| Mock.MockI2CDevice.FailNextWrite | test/test_bq25895_driver.cpp:164 | only the fail-next-write flag changes, to set |
| Mock.MockI2CDevice.FailNextRead | test/test_bq25895_driver.cpp:165 | only the fail-next-read flag changes, to set |
| Mock.MockI2CDevice.FailWrites | test/test_bq25895_driver.cpp:166 | only the write-failure counter changes |
| Mock.MockI2CDevice.FailReads | test/test_bq25895_driver.cpp:167 | only the read-failure counter changes |
| Session.Construct | src/BQ25895Driver.cpp:33-37 | a new driver is uninitialised, not in emergency mode, voltage-safe, with the default configuration; "I2C device is null" is recorded exactly when there is no device |
| Session.WriteWithRetry | src/BQ25895Driver.cpp:926-955 | retried writes change only the device and the last error, never the session flags |
| Session.ReadWithRetry | src/BQ25895Driver.cpp:957-984 | retried reads change only the device and the last error |
| Session.UpdateRegisterBits | src/BQ25895Driver.cpp:986-1006 | read-modify-write changes only the device and the last error, and cannot succeed without a device |
| Session.ReadRegister | src/BQ25895Driver.cpp:907-914 | a single read keeps the flags; uninitialised, it records "Driver not initialized" and returns nothing |
| Session.WriteRegister | src/BQ25895Driver.cpp:916-923 | a single write keeps the flags; uninitialised, it records "Driver not initialized" and fails |
| Session.VerifyDevice | src/BQ25895Driver.cpp:1043-1066 | checking the vendor id touches only the device and the last error |
| Session.Initialize | src/BQ25895Driver.cpp:40-132 | without a device it records "I2C device not available" and fails; otherwise the configuration is stored, emergency mode is cleared, and the driver ends initialised exactly when the call succeeds |
| Session.InitWatchdog | src/BQ25895Driver.cpp:70-77 | this step, and the steps after it, keep every flag except `initialized`, which ends equal to the result |
| Session.InitSafetyTimer | src/BQ25895Driver.cpp:80-87 | this step, and the steps after it, keep every flag except `initialized`, which ends equal to the result |
| Session.InitVindpm | src/BQ25895Driver.cpp:90-96 | writes the as-written `VindpmReg`; this step, and the steps after it, keep every flag except `initialized`, which ends equal to the result |
| Session.InitCharge | src/BQ25895Driver.cpp:99-131 | the four setter steps keep every flag except `initialized`, which ends equal to the result |
| Session.Reset | src/BQ25895Driver.cpp:138-142 | the driver ends uninitialised, out of emergency mode and without an error; device and configuration are kept |
| Session.FactoryReset | src/BQ25895Driver.cpp:144-163 | without a device only the error is recorded; otherwise the driver ends uninitialised, out of emergency mode, without an error, configuration kept |
| Session.WithSystemStatus | src/BQ25895Driver.cpp:180-183 | input is detected exactly when the VBUS field is non-zero; charging is reported exactly when the charge field is non-zero |
| Session.WithFaults | src/BQ25895Driver.cpp:192-196 | the fault register is reported as read and each fault flag holds exactly when its bits are set |
| Session.GetStatus | src/BQ25895Driver.cpp:166-201 | the status carries the call time and the driver's last error; uninitialised, it is the default status with "Driver not initialized" |
| Session.GetMetrics | src/BQ25895Driver.cpp:203-248 | the metrics carry the call time; uninitialised, they are all zero and the error is recorded |
| Session.UpdateAll | src/BQ25895Driver.cpp:250-254 | refreshing status and metrics changes no session flag (its register effect is `Monitoring.UpdateAllRefreshes`) |
| Session.EnableCharging | src/BQ25895Driver.cpp:257-264 | keeps the flags; uninitialised, it records "Driver not initialized" and fails |
| Session.DisableCharging | src/BQ25895Driver.cpp:266-273 | keeps the flags; uninitialised, it records "Driver not initialized" and fails |
| Session.SetChargeCurrent | src/BQ25895Driver.cpp:275-286 | keeps the flags; uninitialised, it records "Driver not initialized" and fails |
| Session.SetInputCurrentLimit | src/BQ25895Driver.cpp:288-306 | keeps the flags; uninitialised, it records "Driver not initialized" and fails |
| Session.SetChargeVoltage | src/BQ25895Driver.cpp:308-333 | uses the as-written masked field; keeps the flags; uninitialised, it records "Driver not initialized" and fails |
| Session.SetTerminationCurrent | src/BQ25895Driver.cpp:335-363 | keeps the flags; uninitialised, it records "Driver not initialized" and fails |
| Session.GetVBusType | src/BQ25895Driver.cpp:366-377 | keeps the flags; uninitialised, it reports no input and touches nothing |
| Session.IsExternalPowerPresent | src/BQ25895Driver.cpp:393-395 | external power is present exactly when the VBUS type read is not "no input" |
| Session.ClearFaults | src/BQ25895Driver.cpp:398-425 | succeeds exactly when the driver is initialised, whatever the bus does |
| Session.GetFaultRegister | src/BQ25895Driver.cpp:427-440 | keeps the flags; uninitialised, it reports 0xFF and touches nothing |
| Session.EnterEmergencyBatteryMode | src/BQ25895Driver.cpp:467-507 | emergency mode ends set exactly when it was set before or the call succeeds; no other flag changes; uninitialised, it fails with the error |
| Session.ExitEmergencyMode | src/BQ25895Driver.cpp:509-519 | when initialised, emergency mode ends cleared and the configuration unchanged; otherwise it fails with the error |
| Session.DisableWatchdog | src/BQ25895Driver.cpp:526-533 | keeps the flags; uninitialised, it records "Driver not initialized" and fails |
| Session.ResetWatchdog | src/BQ25895Driver.cpp:535-542 | keeps the flags; uninitialised, it records "Driver not initialized" and fails |
| Session.EnterShipMode | src/BQ25895Driver.cpp:545-555 | keeps the flags; uninitialised, it records "Driver not initialized" and fails |
| Session.CheckStartupScenario | src/BQ25895Driver.cpp:558-573 | with external power nothing happens and the call succeeds; on battery it is exactly entering emergency battery mode |
| Session.HandleUsbReconnection | src/BQ25895Driver.cpp:575-636 | uninitialised, it records "Driver not initialized" and fails (the other cases are `Recovery.UsbReconnectionWaits`, `UsbRecoveryReinitializes`, `UsbRecoveryEnds`) |
| Session.PowerDownWrites | src/BQ25895Driver.cpp:645-667 | the blind clean-up writes change no session flag |
| Session.HandlePowerLoss | src/BQ25895Driver.cpp:638-671 | always reports success and keeps the flags; uninitialised or already in emergency mode it does nothing at all |
| Session.PrepareForShutdown | src/BQ25895Driver.cpp:673-695 | succeeds exactly when initialised and keeps the flags; uninitialised, only the error is recorded |
| Session.DisableThermistorMonitoring | src/BQ25895Driver.cpp:747-760 | succeeds exactly when initialised and never touches the device |
| Session.DetectVBusChanges | src/BQ25895Driver.cpp:803-826 | uninitialised, it reports no transition and changes nothing |
| Session.PerformSelfTest | src/BQ25895Driver.cpp:839-881 | uninitialised, it records "Driver not initialized" and fails |
| Session.RepairRegisters | src/BQ25895Driver.cpp:1197-1241 | the repair as written (charge-current code to register 0x02) keeps the flags; uninitialised, it records "Driver not initialized" and fails; a failed repair is reported as such |
| Session.RepairRegistersCorrected | src/BQ25895Driver.cpp:1206-1211 | the corrected repair (charge-current code to REG04) keeps the flags, and a failed repair is reported as such |
| Session.RepairVia | src/BQ25895Driver.cpp:1197-1241 | for either charge-current register the repair keeps the flags and reports a failed repair |
| Session.RepairChargeVoltage | src/BQ25895Driver.cpp:1214-1223 | the REG06 step keeps the flags |
| Session.RepairInputCurrent | src/BQ25895Driver.cpp:1226-1235 | the REG00 step keeps the flags |
| Session.ForceEnableBatfet | src/BQ25895Driver.cpp:1243-1268 | keeps the flags; uninitialised, it records "Driver not initialized" and fails |
| Session.ClearBatfetDisable | src/BQ25895Driver.cpp:1256-1263 | writing REG09 with BATFET_DIS cleared keeps the flags |
| Session.ForceRestartCharging | src/BQ25895Driver.cpp:1270-1306 | uninitialised, it records "Driver not initialized" and fails |
| Session.ForceDpdm | src/BQ25895Driver.cpp:1290-1294 | forcing input detection keeps the flags |
| Session.CheckVoltageSafety | src/BQ25895Driver.cpp:1340-1364 | uninitialised, the voltage is reported safe and nothing changes |
| Session.ForceEmergencyShutdown | src/BQ25895Driver.cpp:1370-1415 | the shutdown mark ends set exactly when it was set or the driver is initialised; uninitialised, the call fails with its own error text |
| Session.DisconnectBattery | src/BQ25895Driver.cpp:1388-1397 | setting BATFET_DIS keeps the flags |
| Transport.WriteAttemptsOutcome | src/BQ25895Driver.cpp:932-949 | the write loop succeeds exactly when fewer failures are pending than attempts; it performs one transfer per failure plus the successful one, and stores the value only on success |
| Transport.ReadAttemptsOutcome | src/BQ25895Driver.cpp:963-979 | the read loop succeeds exactly when fewer failures are pending than attempts, returns the register's value, performs one transfer per attempt, and clears REG0C when it reads it |
| Transport.WriteWithRetryOutcome | src/BQ25895Driver.cpp:926-955 | without a device: "I2C device not available"; with one: success exactly when pending failures < maxRetries, register stored on success, "I2C write failed after retries" otherwise |
| Transport.ReadWithRetryOutcome | src/BQ25895Driver.cpp:957-984 | without a device: "I2C device not available"; with one: success exactly when pending failures < maxRetries, the current value returned, "I2C read failed after retries" otherwise |
| Transport.HealthyWrite | src/BQ25895Driver.cpp:926-955 | on a device with no injected failures a write succeeds first time, stores exactly that register and keeps the error |
| Transport.HealthyRead | src/BQ25895Driver.cpp:957-984 | on a device with no injected failures a read returns the register and changes nothing but the cleared fault register |
| Transport.UpdateRegisterBitsOutcome | src/BQ25895Driver.cpp:986-1006 | the result, the register's new value (merged on success, old on failure), the untouched other registers and the read-failure error, all in terms of the pending failures |
| Transport.HealthyUpdate | src/BQ25895Driver.cpp:986-1006 | on a healthy device the update succeeds and stores exactly the merged byte |
| Lifecycle.InputCurrentLimitStored | src/BQ25895Driver.cpp:288-306 | on a healthy device REG00 ends holding the input-current code and nothing else changes |
| Lifecycle.ChargeCurrentStored | src/BQ25895Driver.cpp:275-286 | REG04 ends holding the charge-current code and nothing else changes |
| Lifecycle.ChargeVoltageStored | src/BQ25895Driver.cpp:308-333 | REG06 ends with the as-written masked field `ChargeVoltageField` in bits 7-2 and its old bits 1-0; nothing else changes |
| Lifecycle.TerminationCurrentStored | src/BQ25895Driver.cpp:335-363 | REG05 ends with ITERM in bits 3-0 and its old bits 7-4; nothing else changes |
| Lifecycle.ChargeVoltageReadFailure | src/BQ25895Driver.cpp:319-324 | when REG06 cannot be read nothing is written and the read failure is reported |
| Lifecycle.ClearFaultsWrites | src/BQ25895Driver.cpp:398-425 | on a healthy device clearing faults leaves REG0C read clear, REG00 = 0x08, REG03 = 0x1A and REG02 = 0x80 (ADC start), and nothing else changed |
| Lifecycle.InitChargeWrites | src/BQ25895Driver.cpp:99-131 | the four set* steps leave REG00, REG04, REG06 (with the as-written masked voltage field) and REG05 programmed from the configuration |
| Lifecycle.InitVindpmWrites | src/BQ25895Driver.cpp:90-96 | the VINDPM step writes the as-written `VindpmReg` to REG0D, then the charge steps follow |
| Lifecycle.InitSafetyTimerWrites | src/BQ25895Driver.cpp:80-87 | with the safety timer disabled, the timer bit of REG05 is written first |
| Lifecycle.InitWatchdogWrites | src/BQ25895Driver.cpp:70-77 | with the watchdog disabled, its field of REG07 is cleared first |
| Lifecycle.InitializeProgramsCharger | src/BQ25895Driver.cpp:40-132 | on a healthy device with a valid vendor id, initialisation succeeds and programs the charger from the configuration: the input and charge current codes; REG06 with the as-written masked voltage field over its old bits 1-0; REG05 with the termination code in bits 3-0 over step 4's value, which overwrites the safety-timer bit; REG0D with the as-written 4-bit encoding; the watchdog field cleared when asked; faults cleared. Every other register is left alone |
| Lifecycle.SafetyTimerBitOverwritten | src/BQ25895Driver.cpp:80-87 | after a successful initialisation, bit 3 of REG05 (set by step 4 to disable the safety timer) equals bit 3 of the termination code; with the default configuration it ends clear |
| Lifecycle.InitializeFailsWithoutReads | src/BQ25895Driver.cpp:60-63 | when REG0A cannot be read the driver stays uninitialised, reports failed verification and writes nothing |
| Lifecycle.InitializeRejectsVendor | src/BQ25895Driver.cpp:1055-1063 | a vendor id rejected by the predicate `Codec.VendorValid` (all zeros or all ones, see `CodecLaws.VendorValidRange`) stops initialisation before any write |
| Lifecycle.InitVindpmFailsWithoutWrites | src/BQ25895Driver.cpp:90-96 | a VINDPM write that never gets through leaves the driver uninitialised with that step's error |
| Lifecycle.InitSafetyTimerFailsWithoutWrites | src/BQ25895Driver.cpp:80-87 | when the timer step's writes fail the driver ends uninitialised with an error |
| Lifecycle.InitWatchdogFailsWithoutWrites | src/BQ25895Driver.cpp:70-77 | when the watchdog step's writes fail the driver ends uninitialised with an error |
| Lifecycle.InitializeFailsWithoutWrites | src/BQ25895Driver.cpp:40-132 | with every write failing, initialisation fails, leaves the driver uninitialised and records an error |
| Protection.EmergencyModeWrites | src/BQ25895Driver.cpp:467-507 | on a healthy device emergency mode is entered with REG03 = 0, REG00 = 1, REG0D = 0x80, REG07 = 0x40 and the fault register read clear; nothing else changes |
| Protection.EmergencyModeWriteFailure | src/BQ25895Driver.cpp:475-479 | when charging cannot be disabled, emergency mode is not entered, no register changes and "Failed to disable charging" is reported |
| Protection.PowerDownCleansUp | src/BQ25895Driver.cpp:645-667 | the clean-up writes on a healthy device leave the same five registers as emergency mode and nothing else changed |
| Protection.ShutdownCleansUp | src/BQ25895Driver.cpp:673-695 | shutdown preparation (and power-loss handling outside emergency mode) succeeds, switches charging and input detection off and leaves the emergency flag alone |
| Protection.ExitEmergencyModeRestores | src/BQ25895Driver.cpp:509-519 | leaving emergency mode re-runs initialisation with the stored configuration and so reprograms the input and charge registers, and REG0D with the as-written `VindpmReg` |
| Protection.EmergencyShutdownWrites | src/BQ25895Driver.cpp:1370-1415 | on a healthy device the shutdown succeeds, disables charging, disconnects the battery (BATFET_DIS set) and sets the minimum input current |
| Protection.EmergencyShutdownKeepsFlags | src/BQ25895Driver.cpp:1370-1415 | apart from the shutdown mark, no session flag changes |
| Protection.VoltageSafetyVerdict | src/BQ25895Driver.cpp:1340-1364 | the voltage is safe exactly when the measured input voltage is at most the configured limit; the protective shutdown is triggered exactly on a safe-to-unsafe edge |
| Protection.VoltageSafeWhenUnreadable | src/BQ25895Driver.cpp:1340-1364 | when no ADC register can be read the measured input voltage is 0 and so counted safe |
| Monitoring.StatusDecodesRegisters | src/BQ25895Driver.cpp:166-201 | on a healthy device the status reports REG0B's VBUS type and charge status, input detection exactly for a non-"no input" type, and the second (cleared) fault read |
| Monitoring.StatusReportsReadFailure | src/BQ25895Driver.cpp:166-201 | when nothing can be read the status is the default one carrying the read-failure error, and no register changes |
| Monitoring.FaultRegisterReadsCleared | src/BQ25895Driver.cpp:427-440 | the first read clears the latched faults, so the reported value is 0 and REG0C ends 0 |
| Monitoring.FaultRegisterUnreadable | src/BQ25895Driver.cpp:427-440 | an unreadable fault register is reported as 0xFF |
| Monitoring.UpdateAllRefreshes | src/BQ25895Driver.cpp:250-254 | on a healthy device `updateAll` leaves the fault register read clear (0) and the ADC start (0x80) in REG02, changes no other register, and keeps the flags and last error |
| Monitoring.MetricsDecodeRegisters | src/BQ25895Driver.cpp:203-248 | on a healthy device each metric is its register decoded, the ADC start is written to REG02, and the timestamp is the call time |
| Monitoring.VBusTypeDecoded | src/BQ25895Driver.cpp:366-395 | the VBUS type is REG0B's field, no register changes, and external power is present exactly when it is not "no input" |
| Monitoring.VBusChangeDebounced | src/BQ25895Driver.cpp:803-826 | a transition is reported exactly when the type changed and more than 1000 ms passed since the last reported change; only then the remembered type and time move |
| Recovery.NoInputIsZeroField | src/BQ25895Driver.cpp:180-182 | "no input" is decoded exactly from a zero VBUS field, the test USB recovery uses |
| Recovery.NoInputLabelMatchesType | src/BQ25895Driver.cpp:789-801 | the VBUS field of REG0B reads "No Input" exactly when it decodes to `NoInput`, the type for which external power is absent |
| Recovery.DefaultVendorAccepted | test/test_bq25895_driver.cpp:50 | the mock's default REG0A (0x23) has vendor id 4 and passes verification |
| Recovery.FactoryResetRestoresDefaults | src/BQ25895Driver.cpp:144-163 | after a factory reset every default register has its default value and every other register is unchanged; the driver is uninitialised with no error |
| Recovery.UsbReconnectionWaits | src/BQ25895Driver.cpp:583-596 | on first seeing power the recovery is armed with the call time; during the 2 s settle time and without power nothing changes |
| Recovery.UsbRecoveryReinitializes | src/BQ25895Driver.cpp:598-627 | after the settle time, if the charger still reports no input, it is factory-reset, re-initialised from the stored configuration and charging is re-enabled |
| Recovery.UsbRecoveryEnds | src/BQ25895Driver.cpp:598-632 | after the settle time with input detected (or power gone) the recovery ends successfully without touching a register |
| Recovery.ChargingEnabledAfterInit | src/BQ25895Driver.cpp:257-264 | enabling charging sets CHG_CONFIG and keeps the input and charge current registers |
| Recovery.SelfTestRestores | src/BQ25895Driver.cpp:839-881 | on a healthy device the self-test passes and REG03 ends with its original value |
| Recovery.ToggleRestores | src/BQ25895Driver.cpp:853-877 | the toggle, read-back and restore pass and REG03 ends as it started |
| Recovery.ReadBackRestores | src/BQ25895Driver.cpp:866-877 | a read-back that sees the toggled value restores the original |
| Recovery.SelfTestNeedsDevice | src/BQ25895Driver.cpp:846-849 | a device that cannot be verified fails the self-test with its own error and no write |
| Recovery.BatfetEnabled | src/BQ25895Driver.cpp:1243-1268 | BATFET_DIS ends clear, the other bits of REG09 and every other register unchanged |
| Recovery.RestartTailWrites | src/BQ25895Driver.cpp:1296-1305 | the restart sets CHG_CONFIG, the 1500 mA input code, clears the ITERM bits and changes nothing else |
| Recovery.RestartChargingWrites | src/BQ25895Driver.cpp:1270-1306 | the whole restart succeeds with input detection forced, charging enabled and those registers programmed |
| Recovery.DpdmForced | src/BQ25895Driver.cpp:1290-1294 | FORCE_VINDPM (bit 7 of REG0D) ends set and no other register changes |
| Recovery.RepairViaWrites | src/BQ25895Driver.cpp:1197-1241 | whichever register the repair writes first gets 16, REG06 the 22 field, REG00 the 28 code; nothing else changes |
| Recovery.RepairRegistersProgramsCharger | src/BQ25895Driver.cpp:1197-1241 | the corrected repair (`Session.RepairRegistersCorrected`) sets 1024 mA charge current, 4192 mV charge voltage and 1500 mA input limit, leaving the ADC control register alone |
| Recovery.RepairAsWrittenMissesChargeCurrent | src/BQ25895Driver.cpp:1206-1211 | the repair as written leaves REG04 untouched and overwrites REG02 (ADC control) with 16 |
| Controls.ChargingEnabled | src/BQ25895Driver.cpp:257-264 | CHG_CONFIG (bit 4 of REG03) ends set; every other bit and register is unchanged |
| Controls.ChargingDisabled | src/BQ25895Driver.cpp:266-273 | CHG_CONFIG ends clear; every other bit and register is unchanged |
| Controls.WatchdogDisabled | src/BQ25895Driver.cpp:526-533 | the watchdog field (bits 5-4 of REG07) ends zero; everything else unchanged |
| Controls.WatchdogReset | src/BQ25895Driver.cpp:535-542 | WD_RST (bit 6 of REG05) ends set; everything else unchanged |
| Controls.ShipModeEntered | src/BQ25895Driver.cpp:545-555 | REG09 ends 0x20, so BATFET_DIS is set; nothing else changes |
| Controls.RegisterWritten | src/BQ25895Driver.cpp:916-923 | a direct write stores exactly that register |
| Controls.RegisterRead | src/BQ25895Driver.cpp:907-914 | a direct read returns the register and changes nothing but a read fault register |
| CodecLaws.InputCurrentMonotone | src/BQ25895Driver.cpp:296-303 | a larger requested input current never gives a smaller code |
| CodecLaws.TerminationMonotone | src/BQ25895Driver.cpp:343-350 | a larger termination current never gives a smaller code |
| CodecLaws.ClampedChargeVoltageMonotone | src/BQ25895Driver.cpp:314-317 | with the corrected encoding a larger voltage never gives a smaller field |
| CodecLaws.ClampedVindpmMonotone | src/BQ25895Driver.cpp:90-96 | with the corrected encoding a larger threshold never gives a smaller REG0D |
| CodecLaws.ChargeCurrentWraps | src/BQ25895Driver.cpp:283 | the `& 0x7F` makes requests 8192 mA apart encode alike; 8192 mA encodes as 0 mA |
| CodecLaws.ChargeVoltageBelowRangeWraps | src/BQ25895Driver.cpp:317 | 3809..3824 mV encode as field 63, i.e. 4848 mV, above the request |
| CodecLaws.ChargeVoltageAboveRangeWraps | src/BQ25895Driver.cpp:317 | for every request from 4864 mV up, the field equals that of the request 1024 mV lower, so the programmed voltage is at least 1024 mV below the request; 4864 mV encodes as 3840 mV |
| CodecLaws.ClampedChargeVoltageNeverAbove | src/BQ25895Driver.cpp:314-317 | the corrected field never programs a voltage above the request (or 3840 mV below range) |
| CodecLaws.ChargeVoltageFieldsAgreeInRange | src/BQ25895Driver.cpp:314-317 | within 3840..4863 mV the written and corrected encodings agree |
| CodecLaws.VindpmPresetsTruncated | src/BQ25895Driver.cpp:90-91 | the 4-bit mask programs the LED-driver and portable presets' 4400 and 4600 mV thresholds as 2800 and 3000 mV (fast charging too); the default 3900 mV survives |
| CodecLaws.ClampedVindpmPresets | src/BQ25895Driver.h:118-171 | the corrected encoding programs each preset's own threshold |
| CodecLaws.VindpmWraps | src/BQ25895Driver.cpp:90-91 | for every threshold from 4200 mV up, REG0D equals that of the threshold 1600 mV lower, so the programmed threshold is at least 1600 mV below the request |
| CodecLaws.VindpmBelowRangeWraps | src/BQ25895Driver.cpp:90-91 | 2401..2500 mV encode as 0x8F, a 4100 mV threshold, above the request |
| CodecLaws.ClampedVindpmNeverAbove | src/BQ25895Driver.cpp:90-91 | the corrected encoding never programs a threshold above the request (or 2600 mV below range) |
| CodecLaws.VindpmAgreeBelow4200 | src/BQ25895Driver.cpp:90-96 | within 2600..4199 mV the written and corrected encodings agree |
| CodecLaws.VBusStatusLabelsDistinct | src/BQ25895Driver.cpp:789-801 | the eight texts for codes 0..7 are pairwise distinct, so the text identifies the code |
| CodecLaws.VendorValidRange | src/BQ25895Driver.cpp:1055-1063 | the vendor check accepts exactly REG0A values 8..247 |
| CodecLaws.WatchdogBatteryFaultText | test/test_bq25895_driver.cpp:369-387 | fault register 0x88 decodes to "Watchdog Battery fault(s)" |
| CodecLaws.FaultLabelsOf0x88 | src/BQ25895Driver.cpp:447-452 | 0x88 lists exactly the watchdog and battery labels, in that order |
| CodecLaws.FaultBitsOf0x88 | src/BQ25895Driver.cpp:448-452 | 0x88 is a watchdog and battery fault and no other |
| Driver.BQ25895Driver.constructor | src/BQ25895Driver.cpp:33-37 | the object holds the given device and is in the state `Session.Construct` describes |
| Driver.BQ25895Driver.WriteRegisterWithRetry | src/BQ25895Driver.cpp:926-955 | the retry loop over the mock ends in the state and result of `Session.WriteWithRetry`; its invariant follows the helper `Session.WriteAttempts`, characterised by `Transport.WriteAttemptsOutcome` |
| Driver.BQ25895Driver.ReadRegisterWithRetry | src/BQ25895Driver.cpp:957-984 | the retry loop over the mock ends in the state and result of `Session.ReadWithRetry`; its invariant follows the helper `Session.ReadAttempts`, characterised by `Transport.ReadAttemptsOutcome` |
| Driver.BQ25895Driver.UpdateRegisterBits | src/BQ25895Driver.cpp:986-1006 | as `Session.UpdateRegisterBits` |
| Driver.BQ25895Driver.ReadRegister | src/BQ25895Driver.cpp:907-914 | as `Session.ReadRegister` |
| Driver.BQ25895Driver.WriteRegister | src/BQ25895Driver.cpp:916-923 | as `Session.WriteRegister` |
| Driver.BQ25895Driver.VerifyDevice | src/BQ25895Driver.cpp:1043-1066 | as `Session.VerifyDevice` |
| Driver.BQ25895Driver.Initialize | src/BQ25895Driver.cpp:40-132 | as `Session.Initialize`, so `Lifecycle.InitializeProgramsCharger` and the failure lemmas hold of it |
| Driver.BQ25895Driver.ConfigureWatchdog | src/BQ25895Driver.cpp:70-77 | as `Session.InitWatchdog` |
| Driver.BQ25895Driver.ConfigureSafetyTimer | src/BQ25895Driver.cpp:80-87 | as `Session.InitSafetyTimer` |
| Driver.BQ25895Driver.ConfigureVindpm | src/BQ25895Driver.cpp:90-96 | as `Session.InitVindpm` |
| Driver.BQ25895Driver.ConfigureCharge | src/BQ25895Driver.cpp:99-131 | as `Session.InitCharge` |
| Driver.BQ25895Driver.IsInitialized | src/BQ25895Driver.cpp:134-136 | the initialised flag |
| Driver.BQ25895Driver.Reset | src/BQ25895Driver.cpp:138-142 | as `Session.Reset` |
| Driver.BQ25895Driver.FactoryReset | src/BQ25895Driver.cpp:144-163 | as `Session.FactoryReset`, so `Recovery.FactoryResetRestoresDefaults` holds of it |
| Driver.BQ25895Driver.GetStatus | src/BQ25895Driver.cpp:166-201 | as `Session.GetStatus` |
| Driver.BQ25895Driver.GetMetrics | src/BQ25895Driver.cpp:203-248 | as `Session.GetMetrics` |
| Driver.BQ25895Driver.UpdateAll | src/BQ25895Driver.cpp:250-254 | as `Session.UpdateAll` |
| Driver.BQ25895Driver.EnableCharging | src/BQ25895Driver.cpp:257-264 | as `Session.EnableCharging` |
| Driver.BQ25895Driver.DisableCharging | src/BQ25895Driver.cpp:266-273 | as `Session.DisableCharging` |
| Driver.BQ25895Driver.SetChargeCurrent | src/BQ25895Driver.cpp:275-286 | as `Session.SetChargeCurrent` |
| Driver.BQ25895Driver.SetInputCurrentLimit | src/BQ25895Driver.cpp:288-306 | as `Session.SetInputCurrentLimit` |
| Driver.BQ25895Driver.SetChargeVoltage | src/BQ25895Driver.cpp:308-333 | as `Session.SetChargeVoltage` |
| Driver.BQ25895Driver.SetTerminationCurrent | src/BQ25895Driver.cpp:335-363 | as `Session.SetTerminationCurrent` |
| Driver.BQ25895Driver.GetVBusType | src/BQ25895Driver.cpp:366-377 | as `Session.GetVBusType` |
| Driver.BQ25895Driver.IsExternalPowerPresent | src/BQ25895Driver.cpp:393-395 | as `Session.IsExternalPowerPresent` |
| Driver.BQ25895Driver.ClearFaults | src/BQ25895Driver.cpp:398-425 | as `Session.ClearFaults` |
| Driver.BQ25895Driver.GetFaultRegister | src/BQ25895Driver.cpp:427-440 | as `Session.GetFaultRegister` |
| Driver.BQ25895Driver.EnterEmergencyBatteryMode | src/BQ25895Driver.cpp:467-507 | as `Session.EnterEmergencyBatteryMode` |
| Driver.BQ25895Driver.ExitEmergencyMode | src/BQ25895Driver.cpp:509-519 | as `Session.ExitEmergencyMode` |
| Driver.BQ25895Driver.IsInEmergencyMode | src/BQ25895Driver.cpp:521-523 | the emergency flag |
| Driver.BQ25895Driver.DisableWatchdog | src/BQ25895Driver.cpp:526-533 | as `Session.DisableWatchdog` |
| Driver.BQ25895Driver.ResetWatchdog | src/BQ25895Driver.cpp:535-542 | as `Session.ResetWatchdog` |
| Driver.BQ25895Driver.EnterShipMode | src/BQ25895Driver.cpp:545-555 | as `Session.EnterShipMode` |
| Driver.BQ25895Driver.CheckStartupScenario | src/BQ25895Driver.cpp:558-573 | as `Session.CheckStartupScenario` |
| Driver.BQ25895Driver.HandleUsbReconnection | src/BQ25895Driver.cpp:575-636 | as `Session.HandleUsbReconnection` |
| Driver.BQ25895Driver.PowerDown | src/BQ25895Driver.cpp:645-667 | as `Session.PowerDownWrites` |
| Driver.BQ25895Driver.HandlePowerLoss | src/BQ25895Driver.cpp:638-671 | as `Session.HandlePowerLoss` |
| Driver.BQ25895Driver.PrepareForShutdown | src/BQ25895Driver.cpp:673-695 | as `Session.PrepareForShutdown` |
| Driver.BQ25895Driver.DisableThermistorMonitoring | src/BQ25895Driver.cpp:747-760 | as `Session.DisableThermistorMonitoring` |
| Driver.BQ25895Driver.DetectVBusChanges | src/BQ25895Driver.cpp:803-826 | as `Session.DetectVBusChanges` |
| Driver.BQ25895Driver.IsChargeOscillationDetected | src/BQ25895Driver.h:299 | always false |
| Driver.BQ25895Driver.GetConfig | src/BQ25895Driver.cpp:831-833 | the stored configuration |
| Driver.BQ25895Driver.GetLastError | src/BQ25895Driver.cpp:835-837 | the last recorded error |
| Driver.BQ25895Driver.PerformSelfTest | src/BQ25895Driver.cpp:839-881 | as `Session.PerformSelfTest` |
| Driver.BQ25895Driver.SelfTestToggle | src/BQ25895Driver.cpp:853-877 | as `Session.SelfTestToggle`, the helper whose effect `Recovery.ToggleRestores` states |
| Driver.BQ25895Driver.SelfTestReadBack | src/BQ25895Driver.cpp:866-877 | as `Session.SelfTestReadBack`, the helper whose effect `Recovery.ReadBackRestores` states |
| Driver.BQ25895Driver.RepairRegisters | src/BQ25895Driver.cpp:1197-1241 | as `Session.RepairRegisters`, the repair as written, so `Recovery.RepairAsWrittenMissesChargeCurrent` holds of it |
| Driver.BQ25895Driver.RepairChargeVoltage | src/BQ25895Driver.cpp:1214-1223 | as `Session.RepairChargeVoltage` |
| Driver.BQ25895Driver.RepairInputCurrent | src/BQ25895Driver.cpp:1226-1235 | as `Session.RepairInputCurrent` |
| Driver.BQ25895Driver.ForceEnableBatfet | src/BQ25895Driver.cpp:1243-1268 | as `Session.ForceEnableBatfet` |
| Driver.BQ25895Driver.ClearBatfetDisable | src/BQ25895Driver.cpp:1256-1263 | as `Session.ClearBatfetDisable` |
| Driver.BQ25895Driver.ForceRestartCharging | src/BQ25895Driver.cpp:1270-1306 | as `Session.ForceRestartCharging` |
| Driver.BQ25895Driver.ForceDpdm | src/BQ25895Driver.cpp:1290-1294 | as `Session.ForceDpdm` |
| Driver.BQ25895Driver.RestartTail | src/BQ25895Driver.cpp:1296-1305 | as `Session.RestartTail`, the helper whose effect `Recovery.RestartTailWrites` states |
| Driver.BQ25895Driver.CheckVoltageSafety | src/BQ25895Driver.cpp:1340-1364 | as `Session.CheckVoltageSafety` |
| Driver.BQ25895Driver.IsVoltageSafe | src/BQ25895Driver.cpp:1366-1368 | the voltage-safe flag |
| Driver.BQ25895Driver.ForceEmergencyShutdown | src/BQ25895Driver.cpp:1370-1415 | as `Session.ForceEmergencyShutdown` |
| Driver.BQ25895Driver.DisconnectBattery | src/BQ25895Driver.cpp:1388-1397 | as `Session.DisconnectBattery` |
| Scenarios.FixtureHealthy | test/test_bq25895_driver.cpp:181-184 | the test fixture is healthy, uninitialised, error-free, with default configuration, default registers and a valid vendor id |
| Scenarios.CreateTestDriver | test/test_bq25895_driver.cpp:181-184 | a fresh mock with default registers and a fresh driver on it, in the fixture state |
| Scenarios.InitializedTestDriver | test/test_bq25895_driver.cpp:199-217 | the fixture after a successful initialisation: initialised, healthy, vendor valid |
| Scenarios.ConstructorAndBasicSetup | test/test_bq25895_driver.cpp:190-197 | a new driver is uninitialised, error-free and not in emergency mode |
| Scenarios.SuccessfulInitialization | test/test_bq25895_driver.cpp:199-217 | initialisation succeeds, no error, watchdog field of REG07 cleared |
| Scenarios.FailedInitializationOnReadErrors | test/test_bq25895_driver.cpp:219-231 | with reads failing, initialisation fails with the verification error |
| Scenarios.FailedInitializationOnWriteErrors | test/test_bq25895_driver.cpp:489-495 | with writes failing, initialisation fails with an error |
| Scenarios.ConfigurationPersistence | test/test_bq25895_driver.cpp:528-543 | the input current, charge current and charge voltage passed to initialisation are the ones read back |
| Scenarios.VBusTypeDetection | test/test_bq25895_driver.cpp:237-265 | every simulated VBUS type is detected, and power is present exactly for types other than "no input" |
| Scenarios.EnableChargingScenario | test/test_bq25895_driver.cpp:272-278 | enabling charging succeeds and sets bit 4 of REG03 |
| Scenarios.DisableChargingScenario | test/test_bq25895_driver.cpp:280-288 | disabling charging succeeds and clears bit 4 of REG03 |
| Scenarios.SetChargeCurrentScenario | test/test_bq25895_driver.cpp:290-297 | 1000 mA is written as code 15 |
| Scenarios.SetInputCurrentLimitScenario | test/test_bq25895_driver.cpp:299-305 | 1500 mA is written as code 28 |
| Scenarios.MeasurementsScenario | test/test_bq25895_driver.cpp:312-332 | the simulated readings come back as 3844 mV, 1200 mA, 4004 mV, 5600 mV and 2480 mV |
| Scenarios.MeasurementsDecoded | test/test_bq25895_driver.cpp:312-332 | the ADC registers of that test decode to exactly those readings |
| Scenarios.StatusReadingScenario | test/test_bq25895_driver.cpp:334-350 | a simulated USB CDP input in fast charge is reported as such, with input detected and no faults |
| Scenarios.StatusReadFailureScenario | test/test_bq25895_driver.cpp:497-505 | failing reads surface as the read-failure error |
| Scenarios.NoFaultsScenario | test/test_bq25895_driver.cpp:361-367 | a clean fault register reads 0 and decodes to "No faults" |
| Scenarios.DetectFaultsScenario | test/test_bq25895_driver.cpp:369-387 | a simulated 0x88 is cleared by the first read, and 0x88 decodes to the watchdog and battery text |
| Scenarios.ClearFaultsScenario | test/test_bq25895_driver.cpp:389-398 | clearing faults succeeds and the fault register then reads 0 |
| Scenarios.EnterEmergencyModeScenario | test/test_bq25895_driver.cpp:406-418 | emergency mode is entered with charging off and VINDPM forced |
| Scenarios.ExitEmergencyModeScenario | test/test_bq25895_driver.cpp:420-426 | leaving emergency mode succeeds and clears the flag |
| Scenarios.DisableWatchdogScenario | test/test_bq25895_driver.cpp:438-444 | the watchdog field ends zero |
| Scenarios.ResetWatchdogScenario | test/test_bq25895_driver.cpp:446-456 | WD_RST ends set |
| Scenarios.FactoryResetScenario | test/test_bq25895_driver.cpp:464-473 | a scribbled REG03 is back at its default 0x1A |
| Scenarios.SoftResetScenario | test/test_bq25895_driver.cpp:475-478 | a soft reset leaves the driver uninitialised |
| Scenarios.UninitializedOperationScenario | test/test_bq25895_driver.cpp:507-513 | an operation before initialisation fails with "Driver not initialized" |
| Scenarios.ShipModeScenario | test/test_bq25895_driver.cpp:516-526 | ship mode sets BATFET_DIS |
| Scenarios.SelfTestScenario | test/test_bq25895_driver.cpp:545-554 | the self-test passes |
| Scenarios.DirectRegisterWrite | test/test_bq25895_driver.cpp:561-565 | a direct write of 0x1A to REG03 lands |
| Scenarios.DirectRegisterRead | test/test_bq25895_driver.cpp:567-574 | a direct read of REG0A returns 0x23 |

## Left out

- Debug and log output (`DEBUG_PRINT*`, `logWithTimestamp`, `formatTimestamp`): text output only.
- `printRegisters`, `printExtendedDiagnostics`, the report builders and `getChargeVoltageAnalysis`: diagnostic text only.
- `getVBusTypeName`, `decodeSystemStatus` and the transition description string: display text only. `PowerTransition` keeps its flag, both types and the time.
- `delay`/`PLATFORM_DELAY`: no observable effect on the modelled state.
- The Arduino/Adafruit I2C transport (`Adafruit_I2CDevice`, `ArduinoI2C.h`), `main.cpp` and `mock_time.cpp` are not part of this model. The device is always the test suite's mock, and `millis()` is a `now` parameter.
- Mock `begin()` always succeeds, so the driver's `begin()` failure branch cannot be reached with the mock and is not modelled.
- The mock's compatibility `writeRegister`/`readRegister` helpers: thin wrappers over `write` and `write_then_read`, not used by the driver.
- Mock.MockI2CDevice.GetRegister: `operator[]` also inserts a zero entry for a missing register; the model returns 0 without inserting. No later read can tell the difference.
- Codec.TsMillivolts: the source computes in `double` and truncates; the model uses integer floor division. The exact quotient is either an integer or at least 1/127 away from one, so double rounding cannot change the truncated value.
- `lastUpdate_`: declared but never written or read.

## Findings

| source | as written | input that shows it | evidently intended | confidence | as-written member | corrected member |
|---|---|---|---|---|---|---|
| src/BQ25895Driver.cpp:317 | `((voltageMV - 3840) / 16) & 0x3F`, computed on a promoted `int` | `setChargeVoltage(3810)` programs field 63 (4848 mV); `setChargeVoltage(4864)` programs 3840 mV | clamp the request to the 3840..4848 mV range, so the programmed voltage never exceeds the request | not executed | CodecLaws.ChargeVoltageBelowRangeWraps | CodecLaws.ClampedChargeVoltageNeverAbove |
| src/BQ25895Driver.cpp:90-91 | `0x80 \| ((threshold - 2600) / 100 & 0x0F)` keeps only 4 bits of the 7-bit VINDPM field | the LED-driver preset's 4400 mV threshold is programmed as 2800 mV; every threshold from 4200 mV up lands at least 1600 mV low | keep the full 7-bit field (`& 0x7F`), clamped to the register's range | not executed | CodecLaws.VindpmPresetsTruncated | CodecLaws.ClampedVindpmPresets |
| src/BQ25895Driver.cpp:1206-1211 | the charge-current repair writes 16 (1024 mA) to register 0x02, the ADC control register | `repairRegisters()` on a healthy device leaves REG04 as it was and sets REG02 to 0x10 | write the 1024 mA code to REG04 (ICHG) | not executed | Recovery.RepairAsWrittenMissesChargeCurrent | Recovery.RepairRegistersProgramsCharger |
| src/BQ25895Driver.cpp:90-91 | `(threshold - 2600) / 100` truncates toward zero on a negative `int` before the 4-bit mask | a 2500 mV threshold writes REG0D = 0x8F, a 4100 mV threshold | clamp thresholds below 2600 mV to the 2600 mV minimum (0x80) | not executed | CodecLaws.VindpmBelowRangeWraps | CodecLaws.ClampedVindpmNeverAbove |
