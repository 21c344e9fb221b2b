/** What initialisation and the charge setters leave in the charger's registers, and how
    initialisation fails. */
module Lifecycle {
  import opened Base
  import opened Bits
  import opened Registers
  import opened Codec
  import opened Settings
  import opened Mock
  import opened Session
  import opened Transport

  // ---------------------------------------------------------------- setters

  /** `setInputCurrentLimit` on a healthy device stores the input current code in REG00 only. */
  lemma InputCurrentLimitStored(s: DriverState, mA: U16)
    requires s.initialized && NoInjectedFailures(s)
    ensures var (t, ok) := SetInputCurrentLimit(s, mA);
      ok && NoInjectedFailures(t) && t.lastError == s.lastError
      && Written(s, t, REG00_INPUT_CURRENT, InputCurrentCode(mA))
  {
    HealthyWrite(s, REG00_INPUT_CURRENT, InputCurrentCode(mA), 3);
  }

  /** `setChargeCurrent` on a healthy device stores the charge current code in REG04 only. */
  lemma ChargeCurrentStored(s: DriverState, mA: U16)
    requires s.initialized && NoInjectedFailures(s)
    ensures var (t, ok) := SetChargeCurrent(s, mA);
      ok && NoInjectedFailures(t) && t.lastError == s.lastError
      && Written(s, t, REG04_CHARGE_CURRENT, ChargeCurrentCode(mA))
  {
    HealthyWrite(s, REG04_CHARGE_CURRENT, ChargeCurrentCode(mA), 3);
  }

  /** `setChargeVoltage` on a healthy device replaces bits 7:2 of REG06 by the voltage field
      and keeps bits 1:0. */
  lemma ChargeVoltageStored(s: DriverState, mV: U16)
    requires s.initialized && NoInjectedFailures(s)
    ensures var (t, ok) := SetChargeVoltage(s, mV);
      ok && NoInjectedFailures(t) && t.lastError == s.lastError
      && Written(s, t, REG06_CHARGE_VOLTAGE, ChargeVoltageReg(Reg(s, REG06_CHARGE_VOLTAGE), ChargeVoltageField(mV)))
  {
    HealthyRead(s, REG06_CHARGE_VOLTAGE, 3);
    var (s1, _) := ReadWithRetry(s, REG06_CHARGE_VOLTAGE, 3);
    HealthyWrite(s1, REG06_CHARGE_VOLTAGE, ChargeVoltageReg(Reg(s, REG06_CHARGE_VOLTAGE), ChargeVoltageField(mV)), 3);
  }

  /** `setTerminationCurrent` on a healthy device replaces bits 3:0 of REG05 by the
      termination code and keeps bits 7:4. */
  lemma TerminationCurrentStored(s: DriverState, mA: U16)
    requires s.initialized && NoInjectedFailures(s)
    ensures var (t, ok) := SetTerminationCurrent(s, mA);
      ok && NoInjectedFailures(t) && t.lastError == s.lastError
      && Written(s, t, REG05_TIMER, TerminationReg(Reg(s, REG05_TIMER), TerminationCode(mA)))
  {
    HealthyRead(s, REG05_TIMER, 3);
    var (s1, _) := ReadWithRetry(s, REG05_TIMER, 3);
    HealthyWrite(s1, REG05_TIMER, TerminationReg(Reg(s, REG05_TIMER), TerminationCode(mA)), 3);
  }

  /** A failing read of REG06 leaves the charge voltage unwritten and names the failure. */
  lemma ChargeVoltageReadFailure(s: DriverState, mV: U16)
    requires s.initialized && s.device.Some? && PendingReadFailures(BusOf(s)) >= 3
    ensures var (t, ok) := SetChargeVoltage(s, mV);
      !ok && SameRegisters(s, t) && t.lastError == CHARGE_VOLTAGE_READ_FAILED
  {
    ReadWithRetryOutcome(s, REG06_CHARGE_VOLTAGE, 3);
  }

  // ---------------------------------------------------------------- initialisation

  /** `clearFaults` took `s` to `t` on a healthy device: REG0C read clear, REG00, REG03
      and the ADC control register 0x02 rewritten, nothing else touched. */
  predicate ClearFaultsDone(s: DriverState, t: DriverState, ok: bool)
  {
    && ok && NoInjectedFailures(t) && t.lastError == s.lastError
    && Reg(t, REG0C_FAULT) == 0 && Reg(t, REG00_INPUT_CURRENT) == 0x08
    && Reg(t, REG03_CHARGE_CONFIG) == 0x1A && Reg(t, REG02_ADC_CONTROL) == 0x80
    && Agree(s, t, {REG0C_FAULT, REG00_INPUT_CURRENT, REG03_CHARGE_CONFIG, REG02_ADC_CONTROL})
  }

  /** `clearFaults` on a healthy device clears REG0C and rewrites REG00, REG03 and the
      ADC control register 0x02. */
  lemma ClearFaultsWrites(s: DriverState)
    requires s.initialized && NoInjectedFailures(s)
    ensures var (t, ok) := ClearFaults(s); ClearFaultsDone(s, t, ok)
  {
    HealthyRead(s, REG0C_FAULT, 3);
    var (s1, _) := ReadWithRetry(s, REG0C_FAULT, 3);
    HealthyWrite(s1, REG00_INPUT_CURRENT, 0x08, 3);
    var (s2, _) := WriteWithRetry(s1, REG00_INPUT_CURRENT, 0x08, 3);
    HealthyWrite(s2, REG03_CHARGE_CONFIG, 0x1A, 3);
    var (s3, _) := WriteWithRetry(s2, REG03_CHARGE_CONFIG, 0x1A, 3);
    HealthyWrite(s3, REG02_ADC_CONTROL, 0x80, 3);
  }

  /** The four charge registers hold what the configuration asks for: the input current
      code in REG00, the charge current code in REG04, the voltage field merged into
      `reg06` and the termination code merged into `reg05`. */
  predicate ChargeProgrammed(t: DriverState, c: ChargerConfig, reg05: Byte, reg06: Byte)
  {
    && Reg(t, REG00_INPUT_CURRENT) == InputCurrentCode(c.inputCurrentMA)
    && Reg(t, REG04_CHARGE_CURRENT) == ChargeCurrentCode(c.chargeCurrentMA)
    && Reg(t, REG06_CHARGE_VOLTAGE) == ChargeVoltageReg(reg06, ChargeVoltageField(c.chargeVoltageMV))
    && Reg(t, REG05_TIMER) == TerminationReg(reg05, TerminationCode(c.terminationCurrentMA))
  }

  const CHARGE_REGISTERS: set<Byte> := {REG00_INPUT_CURRENT, REG04_CHARGE_CURRENT, REG05_TIMER, REG06_CHARGE_VOLTAGE}

  /** REG05 as step 4 leaves it, starting from `reg05`: bit 3 set when the configuration
      asks for the safety timer to be disabled. */
  function TimerAfterStep4(c: ChargerConfig, reg05: Byte): Byte
  {
    if c.disableSafetyTimer then Merge(reg05, 0x08, 0x08) else reg05
  }

  /** REG07 as step 3 leaves it: the watchdog field cleared when the watchdog is to be
      disabled. */
  function MiscAfterStep3(s: DriverState): Byte
  {
    if s.config.disableWatchdog then Merge(Reg(s, REG07_MISC_OPERATION), WATCHDOG_MASK, 0) else Reg(s, REG07_MISC_OPERATION)
  }

  /** The steps succeeded: the driver is still initialised, no failure got armed, the
      configuration and the last error are kept. */
  predicate Succeeded(s: DriverState, t: DriverState, ok: bool)
  {
    && ok && t.initialized && NoInjectedFailures(t) && t.lastError == s.lastError
    && t.config == s.config && t.emergencyMode == s.emergencyMode
  }

  /** Steps 6 to 9 took `s` to `t` on a healthy device. */
  predicate ChargeStepsDone(s: DriverState, t: DriverState, ok: bool)
  {
    && Succeeded(s, t, ok)
    && ChargeProgrammed(t, s.config, Reg(s, REG05_TIMER), Reg(s, REG06_CHARGE_VOLTAGE))
    && Agree(s, t, CHARGE_REGISTERS)
  }

  /** Steps 5 to 9 took `s` to `t` on a healthy device. */
  predicate VindpmStepsDone(s: DriverState, t: DriverState, ok: bool)
  {
    && Succeeded(s, t, ok)
    && Reg(t, REG0D_VINDPM) == VindpmReg(s.config.vindpmThresholdMV)
    && ChargeProgrammed(t, s.config, Reg(s, REG05_TIMER), Reg(s, REG06_CHARGE_VOLTAGE))
    && Agree(s, t, {REG0D_VINDPM} + CHARGE_REGISTERS)
  }

  /** Steps 4 to 9 took `s` to `t` on a healthy device. */
  predicate TimerStepsDone(s: DriverState, t: DriverState, ok: bool)
  {
    && Succeeded(s, t, ok)
    && Reg(t, REG0D_VINDPM) == VindpmReg(s.config.vindpmThresholdMV)
    && ChargeProgrammed(t, s.config, TimerAfterStep4(s.config, Reg(s, REG05_TIMER)), Reg(s, REG06_CHARGE_VOLTAGE))
    && Agree(s, t, {REG0D_VINDPM} + CHARGE_REGISTERS)
  }

  /** Steps 3 to 9 took `s` to `t` on a healthy device. */
  predicate WatchdogStepsDone(s: DriverState, t: DriverState, ok: bool)
  {
    && Succeeded(s, t, ok)
    && Reg(t, REG07_MISC_OPERATION) == MiscAfterStep3(s)
    && Reg(t, REG0D_VINDPM) == VindpmReg(s.config.vindpmThresholdMV)
    && ChargeProgrammed(t, s.config, TimerAfterStep4(s.config, Reg(s, REG05_TIMER)), Reg(s, REG06_CHARGE_VOLTAGE))
    && Agree(s, t, {REG07_MISC_OPERATION, REG0D_VINDPM} + CHARGE_REGISTERS)
  }

  /** Steps 6 to 9 on a healthy device succeed and leave the four charge registers set. */
  lemma InitChargeWrites(s: DriverState)
    requires s.initialized && NoInjectedFailures(s)
    ensures var (t, ok) := InitCharge(s); ChargeStepsDone(s, t, ok)
  {
    var c := s.config;
    InputCurrentLimitStored(s, c.inputCurrentMA);
    var s1 := SetInputCurrentLimit(s, c.inputCurrentMA).0;
    ChargeCurrentStored(s1, c.chargeCurrentMA);
    var s2 := SetChargeCurrent(s1, c.chargeCurrentMA).0;
    ChargeVoltageStored(s2, c.chargeVoltageMV);
    var s3 := SetChargeVoltage(s2, c.chargeVoltageMV).0;
    TerminationCurrentStored(s3, c.terminationCurrentMA);
    assert InitCharge(s) == SetTerminationCurrent(s3, c.terminationCurrentMA);
    ChargeCompose(s, s1, s2, s3, SetTerminationCurrent(s3, c.terminationCurrentMA).0);
  }

  lemma ChargeCompose(s: DriverState, s1: DriverState, s2: DriverState, s3: DriverState, t: DriverState)
    requires s.initialized
    requires SameFlags(s, s1) && SameFlags(s1, s2) && SameFlags(s2, s3) && SameFlags(s3, t)
    requires NoInjectedFailures(t) && t.lastError == s.lastError
    requires Written(s, s1, REG00_INPUT_CURRENT, InputCurrentCode(s.config.inputCurrentMA))
    requires Written(s1, s2, REG04_CHARGE_CURRENT, ChargeCurrentCode(s.config.chargeCurrentMA))
    requires Written(s2, s3, REG06_CHARGE_VOLTAGE, ChargeVoltageReg(Reg(s2, REG06_CHARGE_VOLTAGE), ChargeVoltageField(s.config.chargeVoltageMV)))
    requires Written(s3, t, REG05_TIMER, TerminationReg(Reg(s3, REG05_TIMER), TerminationCode(s.config.terminationCurrentMA)))
    ensures ChargeStepsDone(s, t, true)
  {
  }

  /** Step 5 and the rest on a healthy device: VINDPM is written as well. */
  lemma InitVindpmWrites(s: DriverState)
    requires s.initialized && NoInjectedFailures(s)
    ensures var (t, ok) := InitVindpm(s); VindpmStepsDone(s, t, ok)
  {
    var vindpm := VindpmReg(s.config.vindpmThresholdMV);
    HealthyWrite(s, REG0D_VINDPM, vindpm, 3);
    var s1 := WriteWithRetry(s, REG0D_VINDPM, vindpm, 3).0;
    assert InitVindpm(s) == InitCharge(s1);
    InitChargeWrites(s1);
    VindpmCompose(s, s1, InitCharge(s1).0, InitCharge(s1).1);
  }

  lemma VindpmCompose(s: DriverState, s1: DriverState, t: DriverState, ok: bool)
    requires SameFlags(s, s1) && s1.lastError == s.lastError
    requires Written(s, s1, REG0D_VINDPM, VindpmReg(s.config.vindpmThresholdMV))
    requires ChargeStepsDone(s1, t, ok)
    ensures VindpmStepsDone(s, t, ok)
  {
    assert Agree(s, s1, {REG0D_VINDPM});
    AgreeChain(s, s1, t, {REG0D_VINDPM}, CHARGE_REGISTERS);
  }

  /** Step 4 and the rest: with the safety timer to be disabled, bit 3 of REG05 is set
      before the termination code is merged in. */
  lemma InitSafetyTimerWrites(s: DriverState)
    requires s.initialized && NoInjectedFailures(s)
    ensures var (t, ok) := InitSafetyTimer(s); TimerStepsDone(s, t, ok)
  {
    if s.config.disableSafetyTimer {
      HealthyUpdate(s, REG05_TIMER, 0x08, 0x08);
      var s1 := UpdateRegisterBits(s, REG05_TIMER, 0x08, 0x08).0;
      assert InitSafetyTimer(s) == InitVindpm(s1);
      InitVindpmWrites(s1);
      TimerCompose(s, s1, InitVindpm(s1).0, InitVindpm(s1).1);
    } else {
      InitVindpmWrites(s);
    }
  }

  lemma TimerCompose(s: DriverState, s1: DriverState, t: DriverState, ok: bool)
    requires s.config.disableSafetyTimer
    requires SameFlags(s, s1) && s1.lastError == s.lastError
    requires Written(s, s1, REG05_TIMER, Merge(Reg(s, REG05_TIMER), 0x08, 0x08))
    requires VindpmStepsDone(s1, t, ok)
    ensures TimerStepsDone(s, t, ok)
  {
    assert Agree(s, s1, {REG05_TIMER});
    AgreeChain(s, s1, t, {REG05_TIMER}, {REG0D_VINDPM} + CHARGE_REGISTERS);
    assert {REG05_TIMER} + ({REG0D_VINDPM} + CHARGE_REGISTERS) == {REG0D_VINDPM} + CHARGE_REGISTERS;
  }

  /** Step 3 and the rest: with the watchdog to be disabled, the watchdog field of REG07 is
      cleared. */
  lemma InitWatchdogWrites(s: DriverState)
    requires s.initialized && NoInjectedFailures(s)
    ensures var (t, ok) := InitWatchdog(s); WatchdogStepsDone(s, t, ok)
  {
    if s.config.disableWatchdog {
      WatchdogField();
      HealthyUpdate(s, REG07_MISC_OPERATION, WATCHDOG_MASK, 0);
      var s1 := UpdateRegisterBits(s, REG07_MISC_OPERATION, WATCHDOG_MASK, 0).0;
      assert InitWatchdog(s) == InitSafetyTimer(s1);
      InitSafetyTimerWrites(s1);
      WatchdogCompose(s, s1, InitSafetyTimer(s1).0, InitSafetyTimer(s1).1);
    } else {
      InitSafetyTimerWrites(s);
      WatchdogKept(s, InitSafetyTimer(s).0, InitSafetyTimer(s).1);
    }
  }

  lemma WatchdogCompose(s: DriverState, s1: DriverState, t: DriverState, ok: bool)
    requires s.config.disableWatchdog
    requires SameFlags(s, s1) && s1.lastError == s.lastError
    requires Written(s, s1, REG07_MISC_OPERATION, Merge(Reg(s, REG07_MISC_OPERATION), WATCHDOG_MASK, 0))
    requires TimerStepsDone(s1, t, ok)
    ensures WatchdogStepsDone(s, t, ok)
  {
    assert Agree(s, s1, {REG07_MISC_OPERATION});
    assert Reg(s1, REG05_TIMER) == Reg(s, REG05_TIMER);
    assert REG07_MISC_OPERATION !in {REG0D_VINDPM} + CHARGE_REGISTERS;
    AgreeChain(s, s1, t, {REG07_MISC_OPERATION}, {REG0D_VINDPM} + CHARGE_REGISTERS);
  }

  lemma WatchdogKept(s: DriverState, t: DriverState, ok: bool)
    requires !s.config.disableWatchdog
    requires TimerStepsDone(s, t, ok)
    ensures WatchdogStepsDone(s, t, ok)
  {
    assert REG07_MISC_OPERATION !in {REG0D_VINDPM} + CHARGE_REGISTERS;
  }

  /** `initialize` on a device without armed failures that reports a plausible vendor id
      succeeds, records the configuration, and leaves the charger programmed with it:
      input current code in REG00, charge current code in REG04, voltage field in REG06
      bits 7:2 over the old bits 1:0, termination code in REG05 bits 3:0 over step 4's
      value (so it overwrites the safety timer bit step 4 may have set), VINDPM in REG0D, the watchdog field of
      REG07 cleared when asked, and the fault register read clear. */
  lemma InitializeProgramsCharger(s: DriverState, config: ChargerConfig)
    requires NoInjectedFailures(s) && VendorValid(Reg(s, REG0A_VENDOR_PART))
    ensures var (t, ok) := Initialize(s, config);
      && ok && t.initialized && t.config == config && !t.emergencyMode && t.lastError == ""
      && NoInjectedFailures(t)
      && Reg(t, REG00_INPUT_CURRENT) == InputCurrentCode(config.inputCurrentMA)
      && Reg(t, REG04_CHARGE_CURRENT) == ChargeCurrentCode(config.chargeCurrentMA)
      && Reg(t, REG06_CHARGE_VOLTAGE) == ChargeVoltageReg(Reg(s, REG06_CHARGE_VOLTAGE), ChargeVoltageField(config.chargeVoltageMV))
      && Field(Reg(t, REG06_CHARGE_VOLTAGE), 2, 6) == ChargeVoltageField(config.chargeVoltageMV)
      && Reg(t, REG05_TIMER) == TerminationReg(TimerAfterStep4(config, Reg(s, REG05_TIMER)), TerminationCode(config.terminationCurrentMA))
      && (forall i :: 0 <= i < 4 ==> Bit(Reg(t, REG05_TIMER), i) == Bit(TerminationCode(config.terminationCurrentMA), i))
      && Reg(t, REG0D_VINDPM) == VindpmReg(config.vindpmThresholdMV)
      && Reg(t, REG0C_FAULT) == 0 && Reg(t, REG03_CHARGE_CONFIG) == 0x1A
      && (config.disableWatchdog ==> !Bit(Reg(t, REG07_MISC_OPERATION), 4) && !Bit(Reg(t, REG07_MISC_OPERATION), 5))
      && (!config.disableWatchdog ==> Reg(t, REG07_MISC_OPERATION) == Reg(s, REG07_MISC_OPERATION))
      && Reg(t, REG02_ADC_CONTROL) == 0x80
      && forall k :: k !in {REG00_INPUT_CURRENT, REG02_ADC_CONTROL, REG03_CHARGE_CONFIG, REG04_CHARGE_CURRENT,
                            REG05_TIMER, REG06_CHARGE_VOLTAGE, REG07_MISC_OPERATION, REG0C_FAULT, REG0D_VINDPM} ==>
           Reg(t, k) == Reg(s, k)
  {
    var s1 := s.(config := config, initialized := false, emergencyMode := false, lastError := "");
    HealthyRead(s1, REG0A_VENDOR_PART, 3);
    var s2 := VerifyDevice(s1).0.(initialized := true);
    ClearFaultsWrites(s2);
    var s3 := ClearFaults(s2).0;
    assert Initialize(s, config) == InitWatchdog(s3);
    InitWatchdogWrites(s3);
    InitializeCompose(s, config, s2, s3, InitWatchdog(s3).0, InitWatchdog(s3).1);
  }

  /** The bit step 4 sets in REG05 to disable the safety timer lies inside the ITERM field
      that step 9 rewrites, so after a successful `initialize` it is whatever bit 3 of the
      termination code is. With the default configuration, which asks for the timer to be
      disabled and a 128 mA termination (code 1), the bit ends clear. */
  lemma SafetyTimerBitOverwritten(s: DriverState, config: ChargerConfig)
    requires NoInjectedFailures(s) && VendorValid(Reg(s, REG0A_VENDOR_PART))
    ensures Bit(Reg(Initialize(s, config).0, REG05_TIMER), 3) == Bit(TerminationCode(config.terminationCurrentMA), 3)
    ensures config == DefaultConfig() ==>
      config.disableSafetyTimer && !Bit(Reg(Initialize(s, config).0, REG05_TIMER), 3)
  {
    InitializeProgramsCharger(s, config);
    if config == DefaultConfig() {
      assert TerminationCode(128) == 1;
      assert !Bit(1, 3) by { assert Pow2(3) == 8; }
    }
  }

  lemma InitializeCompose(s: DriverState, config: ChargerConfig, s2: DriverState, s3: DriverState, t: DriverState, ok: bool)
    requires s2.config == config && s2.initialized && !s2.emergencyMode && s2.lastError == ""
    requires SameRegisters(s, s2) && SameFlags(s2, s3)
    requires ClearFaultsDone(s2, s3, true)
    requires WatchdogStepsDone(s3, t, ok)
    ensures && ok && t.initialized && t.config == config && !t.emergencyMode && t.lastError == ""
      && NoInjectedFailures(t)
      && Reg(t, REG00_INPUT_CURRENT) == InputCurrentCode(config.inputCurrentMA)
      && Reg(t, REG04_CHARGE_CURRENT) == ChargeCurrentCode(config.chargeCurrentMA)
      && Reg(t, REG06_CHARGE_VOLTAGE) == ChargeVoltageReg(Reg(s, REG06_CHARGE_VOLTAGE), ChargeVoltageField(config.chargeVoltageMV))
      && Field(Reg(t, REG06_CHARGE_VOLTAGE), 2, 6) == ChargeVoltageField(config.chargeVoltageMV)
      && Reg(t, REG05_TIMER) == TerminationReg(TimerAfterStep4(config, Reg(s, REG05_TIMER)), TerminationCode(config.terminationCurrentMA))
      && (forall i :: 0 <= i < 4 ==> Bit(Reg(t, REG05_TIMER), i) == Bit(TerminationCode(config.terminationCurrentMA), i))
      && Reg(t, REG0D_VINDPM) == VindpmReg(config.vindpmThresholdMV)
      && Reg(t, REG0C_FAULT) == 0 && Reg(t, REG03_CHARGE_CONFIG) == 0x1A
      && (config.disableWatchdog ==> !Bit(Reg(t, REG07_MISC_OPERATION), 4) && !Bit(Reg(t, REG07_MISC_OPERATION), 5))
      && (!config.disableWatchdog ==> Reg(t, REG07_MISC_OPERATION) == Reg(s, REG07_MISC_OPERATION))
      && Reg(t, REG02_ADC_CONTROL) == 0x80
      && forall k :: k !in {REG00_INPUT_CURRENT, REG02_ADC_CONTROL, REG03_CHARGE_CONFIG, REG04_CHARGE_CURRENT,
                            REG05_TIMER, REG06_CHARGE_VOLTAGE, REG07_MISC_OPERATION, REG0C_FAULT, REG0D_VINDPM} ==>
           Reg(t, k) == Reg(s, k)
  {
    var touched := {REG07_MISC_OPERATION, REG0D_VINDPM} + CHARGE_REGISTERS;
    assert Agree(s3, t, touched);
    assert REG0C_FAULT !in touched && REG03_CHARGE_CONFIG !in touched && REG02_ADC_CONTROL !in touched;
    assert Reg(t, REG0C_FAULT) == Reg(s3, REG0C_FAULT);
    assert Reg(t, REG03_CHARGE_CONFIG) == Reg(s3, REG03_CHARGE_CONFIG);
    assert Reg(t, REG02_ADC_CONTROL) == Reg(s3, REG02_ADC_CONTROL);
    assert Agree(s2, s3, {REG0C_FAULT, REG00_INPUT_CURRENT, REG03_CHARGE_CONFIG, REG02_ADC_CONTROL});
    forall k | k !in {REG00_INPUT_CURRENT, REG02_ADC_CONTROL, REG03_CHARGE_CONFIG, REG04_CHARGE_CURRENT,
                      REG05_TIMER, REG06_CHARGE_VOLTAGE, REG07_MISC_OPERATION, REG0C_FAULT, REG0D_VINDPM}
      ensures Reg(t, k) == Reg(s, k)
    {
      assert k !in touched;
      assert Reg(t, k) == Reg(s3, k) == Reg(s2, k);
    }
    if config.disableWatchdog {
      SingleBitMasks(4);
      SingleBitMasks(5);
      MergeSelects(Reg(s3, REG07_MISC_OPERATION), WATCHDOG_MASK, 0, 4);
      MergeSelects(Reg(s3, REG07_MISC_OPERATION), WATCHDOG_MASK, 0, 5);
      BitZero(4);
      BitZero(5);
    }
  }

  /** When every read of the vendor register fails, `initialize` fails at device
      verification, stays uninitialised and writes no register. */
  lemma InitializeFailsWithoutReads(s: DriverState, config: ChargerConfig)
    requires s.device.Some? && PendingReadFailures(BusOf(s)) >= 3
    ensures var (t, ok) := Initialize(s, config);
      !ok && !t.initialized && t.lastError == VERIFICATION_FAILED && SameRegisters(s, t)
  {
    var s1 := s.(config := config, initialized := false, emergencyMode := false, lastError := "");
    ReadWithRetryOutcome(s1, REG0A_VENDOR_PART, 3);
  }

  /** A vendor id of all zeros or all ones makes `initialize` fail at device verification. */
  lemma InitializeRejectsVendor(s: DriverState, config: ChargerConfig)
    requires NoInjectedFailures(s) && !VendorValid(Reg(s, REG0A_VENDOR_PART))
    ensures var (t, ok) := Initialize(s, config);
      !ok && !t.initialized && t.lastError == VERIFICATION_FAILED && SameRegisters(s, t)
  {
    var s1 := s.(config := config, initialized := false, emergencyMode := false, lastError := "");
    HealthyRead(s1, REG0A_VENDOR_PART, 3);
  }

  /** Step 5 fails when the VINDPM write cannot get through. */
  lemma InitVindpmFailsWithoutWrites(s: DriverState)
    requires s.initialized && s.device.Some? && PendingWriteFailures(BusOf(s)) >= 3
    ensures var (t, ok) := InitVindpm(s); !ok && !t.initialized && t.lastError == VINDPM_FAILED
  {
    WriteWithRetryOutcome(s, REG0D_VINDPM, VindpmReg(s.config.vindpmThresholdMV), 3);
  }

  /** Step 4 either fails on its own write or leaves enough armed failures for step 5 to fail. */
  lemma InitSafetyTimerFailsWithoutWrites(s: DriverState)
    requires s.initialized && s.device.Some?
    requires PendingReadFailures(BusOf(s)) == 0 && PendingWriteFailures(BusOf(s)) >= 5
    ensures var (t, ok) := InitSafetyTimer(s); !ok && !t.initialized && t.lastError != ""
  {
    if s.config.disableSafetyTimer {
      UpdateRegisterBitsOutcome(s, REG05_TIMER, 0x08, 0x08);
      var (s1, ok) := UpdateRegisterBits(s, REG05_TIMER, 0x08, 0x08);
      if ok {
        InitVindpmFailsWithoutWrites(s1);
      }
    } else {
      InitVindpmFailsWithoutWrites(s);
    }
  }

  /** Step 3 either fails on its own write or leaves enough armed failures for the later
      steps to fail. */
  lemma InitWatchdogFailsWithoutWrites(s: DriverState)
    requires s.initialized && s.device.Some?
    requires PendingReadFailures(BusOf(s)) == 0 && PendingWriteFailures(BusOf(s)) >= 7
    ensures var (t, ok) := InitWatchdog(s); !ok && !t.initialized && t.lastError != ""
  {
    if s.config.disableWatchdog {
      WatchdogField();
      UpdateRegisterBitsOutcome(s, REG07_MISC_OPERATION, WATCHDOG_MASK, 0);
      var (s1, ok) := UpdateRegisterBits(s, REG07_MISC_OPERATION, WATCHDOG_MASK, 0);
      if ok {
        InitSafetyTimerFailsWithoutWrites(s1);
      }
    } else {
      InitSafetyTimerFailsWithoutWrites(s);
    }
  }

  /** With at least 16 write failures armed, `initialize` fails whatever the configuration:
      the fault-clearing writes use up nine, and the first configuration write that is
      actually attempted cannot get through. The driver stays uninitialised with an error. */
  lemma InitializeFailsWithoutWrites(s: DriverState, config: ChargerConfig)
    requires s.device.Some? && PendingReadFailures(BusOf(s)) == 0 && PendingWriteFailures(BusOf(s)) >= 16
    requires VendorValid(Reg(s, REG0A_VENDOR_PART))
    ensures var (t, ok) := Initialize(s, config); !ok && !t.initialized && t.lastError != ""
  {
    var s1 := s.(config := config, initialized := false, emergencyMode := false, lastError := "");
    ReadWithRetryOutcome(s1, REG0A_VENDOR_PART, 3);
    var (s2, _) := VerifyDevice(s1);
    var c0 := s2.(initialized := true);
    ReadWithRetryOutcome(c0, REG0C_FAULT, 3);
    var (c1, _) := ReadWithRetry(c0, REG0C_FAULT, 3);
    WriteWithRetryOutcome(c1, REG00_INPUT_CURRENT, 0x08, 3);
    var (c2, _) := WriteWithRetry(c1, REG00_INPUT_CURRENT, 0x08, 3);
    WriteWithRetryOutcome(c2, REG03_CHARGE_CONFIG, 0x1A, 3);
    var (c3, _) := WriteWithRetry(c2, REG03_CHARGE_CONFIG, 0x1A, 3);
    WriteWithRetryOutcome(c3, REG02_ADC_CONTROL, 0x80, 3);
    var (s3, _) := ClearFaults(c0);
    InitWatchdogFailsWithoutWrites(s3);
  }
}
