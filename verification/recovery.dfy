/** Recovery and diagnostics: USB reconnection handling, the self test, BATFET and charge
    restart, and register repair. */
module Recovery {
  import opened Base
  import opened Bits
  import opened Registers
  import opened Codec
  import opened Settings
  import opened Mock
  import opened Session
  import opened Transport
  import opened Lifecycle

  /** A VBUS type of `NoInput` is exactly a zero in bits 7:5. */
  lemma NoInputIsZeroField(b: Byte)
    ensures StatusVBus(b) == NoInput <==> b / 32 == 0
  {
    assert Pow2(5) == 32 && Pow2(3) == 8;
    VBusFieldTotal();
  }

  /** The status text of the VBUS field of REG0B is "No Input" exactly when the decoded
      type is `NoInput`, the type that makes external power absent. */
  lemma NoInputLabelMatchesType(b: Byte)
    ensures VBusStatusLabel(b / 32) == "No Input" <==> StatusVBus(b) == NoInput
  {
    NoInputIsZeroField(b);
  }

  /** The power-on vendor register value 0x23 carries vendor id 4, which is accepted. */
  lemma DefaultVendorAccepted()
    ensures VendorId(0x23) == 4 && VendorValid(0x23)
  {
    assert Pow2(3) == 8 && Pow2(5) == 32;
  }

  /** `factoryReset` on a healthy device restores the power-on defaults, keeps the other
      registers, and leaves the driver uninitialised with its configuration. */
  lemma FactoryResetRestoresDefaults(s: DriverState)
    requires NoInjectedFailures(s)
    ensures var t := FactoryReset(s);
      && NoInjectedFailures(t) && !t.initialized && !t.emergencyMode && t.lastError == ""
      && t.config == s.config
      && (forall k :: k in DEFAULT_REGISTERS ==> Reg(t, k) == DEFAULT_REGISTERS[k])
      && (forall k :: k !in DEFAULT_REGISTERS ==> Reg(t, k) == Reg(s, k))
  {
    WriteWithRetryOutcome(s, REG14_RESET, 0x80, 3);
  }

  /** The phases of `handleUSBReconnection` that do not touch the device: arming on
      external power, waiting while fewer than 2000 ms (modulo the 32-bit clock) have
      passed, and nothing to do without power or recovery in progress. */
  lemma UsbReconnectionWaits(s: DriverState, externalPower: bool, now: ULong)
    requires s.initialized
    ensures externalPower && !s.usbReconnectionInProgress ==>
      HandleUsbReconnection(s, externalPower, now)
        == (s.(usbReconnectionInProgress := true, usbReconnectionStartTime := now), true)
    ensures s.usbReconnectionInProgress && Elapsed(now, s.usbReconnectionStartTime) < USB_SETTLE_MS ==>
      HandleUsbReconnection(s, externalPower, now) == (s, true)
    ensures !externalPower && !s.usbReconnectionInProgress ==>
      HandleUsbReconnection(s, externalPower, now) == (s, true)
  {
  }

  /** After the settle time, a charger that still reports no input while external power
      is present is factory-reset, re-initialised with the stored configuration and set
      to charge; the recovery then ends. */
  lemma UsbRecoveryReinitializes(s: DriverState, now: ULong)
    requires s.initialized && s.usbReconnectionInProgress && NoInjectedFailures(s)
    requires Elapsed(now, s.usbReconnectionStartTime) >= USB_SETTLE_MS
    requires StatusVBus(Reg(s, REG0B_SYSTEM_STATUS)) == NoInput
    ensures var (t, ok) := HandleUsbReconnection(s, true, now);
      && ok && t.initialized && !t.usbReconnectionInProgress && t.config == s.config
      && Reg(t, REG00_INPUT_CURRENT) == InputCurrentCode(s.config.inputCurrentMA)
      && Reg(t, REG04_CHARGE_CURRENT) == ChargeCurrentCode(s.config.chargeCurrentMA)
      && Bit(Reg(t, REG03_CHARGE_CONFIG), 4)
  {
    NoInputIsZeroField(Reg(s, REG0B_SYSTEM_STATUS));
    HealthyRead(s, REG0B_SYSTEM_STATUS, 3);
    var s1 := ReadWithRetry(s, REG0B_SYSTEM_STATUS, 3).0;
    FactoryResetRestoresDefaults(s1);
    var s2 := FactoryReset(s1);
    assert REG0A_VENDOR_PART in DEFAULT_REGISTERS;
    DefaultVendorAccepted();
    InitializeProgramsCharger(s2, s2.config);
    var s3 := Initialize(s2, s2.config).0;
    assert HandleUsbReconnection(s, true, now) == (EnableCharging(s3).0.(usbReconnectionInProgress := false), true);
    ChargingEnabledAfterInit(s3);
  }

  /** Re-enabling charging after a successful re-initialisation keeps the programmed
      currents and sets bit 4 of REG03. */
  lemma ChargingEnabledAfterInit(s: DriverState)
    requires s.initialized && NoInjectedFailures(s)
    ensures var (t, ok) := EnableCharging(s);
      && ok && t.initialized && t.config == s.config && Bit(Reg(t, REG03_CHARGE_CONFIG), 4)
      && Reg(t, REG00_INPUT_CURRENT) == Reg(s, REG00_INPUT_CURRENT)
      && Reg(t, REG04_CHARGE_CURRENT) == Reg(s, REG04_CHARGE_CURRENT)
  {
    HealthyUpdate(s, REG03_CHARGE_CONFIG, 0x10, 0x10);
    SingleBitMasks(4);
    MergeSelects(Reg(s, REG03_CHARGE_CONFIG), 0x10, 0x10, 4);
  }

  /** After the settle time, a charger that reports an input (or no external power) just
      ends the recovery; a failed status read ends it with failure. */
  lemma UsbRecoveryEnds(s: DriverState, externalPower: bool, now: ULong)
    requires s.initialized && s.usbReconnectionInProgress && NoInjectedFailures(s)
    requires Elapsed(now, s.usbReconnectionStartTime) >= USB_SETTLE_MS
    requires !externalPower || StatusVBus(Reg(s, REG0B_SYSTEM_STATUS)) != NoInput
    ensures var (t, ok) := HandleUsbReconnection(s, externalPower, now);
      ok && !t.usbReconnectionInProgress && t.initialized && SameRegisters(s, t)
  {
    NoInputIsZeroField(Reg(s, REG0B_SYSTEM_STATUS));
    HealthyRead(s, REG0B_SYSTEM_STATUS, 3);
  }

  /** The self test passed and left the device as it found it: every register, the
      armed failures and the last error unchanged. */
  predicate SelfTestPassed(s: DriverState, t: DriverState, ok: bool)
  {
    ok && SameRegisters(s, t) && t.lastError == s.lastError && NoInjectedFailures(t)
  }

  /** The self test on a healthy device with a plausible vendor id passes and leaves every
      register as it found it: bit 0 of REG03 is toggled, read back and restored. */
  lemma SelfTestRestores(s: DriverState)
    requires s.initialized && NoInjectedFailures(s) && VendorValid(Reg(s, REG0A_VENDOR_PART))
    ensures var (t, ok) := PerformSelfTest(s); SelfTestPassed(s, t, ok)
  {
    HealthyRead(s, REG0A_VENDOR_PART, 3);
    var s1 := ReadWithRetry(s, REG0A_VENDOR_PART, 3).0;
    ToggleRestores(s1);
    var (t, ok) := SelfTestToggle(s1);
    SelfTestPassedChain(s, s1, t, ok);
  }

  lemma SelfTestPassedChain(s: DriverState, s1: DriverState, t: DriverState, ok: bool)
    requires SameRegisters(s, s1) && s1.lastError == s.lastError
    requires SelfTestPassed(s1, t, ok)
    ensures SelfTestPassed(s, t, ok)
  {
  }

  /** Toggling bit 0 of REG03 and reading it back passes on a healthy device and restores
      the register. */
  lemma ToggleRestores(s: DriverState)
    requires NoInjectedFailures(s)
    ensures var (t, ok) := SelfTestToggle(s); SelfTestPassed(s, t, ok)
  {
    var original := Reg(s, REG03_CHARGE_CONFIG);
    HealthyRead(s, REG03_CHARGE_CONFIG, 3);
    var s1 := ReadWithRetry(s, REG03_CHARGE_CONFIG, 3).0;
    var toggled := FlipLowBit(original);
    HealthyWrite(s1, REG03_CHARGE_CONFIG, toggled, 3);
    var s2 := WriteWithRetry(s1, REG03_CHARGE_CONFIG, toggled, 3).0;
    ReadBackRestores(s2, original, toggled);
    var (t, ok) := SelfTestReadBack(s2, original, toggled);
    ToggleChain(s, s1, s2, t, ok, toggled);
  }

  lemma ToggleChain(s: DriverState, s1: DriverState, s2: DriverState, t: DriverState, ok: bool, toggled: Byte)
    requires SameRegisters(s, s1) && s1.lastError == s.lastError
    requires Written(s1, s2, REG03_CHARGE_CONFIG, toggled) && s2.lastError == s1.lastError
    requires ok && NoInjectedFailures(t) && t.lastError == s2.lastError
    requires Written(s2, t, REG03_CHARGE_CONFIG, Reg(s, REG03_CHARGE_CONFIG))
    ensures SelfTestPassed(s, t, ok)
  {
    forall k ensures Reg(t, k) == Reg(s, k)
    {
      if k != REG03_CHARGE_CONFIG {
        assert Reg(t, k) == Reg(s2, k) == Reg(s1, k);
      }
    }
  }

  /** Reading back the value just written and restoring the original passes. */
  lemma ReadBackRestores(s: DriverState, original: Byte, toggled: Byte)
    requires NoInjectedFailures(s) && Reg(s, REG03_CHARGE_CONFIG) == toggled
    ensures var (t, ok) := SelfTestReadBack(s, original, toggled);
      ok && NoInjectedFailures(t) && t.lastError == s.lastError
      && Written(s, t, REG03_CHARGE_CONFIG, original)
  {
    HealthyRead(s, REG03_CHARGE_CONFIG, 3);
    var s1 := ReadWithRetry(s, REG03_CHARGE_CONFIG, 3).0;
    HealthyWrite(s1, REG03_CHARGE_CONFIG, original, 3);
  }

  /** The self test fails, naming the communication error, when the vendor register
      cannot be read. */
  lemma SelfTestNeedsDevice(s: DriverState)
    requires s.initialized && s.device.Some? && PendingReadFailures(BusOf(s)) >= 3
    ensures var (t, ok) := PerformSelfTest(s);
      !ok && t.lastError == SELF_TEST_NO_DEVICE && SameRegisters(s, t)
  {
    ReadWithRetryOutcome(s, REG0A_VENDOR_PART, 3);
  }

  /** `forceEnableBATFET` on a healthy device leaves BATFET_DIS (bit 5 of REG09) clear and
      every other bit of every register as it was. */
  lemma BatfetEnabled(s: DriverState)
    requires s.initialized && NoInjectedFailures(s)
    ensures var (t, ok) := ForceEnableBatfet(s);
      && ok && !Bit(Reg(t, REG09_NEW_FAULT), 5)
      && (forall i :: 0 <= i < 8 && i != 5 ==> Bit(Reg(t, REG09_NEW_FAULT), i) == Bit(Reg(s, REG09_NEW_FAULT), i))
      && (forall k :: k != REG09_NEW_FAULT ==> Reg(t, k) == Reg(s, k))
  {
    var r := Reg(s, REG09_NEW_FAULT);
    HealthyRead(s, REG09_NEW_FAULT, 1);
    var (s1, _) := ReadRegister(s, REG09_NEW_FAULT);
    if Bit(r, 5) {
      HealthyWrite(s1, REG09_NEW_FAULT, Merge(r, 0x20, 0x00), 1);
      forall i | 0 <= i < 8
        ensures Bit(Merge(r, 0x20, 0x00), i) == (if i == 5 then false else Bit(r, i))
      {
        SingleBitMasks(i);
        MergeSelects(r, 0x20, 0x00, i);
        BitZero(i);
      }
    }
  }

  /** The last part of `forceRestartCharging` on a healthy device: re-enabling charging
      and re-applying 1500 mA input and 64 mA termination changes only REG03, REG00 and
      REG05. */
  lemma RestartTailWrites(s: DriverState)
    requires s.initialized && NoInjectedFailures(s)
    ensures var (t, ok) := RestartTail(s);
      && ok && Bit(Reg(t, REG03_CHARGE_CONFIG), 4)
      && Reg(t, REG00_INPUT_CURRENT) == InputCurrentCode(1500)
      && (forall i :: 0 <= i < 4 ==> !Bit(Reg(t, REG05_TIMER), i))
      && forall k :: k !in {REG03_CHARGE_CONFIG, REG00_INPUT_CURRENT, REG05_TIMER} ==> Reg(t, k) == Reg(s, k)
  {
    HealthyUpdate(s, REG03_CHARGE_CONFIG, 0x10, 0x10);
    SingleBitMasks(4);
    MergeSelects(Reg(s, REG03_CHARGE_CONFIG), 0x10, 0x10, 4);
    var (s5, _) := EnableCharging(s);
    InputCurrentLimitStored(s5, 1500);
    var s6 := SetInputCurrentLimit(s5, 1500).0;
    TerminationCurrentStored(s6, 64);
    assert TerminationCode(64) == 0;
    forall i | 0 <= i < 4
      ensures !Bit(0, i)
    {
      BitZero(i);
    }
  }

  /** Charging restarted: charging enabled (bit 4 of REG03), FORCE_DPDM set (bit 7 of
      REG0D), the 1500 mA input code 0x1C in REG00 and the 64 mA termination code 0 in the
      low bits of REG05. */
  predicate ChargingRestarted(t: DriverState, ok: bool)
  {
    && ok && Bit(Reg(t, REG03_CHARGE_CONFIG), 4) && Bit(Reg(t, REG0D_VINDPM), 7)
    && Reg(t, REG00_INPUT_CURRENT) == InputCurrentCode(1500) == 0x1C
    && (forall i :: 0 <= i < 4 ==> !Bit(Reg(t, REG05_TIMER), i))
  }

  /** `forceRestartCharging` on a healthy device succeeds and restarts charging. */
  lemma RestartChargingWrites(s: DriverState)
    requires s.initialized && NoInjectedFailures(s)
    ensures var (t, ok) := ForceRestartCharging(s); ChargingRestarted(t, ok)
  {
    HealthyUpdate(s, REG03_CHARGE_CONFIG, 0x10, 0x00);
    var s1 := DisableCharging(s).0;
    HealthyWrite(s1, REG00_INPUT_CURRENT, 0x1C, 1);
    var s2 := WriteRegister(s1, REG00_INPUT_CURRENT, 0x1C).0;
    DpdmForced(s2);
    var s4 := ForceDpdm(s2);
    RestartTailWrites(s4);
    RestartCompose(s4, RestartTail(s4).0, RestartTail(s4).1);
  }

  lemma RestartCompose(s: DriverState, t: DriverState, ok: bool)
    requires Bit(Reg(s, REG0D_VINDPM), 7)
    requires && ok && Bit(Reg(t, REG03_CHARGE_CONFIG), 4)
      && Reg(t, REG00_INPUT_CURRENT) == InputCurrentCode(1500)
      && (forall i :: 0 <= i < 4 ==> !Bit(Reg(t, REG05_TIMER), i))
      && forall k :: k !in {REG03_CHARGE_CONFIG, REG00_INPUT_CURRENT, REG05_TIMER} ==> Reg(t, k) == Reg(s, k)
    ensures ChargingRestarted(t, ok)
  {
    assert Reg(t, REG0D_VINDPM) == Reg(s, REG0D_VINDPM);
  }

  /** Forcing D+/D- detection on a healthy device sets bit 7 of REG0D and changes no other
      register. */
  lemma DpdmForced(s: DriverState)
    requires s.initialized && NoInjectedFailures(s)
    ensures var t := ForceDpdm(s);
      && t.initialized && NoInjectedFailures(t) && Bit(Reg(t, REG0D_VINDPM), 7)
      && forall k :: k != REG0D_VINDPM ==> Reg(t, k) == Reg(s, k)
  {
    HealthyRead(s, REG0D_VINDPM, 1);
    var s3 := ReadRegister(s, REG0D_VINDPM).0;
    var forced := Merge(Reg(s, REG0D_VINDPM), 0x80, 0x80);
    HealthyWrite(s3, REG0D_VINDPM, forced, 1);
    SingleBitMasks(7);
    MergeSelects(Reg(s, REG0D_VINDPM), 0x80, 0x80, 7);
  }

  /** The repair on a healthy device, given the register that receives the charge current
      code: code 16 lands there, REG06 gets the 4192 mV field with its low bits kept, and
      REG00 the 1500 mA code with its top bits kept. */
  lemma RepairViaWrites(s: DriverState, chargeReg: Byte)
    requires s.initialized && NoInjectedFailures(s)
    requires chargeReg !in {REG14_RESET, REG06_CHARGE_VOLTAGE, REG00_INPUT_CURRENT}
    ensures var (t, ok) := RepairVia(s, chargeReg);
      && ok && Reg(t, chargeReg) == 16
      && Reg(t, REG06_CHARGE_VOLTAGE) == ChargeVoltageReg(Reg(s, REG06_CHARGE_VOLTAGE), 22)
      && Reg(t, REG00_INPUT_CURRENT) == InputCurrentReg(Reg(s, REG00_INPUT_CURRENT), 28)
      && forall k :: k !in {chargeReg, REG06_CHARGE_VOLTAGE, REG00_INPUT_CURRENT} ==> Reg(t, k) == Reg(s, k)
  {
    HealthyWrite(s, chargeReg, 16, 1);
    var (s1, _) := WriteRegister(s, chargeReg, 16);
    HealthyRead(s1, REG06_CHARGE_VOLTAGE, 1);
    var (s2, _) := ReadRegister(s1, REG06_CHARGE_VOLTAGE);
    HealthyWrite(s2, REG06_CHARGE_VOLTAGE, ChargeVoltageReg(Reg(s1, REG06_CHARGE_VOLTAGE), 22), 1);
    var (s3, _) := RepairChargeVoltage(s1);
    HealthyRead(s3, REG00_INPUT_CURRENT, 1);
    var (s4, _) := ReadRegister(s3, REG00_INPUT_CURRENT);
    HealthyWrite(s4, REG00_INPUT_CURRENT, InputCurrentReg(Reg(s3, REG00_INPUT_CURRENT), 28), 1);
  }

  /** The repair as intended sets the charge current register REG04 to code 16 (1024 mA),
      the charge voltage field to 22 (4192 mV) and the input current code to 28 (1500 mA),
      and leaves the ADC control register alone. */
  lemma RepairRegistersProgramsCharger(s: DriverState)
    requires s.initialized && NoInjectedFailures(s)
    ensures var (t, ok) := RepairRegistersCorrected(s);
      && ok && Reg(t, REG04_CHARGE_CURRENT) == 16 && 64 * 16 == 1024
      && Field(Reg(t, REG06_CHARGE_VOLTAGE), 2, 6) == 22 && 3840 + 16 * 22 == 4192
      && InputCurrentCode(1500) == 28
      && (forall i :: 0 <= i < 6 ==> Bit(Reg(t, REG00_INPUT_CURRENT), i) == Bit(28, i))
      && Reg(t, REG02_ADC_CONTROL) == Reg(s, REG02_ADC_CONTROL)
  {
    RepairViaWrites(s, REG04_CHARGE_CURRENT);
  }

  /** The repair as written leaves the charge current register REG04 untouched and
      overwrites the ADC control register 0x02 with 16 instead. */
  lemma RepairAsWrittenMissesChargeCurrent(s: DriverState)
    requires s.initialized && NoInjectedFailures(s)
    ensures var (t, ok) := RepairRegisters(s);
      ok && Reg(t, REG04_CHARGE_CURRENT) == Reg(s, REG04_CHARGE_CURRENT) && Reg(t, REG02_ADC_CONTROL) == 16
  {
    RepairViaWrites(s, REG02_ADC_CONTROL);
  }
}
