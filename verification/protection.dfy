/** Emergency battery mode, the protective shutdown and the input-voltage watch. */
module Protection {
  import opened Base
  import opened Bits
  import opened Registers
  import opened Codec
  import opened Settings
  import opened Mock
  import opened Session
  import opened Transport
  import opened Lifecycle

  /** `enterEmergencyBatteryMode` on a healthy device succeeds, sets the flag, and leaves
      charging off (REG03 = 0), the minimum input current (REG00 = 1), VINDPM forced with
      a zero threshold (REG0D = 0x80), REG07 = 0x40 and the fault register read clear. */
  lemma EmergencyModeWrites(s: DriverState)
    requires s.initialized && NoInjectedFailures(s)
    ensures var (t, ok) := EnterEmergencyBatteryMode(s);
      && ok && t.emergencyMode && t.lastError == s.lastError && NoInjectedFailures(t)
      && Reg(t, REG03_CHARGE_CONFIG) == 0x00 && Reg(t, REG00_INPUT_CURRENT) == 0x01
      && Reg(t, REG0D_VINDPM) == 0x80 && Reg(t, REG07_MISC_OPERATION) == 0x40
      && Reg(t, REG0C_FAULT) == 0
      && forall k :: k !in {REG03_CHARGE_CONFIG, REG00_INPUT_CURRENT, REG0D_VINDPM, REG07_MISC_OPERATION, REG0C_FAULT} ==>
           Reg(t, k) == Reg(s, k)
  {
    HealthyWrite(s, REG03_CHARGE_CONFIG, 0x00, 3);
    var (s1, _) := WriteWithRetry(s, REG03_CHARGE_CONFIG, 0x00, 3);
    HealthyWrite(s1, REG00_INPUT_CURRENT, 0x01, 3);
    var (s2, _) := WriteWithRetry(s1, REG00_INPUT_CURRENT, 0x01, 3);
    HealthyWrite(s2, REG0D_VINDPM, 0x80, 3);
    var (s3, _) := WriteWithRetry(s2, REG0D_VINDPM, 0x80, 3);
    HealthyWrite(s3, REG07_MISC_OPERATION, 0x40, 3);
    var (s4, _) := WriteWithRetry(s3, REG07_MISC_OPERATION, 0x40, 3);
    HealthyRead(s4, REG0C_FAULT, 3);
  }

  /** When the first write cannot get through, emergency mode is not entered, no register
      changes and the failing step is named. */
  lemma EmergencyModeWriteFailure(s: DriverState)
    requires s.initialized && s.device.Some? && PendingWriteFailures(BusOf(s)) >= 3
    ensures var (t, ok) := EnterEmergencyBatteryMode(s);
      && !ok && t.emergencyMode == s.emergencyMode && SameRegisters(s, t)
      && t.lastError == DISABLE_CHARGING_FAILED
  {
    WriteWithRetryOutcome(s, REG03_CHARGE_CONFIG, 0x00, 3);
  }

  /** The blind clean-up writes of power-loss handling and shutdown preparation, on a
      healthy device, leave the same five registers as emergency mode does and nothing
      else changed. */
  lemma PowerDownCleansUp(s: DriverState)
    requires NoInjectedFailures(s)
    ensures var t := PowerDownWrites(s);
      && NoInjectedFailures(t) && t.lastError == s.lastError
      && Reg(t, REG03_CHARGE_CONFIG) == 0x00 && Reg(t, REG00_INPUT_CURRENT) == 0x01
      && Reg(t, REG0D_VINDPM) == 0x80 && Reg(t, REG07_MISC_OPERATION) == 0x40
      && Reg(t, REG0C_FAULT) == 0
      && forall k :: k !in {REG03_CHARGE_CONFIG, REG00_INPUT_CURRENT, REG0D_VINDPM, REG07_MISC_OPERATION, REG0C_FAULT} ==>
           Reg(t, k) == Reg(s, k)
  {
    HealthyWrite(s, REG03_CHARGE_CONFIG, 0x00, 3);
    var (s1, _) := WriteWithRetry(s, REG03_CHARGE_CONFIG, 0x00, 3);
    HealthyWrite(s1, REG00_INPUT_CURRENT, 0x01, 3);
    var (s2, _) := WriteWithRetry(s1, REG00_INPUT_CURRENT, 0x01, 3);
    HealthyWrite(s2, REG0D_VINDPM, 0x80, 3);
    var (s3, _) := WriteWithRetry(s2, REG0D_VINDPM, 0x80, 3);
    HealthyWrite(s3, REG07_MISC_OPERATION, 0x40, 3);
    var (s4, _) := WriteWithRetry(s3, REG07_MISC_OPERATION, 0x40, 3);
    HealthyRead(s4, REG0C_FAULT, 3);
  }

  /** Shutdown preparation, and power-loss handling outside emergency mode, switch charging
      and input detection off on a healthy device; neither sets the emergency flag. */
  lemma ShutdownCleansUp(s: DriverState)
    requires s.initialized && NoInjectedFailures(s)
    ensures var (t, ok) := PrepareForShutdown(s);
      && ok && t.emergencyMode == s.emergencyMode && t.lastError == s.lastError
      && Reg(t, REG03_CHARGE_CONFIG) == 0x00 && Reg(t, REG00_INPUT_CURRENT) == 0x01
      && Reg(t, REG0D_VINDPM) == 0x80 && Reg(t, REG07_MISC_OPERATION) == 0x40
    ensures !s.emergencyMode ==> var (t, ok) := HandlePowerLoss(s);
      && ok && !t.emergencyMode && t.lastError == s.lastError
      && Reg(t, REG03_CHARGE_CONFIG) == 0x00 && Reg(t, REG00_INPUT_CURRENT) == 0x01
      && Reg(t, REG0D_VINDPM) == 0x80 && Reg(t, REG07_MISC_OPERATION) == 0x40
  {
    PowerDownCleansUp(s);
  }

  /** Leaving emergency mode re-runs initialisation with the stored configuration, so on a
      healthy device it succeeds and reprograms the charge registers from that
      configuration. */
  lemma ExitEmergencyModeRestores(s: DriverState)
    requires s.initialized && NoInjectedFailures(s) && VendorValid(Reg(s, REG0A_VENDOR_PART))
    ensures var (t, ok) := ExitEmergencyMode(s);
      && ok && t.initialized && !t.emergencyMode && t.config == s.config
      && Reg(t, REG00_INPUT_CURRENT) == InputCurrentCode(s.config.inputCurrentMA)
      && Reg(t, REG04_CHARGE_CURRENT) == ChargeCurrentCode(s.config.chargeCurrentMA)
      && Reg(t, REG0D_VINDPM) == VindpmReg(s.config.vindpmThresholdMV)
  {
    InitializeProgramsCharger(s.(emergencyMode := false), s.config);
  }

  /** `forceEmergencyShutdown` on a healthy device marks the shutdown, succeeds, and leaves
      charging disabled (bit 4 of REG03 clear), the battery disconnected (bit 5 of REG09
      set) and the minimum input current code in REG00. */
  lemma EmergencyShutdownWrites(s: DriverState)
    requires s.initialized && NoInjectedFailures(s)
    ensures var (t, ok) := ForceEmergencyShutdown(s);
      && ok && t.emergencyShutdownTriggered && NoInjectedFailures(t)
      && !Bit(Reg(t, REG03_CHARGE_CONFIG), 4)
      && Bit(Reg(t, REG09_NEW_FAULT), 5)
      && Reg(t, REG00_INPUT_CURRENT) == InputCurrentCode(100) == 0
  {
    var s1 := s.(emergencyShutdownTriggered := true);
    HealthyUpdate(s1, REG03_CHARGE_CONFIG, 0x10, 0x00);
    var (s2, _) := DisableCharging(s1);
    SingleBitMasks(4);
    MergeSelects(Reg(s1, REG03_CHARGE_CONFIG), 0x10, 0x00, 4);
    BitZero(4);
    HealthyRead(s2, REG09_NEW_FAULT, 3);
    var (s3, r) := ReadWithRetry(s2, REG09_NEW_FAULT, 3);
    var merged := Merge(Reg(s2, REG09_NEW_FAULT), 0x20, 0x20);
    HealthyWrite(s3, REG09_NEW_FAULT, merged, 3);
    SingleBitMasks(5);
    MergeSelects(Reg(s2, REG09_NEW_FAULT), 0x20, 0x20, 5);
    var (s4, _) := DisconnectBattery(s2);
    InputCurrentLimitStored(s4, 100);
  }

  /** The protective shutdown changes no driver flag other than the shutdown mark. */
  lemma EmergencyShutdownKeepsFlags(s: DriverState)
    requires s.initialized
    ensures SameFlags(s.(emergencyShutdownTriggered := true), ForceEmergencyShutdown(s).0)
  {
    var s1 := s.(emergencyShutdownTriggered := true);
    var (s2, _) := DisableCharging(s1);
    var (s4, _) := DisconnectBattery(s2);
    var (s5, _) := SetInputCurrentLimit(s4, 100);
    assert SameFlags(s1, s5);
  }

  /** `checkVoltageSafety` reports safe exactly when the measured input voltage is within
      the configured limit, remembers that verdict, and triggers the protective shutdown
      only on a transition from safe to unsafe. */
  lemma VoltageSafetyVerdict(s: DriverState, now: ULong)
    requires s.initialized
    ensures var (t, safe) := CheckVoltageSafety(s, now);
      var measured := GetMetrics(s, now).1.inputVoltage;
      && (safe <==> measured <= s.config.voltageSafetyLimitMV)
      && t.voltageSafe == safe
      && t.emergencyShutdownTriggered == (s.emergencyShutdownTriggered || (s.voltageSafe && !safe))
      && t.config == s.config && t.initialized
  {
    var (s1, m) := GetMetrics(s, now);
    if m.inputVoltage > s1.config.voltageSafetyLimitMV && s1.voltageSafe {
      EmergencyShutdownKeepsFlags(s1.(voltageSafe := false));
    }
  }

  /** When every ADC read fails the measured input voltage is 0, so the watch reports safe. */
  lemma VoltageSafeWhenUnreadable(s: DriverState, now: ULong)
    requires s.initialized && s.device.Some? && PendingReadFailures(BusOf(s)) >= 15
    ensures CheckVoltageSafety(s, now).1
  {
    WriteWithRetryOutcome(s, REG02_ADC_CONTROL, 0x80, 3);
    var (s1, _) := WriteWithRetry(s, REG02_ADC_CONTROL, 0x80, 3);
    ReadWithRetryOutcome(s1, REG0E_BATV, 3);
    var (s2, _) := ReadWithRetry(s1, REG0E_BATV, 3);
    ReadWithRetryOutcome(s2, REG0F_SYSV, 3);
    var (s3, _) := ReadWithRetry(s2, REG0F_SYSV, 3);
    ReadWithRetryOutcome(s3, REG11_VBUSV, 3);
    VoltageSafetyVerdict(s, now);
  }
}
