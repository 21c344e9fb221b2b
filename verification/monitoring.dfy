/** What the status, measurement, VBUS and fault queries report for a given register file. */
module Monitoring {
  import opened Base
  import opened Bits
  import opened Registers
  import opened Codec
  import opened Settings
  import opened Mock
  import opened Session
  import opened Transport

  /** `getStatus` on a healthy device decodes REG0B into the VBUS type and charge status.
      Because REG0C is read twice and the first read clears the latched faults, the
      reported fault register is the cleared value 0 whatever was latched. */
  lemma StatusDecodesRegisters(s: DriverState, now: ULong)
    requires s.initialized && NoInjectedFailures(s)
    ensures var (t, st) := GetStatus(s, now);
      && st.vbusType == StatusVBus(Reg(s, REG0B_SYSTEM_STATUS))
      && st.chargeStatus == StatusCharge(Reg(s, REG0B_SYSTEM_STATUS))
      && (st.inputDetected <==> st.vbusType != NoInput)
      && st.faultRegister == 0 && !st.watchdogFault && !st.batteryFault
      && st.lastError == s.lastError && st.timestamp == now
      && Written(s, t, REG0C_FAULT, 0) && NoInjectedFailures(t)
  {
    HealthyRead(s, REG0B_SYSTEM_STATUS, 3);
    var (s1, _) := ReadWithRetry(s, REG0B_SYSTEM_STATUS, 3);
    HealthyRead(s1, REG0C_FAULT, 3);
    var (s2, _) := ReadWithRetry(s1, REG0C_FAULT, 3);
    HealthyRead(s2, REG0C_FAULT, 3);
    BitZero(7);
    BitZero(3);
  }

  /** When every status read fails, `getStatus` reports the defaults and the read error. */
  lemma StatusReportsReadFailure(s: DriverState, now: ULong)
    requires s.initialized && s.device.Some? && PendingReadFailures(BusOf(s)) >= 9
    ensures var (t, st) := GetStatus(s, now);
      && st == DefaultStatus(now).(lastError := READ_FAILED)
      && t.lastError == READ_FAILED && SameRegisters(s, t)
  {
    ReadWithRetryOutcome(s, REG0B_SYSTEM_STATUS, 3);
    var (s1, _) := ReadWithRetry(s, REG0B_SYSTEM_STATUS, 3);
    ReadWithRetryOutcome(s1, REG0C_FAULT, 3);
    var (s2, _) := ReadWithRetry(s1, REG0C_FAULT, 3);
    ReadWithRetryOutcome(s2, REG0C_FAULT, 3);
  }

  /** `getFaultRegister` on a healthy device returns 0: the first read clears the latched
      faults and the second reads the cleared register. */
  lemma FaultRegisterReadsCleared(s: DriverState)
    requires s.initialized && NoInjectedFailures(s)
    ensures var (t, f) := GetFaultRegister(s);
      f == 0 && Written(s, t, REG0C_FAULT, 0) && t.lastError == s.lastError
  {
    HealthyRead(s, REG0C_FAULT, 3);
    var (s1, _) := ReadWithRetry(s, REG0C_FAULT, 3);
    HealthyRead(s1, REG0C_FAULT, 3);
  }

  /** `getFaultRegister` reports 0xFF when the second read cannot get through. */
  lemma FaultRegisterUnreadable(s: DriverState)
    requires s.initialized && s.device.Some? && PendingReadFailures(BusOf(s)) >= 6
    ensures GetFaultRegister(s).1 == 0xFF
  {
    ReadWithRetryOutcome(s, REG0C_FAULT, 3);
    var (s1, _) := ReadWithRetry(s, REG0C_FAULT, 3);
    ReadWithRetryOutcome(s1, REG0C_FAULT, 3);
  }

  /** `getMetrics` on a healthy device starts a conversion (0x80 into register 0x02) and
      reports the five ADC registers through their scalings. */
  lemma MetricsDecodeRegisters(s: DriverState, now: ULong)
    requires s.initialized && NoInjectedFailures(s)
    ensures var (t, m) := GetMetrics(s, now);
      && m.batteryVoltage == BatteryMillivolts(Reg(s, REG0E_BATV))
      && m.systemVoltage == BatteryMillivolts(Reg(s, REG0F_SYSV))
      && m.inputVoltage == InputMillivolts(Reg(s, REG11_VBUSV))
      && m.chargeCurrentMA == ChargeMilliamps(Reg(s, REG12_ICHGR))
      && m.tsVoltage == TsMillivolts(Reg(s, REG10_TSPCT))
      && m.timestamp == now
      && Written(s, t, REG02_ADC_CONTROL, 0x80) && NoInjectedFailures(t) && t.lastError == s.lastError
  {
    HealthyWrite(s, REG02_ADC_CONTROL, 0x80, 3);
    var (s1, _) := WriteWithRetry(s, REG02_ADC_CONTROL, 0x80, 3);
    HealthyRead(s1, REG0E_BATV, 3);
    var (s2, _) := ReadWithRetry(s1, REG0E_BATV, 3);
    HealthyRead(s2, REG0F_SYSV, 3);
    var (s3, _) := ReadWithRetry(s2, REG0F_SYSV, 3);
    HealthyRead(s3, REG11_VBUSV, 3);
    var (s4, _) := ReadWithRetry(s3, REG11_VBUSV, 3);
    HealthyRead(s4, REG12_ICHGR, 3);
    var (s5, _) := ReadWithRetry(s4, REG12_ICHGR, 3);
    HealthyRead(s5, REG10_TSPCT, 3);
  }

  /** `updateAll` on a healthy device clears the latched faults (REG0C reads back 0),
      starts an ADC conversion (0x80 in register 0x02), changes no other register and
      keeps the driver's flags and last error. */
  lemma UpdateAllRefreshes(s: DriverState, now: ULong)
    requires s.initialized && NoInjectedFailures(s)
    ensures var t := UpdateAll(s, now);
      && Reg(t, REG0C_FAULT) == 0 && Reg(t, REG02_ADC_CONTROL) == 0x80
      && Agree(s, t, {REG0C_FAULT, REG02_ADC_CONTROL})
      && SameFlags(s, t) && t.lastError == s.lastError && NoInjectedFailures(t)
  {
    StatusDecodesRegisters(s, now);
    MetricsDecodeRegisters(GetStatus(s, now).0, now);
  }

  /** `getVBusType` on a healthy device decodes bits 7:5 of REG0B and changes no register;
      external power is present exactly when that type is not `NoInput`. */
  lemma VBusTypeDecoded(s: DriverState)
    requires s.initialized && NoInjectedFailures(s)
    ensures var (t, vbus) := GetVBusType(s);
      vbus == StatusVBus(Reg(s, REG0B_SYSTEM_STATUS)) && SameRegisters(s, t) && t.lastError == s.lastError
      && NoInjectedFailures(t)
    ensures IsExternalPowerPresent(s).1 <==> StatusVBus(Reg(s, REG0B_SYSTEM_STATUS)) != NoInput
  {
    HealthyRead(s, REG0B_SYSTEM_STATUS, 3);
  }

  /** `detectVBusChanges` reports a transition exactly when the observed type differs from
      the remembered one and strictly more than the debounce interval has passed (modulo
      the 32-bit clock); only then are the remembered type and time updated. */
  lemma VBusChangeDebounced(s: DriverState, now: ULong)
    requires s.initialized && NoInjectedFailures(s)
    ensures var (t, tr) := DetectVBusChanges(s, now);
      var observed := StatusVBus(Reg(s, REG0B_SYSTEM_STATUS));
      var reported := observed != s.lastVbusType && Elapsed(now, s.lastVbusChangeTime) > VBUS_DEBOUNCE_MS;
      && (tr.stateChanged <==> reported)
      && (reported ==> tr == PowerTransition(true, s.lastVbusType, observed, now)
                       && t.lastVbusType == observed && t.lastVbusChangeTime == now)
      && (!reported ==> tr == NO_TRANSITION && t.lastVbusType == s.lastVbusType
                        && t.lastVbusChangeTime == s.lastVbusChangeTime)
  {
    VBusTypeDecoded(s);
  }
}
