/** The charger driver as a state-passing function model. Every operation of the driver
    maps the driver's fields plus the device state to the new fields, the new device
    state and the operation's result. The driver class calls are proved against these
    functions; the properties of the driver are proved about them. */
module Session {
  import opened Base
  import opened Bits
  import opened Registers
  import opened Codec
  import opened Settings
  import opened Mock

  /** The driver's fields. `device` is the attached device, `None` for a null pointer. */
  datatype DriverState = DriverState(
    device: Option<Bus>,
    config: ChargerConfig,
    initialized: bool,
    emergencyMode: bool,
    lastError: string,
    lastVbusType: VBusType,
    lastVbusChangeTime: ULong,
    usbReconnectionInProgress: bool,
    usbReconnectionStartTime: ULong,
    voltageSafe: bool,
    emergencyShutdownTriggered: bool)

  const NOT_INITIALIZED := "Driver not initialized"
  const DEVICE_NULL := "I2C device is null"
  const DEVICE_NOT_AVAILABLE := "I2C device not available"
  const INTERFACE_NOT_AVAILABLE := "I2C interface not available"
  const WRITE_FAILED := "I2C write failed after retries"
  const READ_FAILED := "I2C read failed after retries"
  const UPDATE_READ_FAILED := "Failed to read register for bit update"
  const NO_COMMUNICATION := "Cannot communicate with BQ25895"
  const INVALID_VENDOR := "Invalid vendor ID detected"
  const VERIFICATION_FAILED := "Device verification failed"
  const WATCHDOG_DISABLE_FAILED := "Failed to disable watchdog timer"
  const SAFETY_TIMER_DISABLE_FAILED := "Failed to disable safety timer"
  const VINDPM_FAILED := "Failed to set VINDPM threshold"
  const INPUT_CURRENT_FAILED := "Failed to set input current limit"
  const CHARGE_CURRENT_FAILED := "Failed to set charge current"
  const CHARGE_VOLTAGE_FAILED := "Failed to set charge voltage"
  const TERMINATION_FAILED := "Failed to set termination current"
  const CHARGE_VOLTAGE_READ_FAILED := "Failed to read current charge voltage register"
  const ITERM_READ_FAILED := "Failed to read REG05 for ITERM setting"
  const DISABLE_CHARGING_FAILED := "Failed to disable charging"
  const MIN_INPUT_CURRENT_FAILED := "Failed to set minimum input current"
  const VBUS_DETECTION_FAILED := "Failed to disable VBUS detection"
  const USB_DETECTION_FAILED := "Failed to disable USB detection"
  const SELF_TEST_NO_DEVICE := "Self test failed: device communication error"
  const SELF_TEST_READ_FAILED := "Self test failed: cannot read register"
  const SELF_TEST_WRITE_FAILED := "Self test failed: cannot write register"
  const SELF_TEST_READBACK_FAILED := "Self test failed: cannot read back test value"
  const SELF_TEST_MISMATCH := "Self test failed: register write/read mismatch"
  const REPAIR_FAILED := "One or more register repairs failed"
  const BATFET_READ_FAILED := "Failed to read BATFET status"
  const BATFET_WRITE_FAILED := "Failed to write BATFET enable"
  const SHUTDOWN_NOT_INITIALIZED := "Cannot perform emergency shutdown - driver not initialized"

  /** The driver's fields apart from the device and the last error are the same. */
  predicate SameFlags(s: DriverState, t: DriverState)
  {
    && s.config == t.config
    && s.initialized == t.initialized
    && s.emergencyMode == t.emergencyMode
    && s.lastVbusType == t.lastVbusType
    && s.lastVbusChangeTime == t.lastVbusChangeTime
    && s.usbReconnectionInProgress == t.usbReconnectionInProgress
    && s.usbReconnectionStartTime == t.usbReconnectionStartTime
    && s.voltageSafe == t.voltageSafe
    && s.emergencyShutdownTriggered == t.emergencyShutdownTriggered
  }

  /** The bus of a state, empty for a missing device (used only in statements about
      states that have one). */
  function BusOf(s: DriverState): Bus
  {
    if s.device.Some? then s.device.value else EMPTY_BUS
  }

  /** Register `reg` of the attached device. */
  function Reg(s: DriverState, reg: Byte): Byte
  {
    Get(BusOf(s).regs, reg)
  }

  /** The constructor: default configuration and flags; a null device records an error. */
  function Construct(device: Option<Bus>): (s: DriverState)
    ensures !s.initialized && !s.emergencyMode && !s.usbReconnectionInProgress
    ensures s.voltageSafe && !s.emergencyShutdownTriggered
    ensures s.lastVbusType == NoInput && s.lastVbusChangeTime == 0 && s.usbReconnectionStartTime == 0
    ensures s.config == DefaultConfig() && s.device == device
    ensures s.lastError == if device.None? then DEVICE_NULL else ""
  {
    DriverState(device, DefaultConfig(), false, false, if device.None? then DEVICE_NULL else "",
                NoInput, 0, false, 0, true, false)
  }

  // ---------------------------------------------------------------- bus helpers

  /** Up to `remaining` two-byte writes of `[reg, value]`, stopping at the first success. */
  function WriteAttempts(b: Bus, reg: Byte, value: Byte, remaining: int): (res: (Bus, bool))
    decreases remaining
  {
    if remaining <= 0 then (b, false)
    else
      var (b', ok) := BusWrite(b, [reg, value]);
      if ok then (b', true) else WriteAttempts(b', reg, value, remaining - 1)
  }

  /** Up to `remaining` one-byte reads of `reg`, stopping at the first success. */
  function ReadAttempts(b: Bus, reg: Byte, remaining: int): (res: (Bus, Option<Byte>))
    decreases remaining
  {
    if remaining <= 0 then (b, None)
    else
      var (b', v) := BusRead(b, [reg], 1);
      if v.Some? then (b', v) else ReadAttempts(b', reg, remaining - 1)
  }

  /** `writeRegisterWithRetry`: all attempts failing records the write error. */
  function WriteWithRetry(s: DriverState, reg: Byte, value: Byte, maxRetries: int): (res: (DriverState, bool))
    ensures SameFlags(s, res.0) && res.0.device.Some? == s.device.Some?
  {
    match s.device
    case None => (s.(lastError := DEVICE_NOT_AVAILABLE), false)
    case Some(b) =>
      var (b', ok) := WriteAttempts(b, reg, value, maxRetries);
      (s.(device := Some(b'), lastError := if ok then s.lastError else WRITE_FAILED), ok)
  }

  /** `readRegisterWithRetry`: all attempts failing records the read error. */
  function ReadWithRetry(s: DriverState, reg: Byte, maxRetries: int): (res: (DriverState, Option<Byte>))
    ensures SameFlags(s, res.0) && res.0.device.Some? == s.device.Some?
  {
    match s.device
    case None => (s.(lastError := DEVICE_NOT_AVAILABLE), None)
    case Some(b) =>
      var (b', v) := ReadAttempts(b, reg, maxRetries);
      (s.(device := Some(b'), lastError := if v.Some? then s.lastError else READ_FAILED), v)
  }

  /** `updateRegisterBits`: read (two attempts), merge the masked bits, and write (two
      attempts) only when the value changes. */
  function UpdateRegisterBits(s: DriverState, reg: Byte, mask: Byte, value: Byte): (res: (DriverState, bool))
    ensures SameFlags(s, res.0) && res.0.device.Some? == s.device.Some?
    ensures res.1 ==> s.device.Some?
  {
    var (s1, cur) := ReadWithRetry(s, reg, 2);
    if cur.None? then (s1.(lastError := UPDATE_READ_FAILED), false)
    else
      var updated := Merge(cur.value, mask, value);
      if updated != cur.value then WriteWithRetry(s1, reg, updated, 2) else (s1, true)
  }

  /** `readRegister`: guarded single-attempt read. */
  function ReadRegister(s: DriverState, reg: Byte): (res: (DriverState, Option<Byte>))
    ensures SameFlags(s, res.0)
    ensures !s.initialized ==> res == (s.(lastError := NOT_INITIALIZED), None)
  {
    if !s.initialized then (s.(lastError := NOT_INITIALIZED), None)
    else ReadWithRetry(s, reg, 1)
  }

  /** `writeRegister`: guarded single-attempt write. */
  function WriteRegister(s: DriverState, reg: Byte, value: Byte): (res: (DriverState, bool))
    ensures SameFlags(s, res.0)
    ensures !s.initialized ==> res == (s.(lastError := NOT_INITIALIZED), false)
  {
    if !s.initialized then (s.(lastError := NOT_INITIALIZED), false)
    else WriteWithRetry(s, reg, value, 1)
  }

  /** `verifyDevice`: REG0A must be readable and carry a plausible vendor id. */
  function VerifyDevice(s: DriverState): (res: (DriverState, bool))
    ensures SameFlags(s, res.0)
  {
    if s.device.None? then (s.(lastError := INTERFACE_NOT_AVAILABLE), false)
    else
      var (s1, v) := ReadWithRetry(s, REG0A_VENDOR_PART, 3);
      if v.None? then (s1.(lastError := NO_COMMUNICATION), false)
      else if !VendorValid(v.value) then (s1.(lastError := INVALID_VENDOR), false)
      else (s1, true)
  }

  // ---------------------------------------------------------------- lifecycle

  /** An initialisation step failed: record its message and leave the driver uninitialised. */
  function Abort(s: DriverState, message: string): (res: (DriverState, bool))
  {
    (s.(lastError := message, initialized := false), false)
  }

  /** `initialize`: store the configuration, verify the device, clear faults, then
      configure watchdog, safety timer, VINDPM and the four charge parameters, stopping at
      the first failing step. */
  function Initialize(s: DriverState, config: ChargerConfig): (res: (DriverState, bool))
    ensures s.device.None? ==> res == (s.(lastError := DEVICE_NOT_AVAILABLE), false)
    ensures s.device.Some? ==> res.0.config == config && !res.0.emergencyMode
    ensures s.device.Some? ==> res.0.initialized == res.1
  {
    if s.device.None? then (s.(lastError := DEVICE_NOT_AVAILABLE), false)
    else
      var s1 := s.(config := config, initialized := false, emergencyMode := false, lastError := "");
      var (s2, verified) := VerifyDevice(s1);
      if !verified then (s2.(lastError := VERIFICATION_FAILED), false)
      else
        var (s3, _) := ClearFaults(s2.(initialized := true));
        InitWatchdog(s3)
  }

  /** Step 3: clear the watchdog field of REG07 when the configuration asks for it. */
  function InitWatchdog(s: DriverState): (res: (DriverState, bool))
    requires s.initialized
    ensures SameFlags(s, res.0.(initialized := s.initialized))
    ensures res.0.initialized == res.1
  {
    if s.config.disableWatchdog then
      var (s1, ok) := UpdateRegisterBits(s, REG07_MISC_OPERATION, WATCHDOG_MASK, WATCHDOG_DISABLE * Pow2(WATCHDOG_SHIFT));
      if !ok then Abort(s1, WATCHDOG_DISABLE_FAILED) else InitSafetyTimer(s1)
    else InitSafetyTimer(s)
  }

  /** Step 4: set the safety-timer disable bit 3 of REG05 when the configuration asks for it. */
  function InitSafetyTimer(s: DriverState): (res: (DriverState, bool))
    requires s.initialized
    ensures SameFlags(s, res.0.(initialized := s.initialized))
    ensures res.0.initialized == res.1
  {
    if s.config.disableSafetyTimer then
      var (s1, ok) := UpdateRegisterBits(s, REG05_TIMER, 0x08, 0x08);
      if !ok then Abort(s1, SAFETY_TIMER_DISABLE_FAILED) else InitVindpm(s1)
    else InitVindpm(s)
  }

  /** Step 5: write the VINDPM register with the 4-bit threshold field as written (see
      VindpmReg; ClampedVindpmReg is the evidently intended encoding). */
  function InitVindpm(s: DriverState): (res: (DriverState, bool))
    requires s.initialized
    ensures SameFlags(s, res.0.(initialized := s.initialized))
    ensures res.0.initialized == res.1
  {
    var (s1, ok) := WriteWithRetry(s, REG0D_VINDPM, VindpmReg(s.config.vindpmThresholdMV), 3);
    if !ok then Abort(s1, VINDPM_FAILED) else InitCharge(s1)
  }

  /** Steps 6 to 9: input current limit, charge current, charge voltage, termination current. */
  function InitCharge(s: DriverState): (res: (DriverState, bool))
    requires s.initialized
    ensures SameFlags(s, res.0.(initialized := s.initialized))
    ensures res.0.initialized == res.1
  {
    var (s1, ok1) := SetInputCurrentLimit(s, s.config.inputCurrentMA);
    if !ok1 then Abort(s1, INPUT_CURRENT_FAILED)
    else
      var (s2, ok2) := SetChargeCurrent(s1, s.config.chargeCurrentMA);
      if !ok2 then Abort(s2, CHARGE_CURRENT_FAILED)
      else
        var (s3, ok3) := SetChargeVoltage(s2, s.config.chargeVoltageMV);
        if !ok3 then Abort(s3, CHARGE_VOLTAGE_FAILED)
        else
          var (s4, ok4) := SetTerminationCurrent(s3, s.config.terminationCurrentMA);
          if !ok4 then Abort(s4, TERMINATION_FAILED)
          else (s4.(initialized := true), true)
  }

  /** `reset`: forget initialisation, emergency mode and the last error. */
  function Reset(s: DriverState): (t: DriverState)
    ensures !t.initialized && !t.emergencyMode && t.lastError == ""
    ensures t.device == s.device && t.config == s.config && t.voltageSafe == s.voltageSafe
    ensures t.usbReconnectionInProgress == s.usbReconnectionInProgress
  {
    s.(initialized := false, emergencyMode := false, lastError := "")
  }

  /** `factoryReset`: send the reset command (result ignored), then `reset`. */
  function FactoryReset(s: DriverState): (t: DriverState)
    ensures s.device.None? ==> t == s.(lastError := DEVICE_NOT_AVAILABLE)
    ensures s.device.Some? ==> !t.initialized && !t.emergencyMode && t.lastError == "" && t.config == s.config
  {
    if s.device.None? then s.(lastError := DEVICE_NOT_AVAILABLE)
    else Reset(WriteWithRetry(s, REG14_RESET, 0x80, 3).0)
  }

  // ---------------------------------------------------------------- status and measurements

  /** The status fields decoded from REG0B. */
  function WithSystemStatus(st: Status, b: Byte): (st': Status)
    ensures st'.inputDetected <==> Field(b, 5, 3) != 0
    ensures st'.chargingEnabled <==> Field(b, 3, 2) != 0
  {
    var t := StatusVBus(b);
    var c := StatusCharge(b);
    st.(vbusType := t, chargeStatus := c, inputDetected := t != NoInput, chargingEnabled := c != NotCharging)
  }

  /** The status fields decoded from REG0C. */
  function WithFaults(st: Status, f: Byte): (st': Status)
    ensures st'.faultRegister == f
    ensures st'.watchdogFault <==> Bit(f, 7)
    ensures st'.chargeFault <==> Bit(f, 4) || Bit(f, 5)
    ensures st'.batteryFault <==> Bit(f, 3)
    ensures st'.ntcFault <==> Bit(f, 0) || Bit(f, 1) || Bit(f, 2)
  {
    st.(faultRegister := f, watchdogFault := WatchdogFault(f), chargeFault := ChargeFault(f),
        batteryFault := BatteryFault(f), ntcFault := NtcFault(f))
  }

  /** `getStatus`: decode REG0B, then read REG0C twice and decode the second value. */
  function GetStatus(s: DriverState, now: ULong): (res: (DriverState, Status))
    ensures SameFlags(s, res.0)
    ensures res.1.timestamp == now && res.1.lastError == res.0.lastError
    ensures !s.initialized ==>
      res == (s.(lastError := NOT_INITIALIZED), DefaultStatus(now).(lastError := NOT_INITIALIZED))
  {
    var st := DefaultStatus(now);
    if !s.initialized then (s.(lastError := NOT_INITIALIZED), st.(lastError := NOT_INITIALIZED))
    else
      var (s1, v) := ReadWithRetry(s, REG0B_SYSTEM_STATUS, 3);
      var st1 := if v.Some? then WithSystemStatus(st, v.value) else st;
      var (s2, _) := ReadWithRetry(s1, REG0C_FAULT, 3);
      var (s3, f) := ReadWithRetry(s2, REG0C_FAULT, 3);
      var st2 := if f.Some? then WithFaults(st1, f.value) else st1;
      (s3, st2.(lastError := s3.lastError))
  }

  /** `getMetrics`: start an ADC conversion, then read and scale five ADC registers. */
  function GetMetrics(s: DriverState, now: ULong): (res: (DriverState, Metrics))
    ensures SameFlags(s, res.0)
    ensures res.1.timestamp == now
    ensures !s.initialized ==> res == (s.(lastError := NOT_INITIALIZED), DefaultMetrics(now))
  {
    var m := DefaultMetrics(now);
    if !s.initialized then (s.(lastError := NOT_INITIALIZED), m)
    else
      var (s1, _) := WriteWithRetry(s, REG02_ADC_CONTROL, 0x80, 3);
      var (s2, vbat) := ReadWithRetry(s1, REG0E_BATV, 3);
      var (s3, vsys) := ReadWithRetry(s2, REG0F_SYSV, 3);
      var (s4, vbus) := ReadWithRetry(s3, REG11_VBUSV, 3);
      var (s5, ichg) := ReadWithRetry(s4, REG12_ICHGR, 3);
      var (s6, ts) := ReadWithRetry(s5, REG10_TSPCT, 3);
      assert SameFlags(s, s3);
      assert SameFlags(s, s6);
      (s6, m.(batteryVoltage := if vbat.Some? then BatteryMillivolts(vbat.value) else 0,
              systemVoltage := if vsys.Some? then BatteryMillivolts(vsys.value) else 0,
              inputVoltage := if vbus.Some? then InputMillivolts(vbus.value) else 0,
              chargeCurrentMA := if ichg.Some? then ChargeMilliamps(ichg.value) else 0,
              tsVoltage := if ts.Some? then TsMillivolts(ts.value) else 0))
  }

  /** `updateAll`: a status read followed by a measurement read, both results dropped. */
  function UpdateAll(s: DriverState, now: ULong): (t: DriverState)
    ensures SameFlags(s, t)
  {
    GetMetrics(GetStatus(s, now).0, now).0
  }

  // ---------------------------------------------------------------- charging control

  /** `enableCharging`: set CHG_CONFIG, bit 4 of REG03. */
  function EnableCharging(s: DriverState): (res: (DriverState, bool))
    ensures SameFlags(s, res.0)
    ensures !s.initialized ==> res == (s.(lastError := NOT_INITIALIZED), false)
  {
    if !s.initialized then (s.(lastError := NOT_INITIALIZED), false)
    else UpdateRegisterBits(s, REG03_CHARGE_CONFIG, 0x10, 0x10)
  }

  /** `disableCharging`: clear CHG_CONFIG, bit 4 of REG03. */
  function DisableCharging(s: DriverState): (res: (DriverState, bool))
    ensures SameFlags(s, res.0)
    ensures !s.initialized ==> res == (s.(lastError := NOT_INITIALIZED), false)
  {
    if !s.initialized then (s.(lastError := NOT_INITIALIZED), false)
    else UpdateRegisterBits(s, REG03_CHARGE_CONFIG, 0x10, 0x00)
  }

  /** `setChargeCurrent`: write the charge current code to REG04. */
  function SetChargeCurrent(s: DriverState, mA: U16): (res: (DriverState, bool))
    ensures SameFlags(s, res.0)
    ensures !s.initialized ==> res == (s.(lastError := NOT_INITIALIZED), false)
  {
    if !s.initialized then (s.(lastError := NOT_INITIALIZED), false)
    else WriteWithRetry(s, REG04_CHARGE_CURRENT, ChargeCurrentCode(mA), 3)
  }

  /** `setInputCurrentLimit`: write the input current code to REG00. */
  function SetInputCurrentLimit(s: DriverState, mA: U16): (res: (DriverState, bool))
    ensures SameFlags(s, res.0)
    ensures !s.initialized ==> res == (s.(lastError := NOT_INITIALIZED), false)
  {
    if !s.initialized then (s.(lastError := NOT_INITIALIZED), false)
    else WriteWithRetry(s, REG00_INPUT_CURRENT, InputCurrentCode(mA), 3)
  }

  /** `setChargeVoltage`: read REG06 and write it back with the voltage field in bits 7:2
      (the masked field as written, see ChargeVoltageField; ClampedChargeVoltageField is the
      evidently intended one). */
  function SetChargeVoltage(s: DriverState, mV: U16): (res: (DriverState, bool))
    ensures SameFlags(s, res.0)
    ensures !s.initialized ==> res == (s.(lastError := NOT_INITIALIZED), false)
  {
    if !s.initialized then (s.(lastError := NOT_INITIALIZED), false)
    else
      var field := ChargeVoltageField(mV);
      var (s1, cur) := ReadWithRetry(s, REG06_CHARGE_VOLTAGE, 3);
      if cur.None? then (s1.(lastError := CHARGE_VOLTAGE_READ_FAILED), false)
      else WriteWithRetry(s1, REG06_CHARGE_VOLTAGE, ChargeVoltageReg(cur.value, field), 3)
  }

  /** `setTerminationCurrent`: read REG05 and write it back with the ITERM code in bits 3:0. */
  function SetTerminationCurrent(s: DriverState, mA: U16): (res: (DriverState, bool))
    ensures SameFlags(s, res.0)
    ensures !s.initialized ==> res == (s.(lastError := NOT_INITIALIZED), false)
  {
    if !s.initialized then (s.(lastError := NOT_INITIALIZED), false)
    else
      var iterm := TerminationCode(mA);
      var (s1, cur) := ReadWithRetry(s, REG05_TIMER, 3);
      if cur.None? then (s1.(lastError := ITERM_READ_FAILED), false)
      else WriteWithRetry(s1, REG05_TIMER, TerminationReg(cur.value, iterm), 3)
  }

  // ---------------------------------------------------------------- VBUS and faults

  /** `getVBusType`: the decoded REG0B field; `NoInput` when uninitialised or unreadable. */
  function GetVBusType(s: DriverState): (res: (DriverState, VBusType))
    ensures SameFlags(s, res.0)
    ensures !s.initialized ==> res == (s, NoInput)
  {
    if !s.initialized then (s, NoInput)
    else
      var (s1, v) := ReadWithRetry(s, REG0B_SYSTEM_STATUS, 3);
      (s1, if v.Some? then StatusVBus(v.value) else NoInput)
  }

  /** `isExternalPowerPresent`: some VBUS type other than `NoInput` is reported. */
  function IsExternalPowerPresent(s: DriverState): (res: (DriverState, bool))
    ensures SameFlags(s, res.0)
    ensures res.1 <==> GetVBusType(s).1 != NoInput
  {
    var (s1, t) := GetVBusType(s);
    (s1, t != NoInput)
  }

  /** `clearFaults`: read REG0C, then rewrite REG00, REG03 and start an ADC conversion;
      every outcome is ignored. */
  function ClearFaults(s: DriverState): (res: (DriverState, bool))
    ensures SameFlags(s, res.0)
    ensures res.1 <==> s.initialized
  {
    if !s.initialized then (s.(lastError := NOT_INITIALIZED), false)
    else
      var (s1, _) := ReadWithRetry(s, REG0C_FAULT, 3);
      var (s2, _) := WriteWithRetry(s1, REG00_INPUT_CURRENT, 0x08, 3);
      var (s3, _) := WriteWithRetry(s2, REG03_CHARGE_CONFIG, 0x1A, 3);
      var (s4, _) := WriteWithRetry(s3, REG02_ADC_CONTROL, 0x80, 3);
      (s4, true)
  }

  /** `getFaultRegister`: read REG0C twice and return the second value; 0xFF when
      uninitialised or when the second read fails. */
  function GetFaultRegister(s: DriverState): (res: (DriverState, Byte))
    ensures SameFlags(s, res.0)
    ensures !s.initialized ==> res == (s, 0xFF)
  {
    if !s.initialized then (s, 0xFF)
    else
      var (s1, _) := ReadWithRetry(s, REG0C_FAULT, 3);
      var (s2, v) := ReadWithRetry(s1, REG0C_FAULT, 3);
      (s2, if v.Some? then v.value else 0xFF)
  }

  // ---------------------------------------------------------------- emergency mode

  /** `enterEmergencyBatteryMode`: four writes that stop at the first failure, a fault
      register read, and only then the emergency flag. */
  function EnterEmergencyBatteryMode(s: DriverState): (res: (DriverState, bool))
    ensures SameFlags(s, res.0.(emergencyMode := s.emergencyMode))
    ensures res.0.emergencyMode == (s.emergencyMode || res.1)
    ensures !s.initialized ==> res == (s.(lastError := NOT_INITIALIZED), false)
  {
    if !s.initialized then (s.(lastError := NOT_INITIALIZED), false)
    else
      var (s1, ok1) := WriteWithRetry(s, REG03_CHARGE_CONFIG, 0x00, 3);
      if !ok1 then (s1.(lastError := DISABLE_CHARGING_FAILED), false)
      else
        var (s2, ok2) := WriteWithRetry(s1, REG00_INPUT_CURRENT, 0x01, 3);
        if !ok2 then (s2.(lastError := MIN_INPUT_CURRENT_FAILED), false)
        else
          var (s3, ok3) := WriteWithRetry(s2, REG0D_VINDPM, 0x80, 3);
          if !ok3 then (s3.(lastError := VBUS_DETECTION_FAILED), false)
          else
            var (s4, ok4) := WriteWithRetry(s3, REG07_MISC_OPERATION, 0x40, 3);
            if !ok4 then (s4.(lastError := USB_DETECTION_FAILED), false)
            else
              var (s5, _) := ReadWithRetry(s4, REG0C_FAULT, 3);
              (s5.(emergencyMode := true), true)
  }

  /** `exitEmergencyMode`: clear the flag and re-run initialisation with the stored configuration. */
  function ExitEmergencyMode(s: DriverState): (res: (DriverState, bool))
    ensures !s.initialized ==> res == (s.(lastError := NOT_INITIALIZED), false)
    ensures s.initialized ==> !res.0.emergencyMode && res.0.config == s.config
  {
    if !s.initialized then (s.(lastError := NOT_INITIALIZED), false)
    else Initialize(s.(emergencyMode := false), s.config)
  }

  /** `disableWatchdog`: clear the watchdog field of REG07. */
  function DisableWatchdog(s: DriverState): (res: (DriverState, bool))
    ensures SameFlags(s, res.0)
    ensures !s.initialized ==> res == (s.(lastError := NOT_INITIALIZED), false)
  {
    if !s.initialized then (s.(lastError := NOT_INITIALIZED), false)
    else UpdateRegisterBits(s, REG07_MISC_OPERATION, WATCHDOG_MASK, WATCHDOG_DISABLE * Pow2(WATCHDOG_SHIFT))
  }

  /** `resetWatchdog`: set WD_RST, bit 6 of REG05. */
  function ResetWatchdog(s: DriverState): (res: (DriverState, bool))
    ensures SameFlags(s, res.0)
    ensures !s.initialized ==> res == (s.(lastError := NOT_INITIALIZED), false)
  {
    if !s.initialized then (s.(lastError := NOT_INITIALIZED), false)
    else UpdateRegisterBits(s, REG05_TIMER, 0x40, 0x40)
  }

  /** `enterShipMode`: write BATFET_DIS (0x20) to REG09. */
  function EnterShipMode(s: DriverState): (res: (DriverState, bool))
    ensures SameFlags(s, res.0)
    ensures !s.initialized ==> res == (s.(lastError := NOT_INITIALIZED), false)
  {
    if !s.initialized then (s.(lastError := NOT_INITIALIZED), false)
    else WriteWithRetry(s, REG09_NEW_FAULT, 0x20, 3)
  }

  // ---------------------------------------------------------------- power transitions

  /** `checkStartupScenario`: with external power nothing is done; on battery the driver
      enters emergency battery mode. */
  function CheckStartupScenario(s: DriverState, externalPower: bool): (res: (DriverState, bool))
    ensures !s.initialized ==> res == (s.(lastError := NOT_INITIALIZED), false)
    ensures s.initialized && externalPower ==> res == (s, true)
    ensures s.initialized && !externalPower ==> res == EnterEmergencyBatteryMode(s)
  {
    if !s.initialized then (s.(lastError := NOT_INITIALIZED), false)
    else if externalPower then (s, true)
    else EnterEmergencyBatteryMode(s)
  }

  /** Reconnection recovery waits this long (ms) before checking the charger's detection. */
  const USB_SETTLE_MS: int := 2000

  /** `handleUSBReconnection`: arm on external power, wait 2 s, then check that the charger
      reports an input; if it does not, factory-reset, re-initialise and re-enable charging. */
  function HandleUsbReconnection(s: DriverState, externalPower: bool, now: ULong): (res: (DriverState, bool))
    ensures !s.initialized ==> res == (s.(lastError := NOT_INITIALIZED), false)
  {
    if !s.initialized then (s.(lastError := NOT_INITIALIZED), false)
    else if externalPower && !s.usbReconnectionInProgress then
      (s.(usbReconnectionInProgress := true, usbReconnectionStartTime := now), true)
    else if s.usbReconnectionInProgress then
      if Elapsed(now, s.usbReconnectionStartTime) < USB_SETTLE_MS then (s, true)
      else
        var (s1, v) := ReadWithRetry(s, REG0B_SYSTEM_STATUS, 3);
        if v.None? then (s1.(usbReconnectionInProgress := false), false)
        else if externalPower && v.value / 32 == 0 then
          var s2 := FactoryReset(s1);
          var (s3, ok) := Initialize(s2, s2.config);
          var s4 := if ok then EnableCharging(s3).0 else s3;
          (s4.(usbReconnectionInProgress := false), ok)
        else (s1.(usbReconnectionInProgress := false), true)
    else (s, true)
  }

  /** The four blind writes and the fault register read shared by power-loss handling and
      shutdown preparation; every outcome is ignored. */
  function PowerDownWrites(s: DriverState): (t: DriverState)
    ensures SameFlags(s, t)
  {
    var (s1, _) := WriteWithRetry(s, REG03_CHARGE_CONFIG, 0x00, 3);
    var (s2, _) := WriteWithRetry(s1, REG00_INPUT_CURRENT, 0x01, 3);
    var (s3, _) := WriteWithRetry(s2, REG0D_VINDPM, 0x80, 3);
    var (s4, _) := WriteWithRetry(s3, REG07_MISC_OPERATION, 0x40, 3);
    ReadWithRetry(s4, REG0C_FAULT, 3).0
  }

  /** `handlePowerLoss`: skipped when uninitialised or already in emergency mode; always true. */
  function HandlePowerLoss(s: DriverState): (res: (DriverState, bool))
    ensures res.1
    ensures SameFlags(s, res.0)
    ensures !s.initialized || s.emergencyMode ==> res.0 == s
  {
    if !s.initialized || s.emergencyMode then (s, true)
    else (PowerDownWrites(s), true)
  }

  /** `prepareForShutdown`: the same writes as power-loss handling; true whenever initialised. */
  function PrepareForShutdown(s: DriverState): (res: (DriverState, bool))
    ensures res.1 <==> s.initialized
    ensures SameFlags(s, res.0)
    ensures !s.initialized ==> res.0 == s.(lastError := NOT_INITIALIZED)
  {
    if !s.initialized then (s.(lastError := NOT_INITIALIZED), false)
    else (PowerDownWrites(s), true)
  }

  /** `disableThermistorMonitoring`: the thermistor thresholds are fixed in hardware; the
      call only reports success when initialised. */
  function DisableThermistorMonitoring(s: DriverState): (res: (DriverState, bool))
    ensures res.1 <==> s.initialized
    ensures res.0 == if s.initialized then s else s.(lastError := NOT_INITIALIZED)
  {
    if !s.initialized then (s.(lastError := NOT_INITIALIZED), false)
    else (s, true)
  }

  /** A VBUS change is reported only after this many ms (strictly more) since the last one. */
  const VBUS_DEBOUNCE_MS: int := 1000

  /** `detectVBusChanges`: report a change of VBUS type when more than a second has passed
      since the last reported change, and remember it. */
  function DetectVBusChanges(s: DriverState, now: ULong): (res: (DriverState, PowerTransition))
    ensures !s.initialized ==> res == (s, NO_TRANSITION)
  {
    if !s.initialized then (s, NO_TRANSITION)
    else
      var (s1, current) := GetVBusType(s);
      if current != s1.lastVbusType && Elapsed(now, s1.lastVbusChangeTime) > VBUS_DEBOUNCE_MS then
        (s1.(lastVbusType := current, lastVbusChangeTime := now),
         PowerTransition(true, s1.lastVbusType, current, now))
      else (s1, NO_TRANSITION)
  }

  // ---------------------------------------------------------------- diagnostics and repair

  /** `performSelfTest`: verify the device, toggle bit 0 of REG03, read it back, restore it. */
  function PerformSelfTest(s: DriverState): (res: (DriverState, bool))
    ensures !s.initialized ==> res == (s.(lastError := NOT_INITIALIZED), false)
  {
    if !s.initialized then (s.(lastError := NOT_INITIALIZED), false)
    else
      var (s1, ok) := VerifyDevice(s);
      if !ok then (s1.(lastError := SELF_TEST_NO_DEVICE), false)
      else SelfTestToggle(s1)
  }

  /** The self test after device verification: read REG03, write it back with bit 0
      flipped, then check the read-back. */
  function SelfTestToggle(s: DriverState): (res: (DriverState, bool))
  {
    var (s1, original) := ReadWithRetry(s, REG03_CHARGE_CONFIG, 3);
    if original.None? then (s1.(lastError := SELF_TEST_READ_FAILED), false)
    else
      var toggled := FlipLowBit(original.value);
      var (s2, written) := WriteWithRetry(s1, REG03_CHARGE_CONFIG, toggled, 3);
      if !written then (s2.(lastError := SELF_TEST_WRITE_FAILED), false)
      else SelfTestReadBack(s2, original.value, toggled)
  }

  /** The end of the self test: read REG03 back, restore the original value whatever was
      read, and pass only if the read-back equals the toggled value. */
  function SelfTestReadBack(s: DriverState, original: Byte, toggled: Byte): (res: (DriverState, bool))
  {
    var (s1, readBack) := ReadWithRetry(s, REG03_CHARGE_CONFIG, 3);
    if readBack.None? then (s1.(lastError := SELF_TEST_READBACK_FAILED), false)
    else
      var (s2, _) := WriteWithRetry(s1, REG03_CHARGE_CONFIG, original, 3);
      if readBack.value != toggled then (s2.(lastError := SELF_TEST_MISMATCH), false)
      else (s2, true)
  }

  /** `repairRegisters` as written: the charge current code 16 goes to register 0x02,
      which is the ADC control register the driver starts conversions with (see
      RepairRegistersCorrected). */
  function RepairRegisters(s: DriverState): (res: (DriverState, bool))
    ensures SameFlags(s, res.0)
    ensures !s.initialized ==> res == (s.(lastError := NOT_INITIALIZED), false)
    ensures s.initialized && !res.1 ==> res.0.lastError == REPAIR_FAILED
  {
    RepairVia(s, REG02_ADC_CONTROL)
  }

  /** `repairRegisters` as evidently intended: the 1024 mA charge current code 16 goes to
      the charge current register REG04. */
  function RepairRegistersCorrected(s: DriverState): (res: (DriverState, bool))
    ensures SameFlags(s, res.0)
    ensures !s.initialized ==> res == (s.(lastError := NOT_INITIALIZED), false)
    ensures s.initialized && !res.1 ==> res.0.lastError == REPAIR_FAILED
  {
    RepairVia(s, REG04_CHARGE_CURRENT)
  }

  /** Single-attempt writes of the charge current code 16 to `chargeReg`, the 4192 mV field
      into REG06 and the 1500 mA code into REG00; any failure is reported at the end. */
  function RepairVia(s: DriverState, chargeReg: Byte): (res: (DriverState, bool))
    ensures SameFlags(s, res.0)
    ensures !s.initialized ==> res == (s.(lastError := NOT_INITIALIZED), false)
    ensures s.initialized && !res.1 ==> res.0.lastError == REPAIR_FAILED
  {
    if !s.initialized then (s.(lastError := NOT_INITIALIZED), false)
    else
      var (s1, ok1) := WriteRegister(s, chargeReg, 16);
      var (s3, ok2) := RepairChargeVoltage(s1);
      var (s5, ok3) := RepairInputCurrent(s3);
      var ok := ok1 && ok2 && ok3;
      (if ok then s5 else s5.(lastError := REPAIR_FAILED), ok)
  }

  /** Second repair: the VREG field of REG06 set to code 22 (4192 mV), low two bits kept. */
  function RepairChargeVoltage(s: DriverState): (res: (DriverState, bool))
    ensures SameFlags(s, res.0)
  {
    var (s1, r) := ReadRegister(s, REG06_CHARGE_VOLTAGE);
    if r.Some? then WriteRegister(s1, REG06_CHARGE_VOLTAGE, ChargeVoltageReg(r.value, 22)) else (s1, false)
  }

  /** Third repair: the IINLIM field of REG00 set to code 28 (1500 mA), top two bits kept. */
  function RepairInputCurrent(s: DriverState): (res: (DriverState, bool))
    ensures SameFlags(s, res.0)
  {
    var (s1, r) := ReadRegister(s, REG00_INPUT_CURRENT);
    if r.Some? then WriteRegister(s1, REG00_INPUT_CURRENT, InputCurrentReg(r.value, 28)) else (s1, false)
  }

  /** `forceEnableBATFET`: clear BATFET_DIS (bit 5 of REG09) when it is set. */
  function ForceEnableBatfet(s: DriverState): (res: (DriverState, bool))
    ensures SameFlags(s, res.0)
    ensures !s.initialized ==> res == (s.(lastError := NOT_INITIALIZED), false)
  {
    if !s.initialized then (s.(lastError := NOT_INITIALIZED), false)
    else
      var (s1, r) := ReadRegister(s, REG09_NEW_FAULT);
      if r.None? then (s1.(lastError := BATFET_READ_FAILED), false)
      else if Bit(r.value, 5) then
        ClearBatfetDisable(s1, r.value)
      else (s1, true)
  }

  /** Write back `reg09` with BATFET_DIS (bit 5) cleared. */
  function ClearBatfetDisable(s: DriverState, reg09: Byte): (res: (DriverState, bool))
    ensures SameFlags(s, res.0)
  {
    var (s1, ok) := WriteRegister(s, REG09_NEW_FAULT, Merge(reg09, 0x20, 0x00));
    if !ok then (s1.(lastError := BATFET_WRITE_FAILED), false) else (s1, true)
  }

  /** `forceRestartCharging`: disable charging, force the 1500 mA input code, set FORCE_DPDM
      (bit 7 of REG0D), re-enable charging, then re-apply 1500 mA input and 64 mA termination. */
  function ForceRestartCharging(s: DriverState): (res: (DriverState, bool))
    ensures !s.initialized ==> res == (s.(lastError := NOT_INITIALIZED), false)
  {
    if !s.initialized then (s.(lastError := NOT_INITIALIZED), false)
    else
      var (s1, ok1) := DisableCharging(s);
      if !ok1 then (s1, false)
      else
        var (s2, ok2) := WriteRegister(s1, REG00_INPUT_CURRENT, 0x1C);
        if !ok2 then (s2.(lastError := INPUT_CURRENT_FAILED), false)
        else
          RestartTail(ForceDpdm(s2))
  }

  /** Set FORCE_DPDM (bit 7 of REG0D) by a read-modify-write whose outcome is ignored. */
  function ForceDpdm(s: DriverState): (t: DriverState)
    ensures SameFlags(s, t)
  {
    var (s1, r) := ReadRegister(s, REG0D_VINDPM);
    if r.Some? then WriteRegister(s1, REG0D_VINDPM, Merge(r.value, 0x80, 0x80)).0 else s1
  }

  /** Re-enable charging, then re-apply 1500 mA input and 64 mA termination, ignoring
      the outcome of the last two. */
  function RestartTail(s: DriverState): (res: (DriverState, bool))
  {
    var (s1, ok) := EnableCharging(s);
    if !ok then (s1, false)
    else
      var s2 := SetInputCurrentLimit(s1, 1500).0;
      var s3 := SetTerminationCurrent(s2, 64).0;
      (s3, true)
  }

  // ---------------------------------------------------------------- voltage safety

  /** `checkVoltageSafety`: measure; above the configured limit the result is false, and the
      first such reading after a safe one triggers the emergency shutdown. */
  function CheckVoltageSafety(s: DriverState, now: ULong): (res: (DriverState, bool))
    ensures !s.initialized ==> res == (s, true)
  {
    if !s.initialized then (s, true)
    else
      var (s1, m) := GetMetrics(s, now);
      if m.inputVoltage > s1.config.voltageSafetyLimitMV then
        if s1.voltageSafe then (ForceEmergencyShutdown(s1.(voltageSafe := false)).0, false)
        else (s1, false)
      else (s1.(voltageSafe := true), true)
  }

  /** `forceEmergencyShutdown`: mark the shutdown, then attempt all three protective steps
      (clear CHG_CONFIG, set BATFET_DIS, minimum input current); false when one of their
      writes fails. */
  function ForceEmergencyShutdown(s: DriverState): (res: (DriverState, bool))
    ensures res.0.emergencyShutdownTriggered <==> s.emergencyShutdownTriggered || s.initialized
    ensures !s.initialized ==> res == (s.(lastError := SHUTDOWN_NOT_INITIALIZED), false)
  {
    if !s.initialized then (s.(lastError := SHUTDOWN_NOT_INITIALIZED), false)
    else
      var s1 := s.(emergencyShutdownTriggered := true);
      var (s2, ok1) := DisableCharging(s1);
      var (s4, ok2) := DisconnectBattery(s2);
      var (s5, ok3) := SetInputCurrentLimit(s4, 100);
      (s5, ok1 && ok2 && ok3)
  }

  /** Set BATFET_DIS (bit 5 of REG09); an unreadable register is skipped without failing. */
  function DisconnectBattery(s: DriverState): (res: (DriverState, bool))
    ensures SameFlags(s, res.0)
  {
    var (s1, r) := ReadWithRetry(s, REG09_NEW_FAULT, 3);
    if r.Some? then WriteWithRetry(s1, REG09_NEW_FAULT, Merge(r.value, 0x20, 0x20), 3) else (s1, true)
  }
}
