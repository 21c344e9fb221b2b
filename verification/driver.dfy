/** The charger driver object. Its fields are the source's member variables; the attached
    device is the mock register file (or null). Every method is proved to produce exactly
    the fields, device state and result of the corresponding Session function. */
module Driver {
  import opened Base
  import opened Bits
  import opened Registers
  import opened Codec
  import opened Settings
  import opened Mock
  import opened Session

  class BQ25895Driver {
    const dev: MockI2CDevice?
    var config: ChargerConfig
    var initialized: bool
    var emergencyMode: bool
    var lastError: string
    var lastVbusType: VBusType
    var lastVbusChangeTime: ULong
    var usbReconnectionInProgress: bool
    var usbReconnectionStartTime: ULong
    var voltageSafe: bool
    var emergencyShutdownTriggered: bool

    /** The driver's fields and the device state as one value. */
    ghost function Abs(): DriverState
      reads this, dev
    {
      DriverState(if dev == null then None else Some(dev.State()), config, initialized, emergencyMode,
                  lastError, lastVbusType, lastVbusChangeTime, usbReconnectionInProgress,
                  usbReconnectionStartTime, voltageSafe, emergencyShutdownTriggered)
    }

    constructor (device: MockI2CDevice?)
      ensures dev == device
      ensures Abs() == Construct(if device == null then None else Some(device.State()))
    {
      dev := device;
      config := DefaultConfig();
      initialized, emergencyMode := false, false;
      lastError := if device == null then DEVICE_NULL else "";
      lastVbusType, lastVbusChangeTime := NoInput, 0;
      usbReconnectionInProgress, usbReconnectionStartTime := false, 0;
      voltageSafe, emergencyShutdownTriggered := true, false;
    }

    // ------------------------------------------------------------ bus helpers

    method WriteRegisterWithRetry(reg: Byte, value: Byte, maxRetries: int) returns (ok: bool)
      modifies this, dev
      ensures (Abs(), ok) == WriteWithRetry(old(Abs()), reg, value, maxRetries)
    {
      if dev == null {
        lastError := DEVICE_NOT_AVAILABLE;
        return false;
      }
      var attempt := 0;
      while attempt < maxRetries
        invariant Abs() == old(Abs()).(device := Some(dev.State()))
        invariant WriteAttempts(old(dev.State()), reg, value, maxRetries)
               == WriteAttempts(dev.State(), reg, value, maxRetries - attempt)
        decreases maxRetries - attempt
      {
        var written := dev.Write([reg, value]);
        if written {
          return true;
        }
        attempt := attempt + 1;
      }
      lastError := WRITE_FAILED;
      ok := false;
    }

    method ReadRegisterWithRetry(reg: Byte, maxRetries: int) returns (value: Option<Byte>)
      modifies this, dev
      ensures (Abs(), value) == ReadWithRetry(old(Abs()), reg, maxRetries)
    {
      if dev == null {
        lastError := DEVICE_NOT_AVAILABLE;
        return None;
      }
      var attempt := 0;
      while attempt < maxRetries
        invariant Abs() == old(Abs()).(device := Some(dev.State()))
        invariant ReadAttempts(old(dev.State()), reg, maxRetries)
               == ReadAttempts(dev.State(), reg, maxRetries - attempt)
        decreases maxRetries - attempt
      {
        value := dev.WriteThenRead([reg], 1);
        if value.Some? {
          return;
        }
        attempt := attempt + 1;
      }
      lastError := READ_FAILED;
      value := None;
    }

    method UpdateRegisterBits(reg: Byte, mask: Byte, value: Byte) returns (ok: bool)
      modifies this, dev
      ensures (Abs(), ok) == Session.UpdateRegisterBits(old(Abs()), reg, mask, value)
    {
      var current := ReadRegisterWithRetry(reg, 2);
      if current.None? {
        lastError := UPDATE_READ_FAILED;
        return false;
      }
      var updated := Merge(current.value, mask, value);
      if updated != current.value {
        ok := WriteRegisterWithRetry(reg, updated, 2);
        return;
      }
      ok := true;
    }

    method ReadRegister(reg: Byte) returns (value: Option<Byte>)
      modifies this, dev
      ensures (Abs(), value) == Session.ReadRegister(old(Abs()), reg)
    {
      if !initialized {
        lastError := NOT_INITIALIZED;
        return None;
      }
      value := ReadRegisterWithRetry(reg, 1);
    }

    method WriteRegister(reg: Byte, value: Byte) returns (ok: bool)
      modifies this, dev
      ensures (Abs(), ok) == Session.WriteRegister(old(Abs()), reg, value)
    {
      if !initialized {
        lastError := NOT_INITIALIZED;
        return false;
      }
      ok := WriteRegisterWithRetry(reg, value, 1);
    }

    method VerifyDevice() returns (ok: bool)
      modifies this, dev
      ensures (Abs(), ok) == Session.VerifyDevice(old(Abs()))
    {
      if dev == null {
        lastError := INTERFACE_NOT_AVAILABLE;
        return false;
      }
      var vendor := ReadRegisterWithRetry(REG0A_VENDOR_PART, 3);
      if vendor.None? {
        lastError := NO_COMMUNICATION;
        return false;
      }
      if !VendorValid(vendor.value) {
        lastError := INVALID_VENDOR;
        return false;
      }
      ok := true;
    }

    // ------------------------------------------------------------ lifecycle

    method Initialize(newConfig: ChargerConfig) returns (ok: bool)
      modifies this, dev
      ensures (Abs(), ok) == Session.Initialize(old(Abs()), newConfig)
    {
      if dev == null {
        lastError := DEVICE_NOT_AVAILABLE;
        return false;
      }
      ghost var s0 := Abs();
      config := newConfig;
      initialized, emergencyMode, lastError := false, false, "";
      ghost var s1 := Abs();
      assert s1 == s0.(config := newConfig, initialized := false, emergencyMode := false, lastError := "");
      var verified := VerifyDevice();
      if !verified {
        lastError := VERIFICATION_FAILED;
        return false;
      }
      initialized := true;
      var _ := ClearFaults();
      ghost var s3 := Abs();
      assert Session.Initialize(s0, newConfig) == InitWatchdog(s3);
      ok := ConfigureWatchdog();
    }

    /** Step 3 of initialisation. */
    method ConfigureWatchdog() returns (ok: bool)
      requires initialized
      modifies this, dev
      ensures (Abs(), ok) == InitWatchdog(old(Abs()))
    {
      if config.disableWatchdog {
        var done := UpdateRegisterBits(REG07_MISC_OPERATION, WATCHDOG_MASK, WATCHDOG_DISABLE * Pow2(WATCHDOG_SHIFT));
        if !done {
          lastError, initialized := WATCHDOG_DISABLE_FAILED, false;
          return false;
        }
      }
      ok := ConfigureSafetyTimer();
    }

    /** Step 4 of initialisation. */
    method ConfigureSafetyTimer() returns (ok: bool)
      requires initialized
      modifies this, dev
      ensures (Abs(), ok) == InitSafetyTimer(old(Abs()))
    {
      if config.disableSafetyTimer {
        var done := UpdateRegisterBits(REG05_TIMER, 0x08, 0x08);
        if !done {
          lastError, initialized := SAFETY_TIMER_DISABLE_FAILED, false;
          return false;
        }
      }
      ok := ConfigureVindpm();
    }

    /** Step 5 of initialisation. */
    method ConfigureVindpm() returns (ok: bool)
      requires initialized
      modifies this, dev
      ensures (Abs(), ok) == InitVindpm(old(Abs()))
    {
      var written := WriteRegisterWithRetry(REG0D_VINDPM, VindpmReg(config.vindpmThresholdMV), 3);
      if !written {
        lastError, initialized := VINDPM_FAILED, false;
        return false;
      }
      ok := ConfigureCharge();
    }

    /** Steps 6 to 9 of initialisation. */
    method ConfigureCharge() returns (ok: bool)
      requires initialized
      modifies this, dev
      ensures (Abs(), ok) == InitCharge(old(Abs()))
    {
      var done := SetInputCurrentLimit(config.inputCurrentMA);
      if !done {
        lastError, initialized := INPUT_CURRENT_FAILED, false;
        return false;
      }
      done := SetChargeCurrent(config.chargeCurrentMA);
      if !done {
        lastError, initialized := CHARGE_CURRENT_FAILED, false;
        return false;
      }
      done := SetChargeVoltage(config.chargeVoltageMV);
      if !done {
        lastError, initialized := CHARGE_VOLTAGE_FAILED, false;
        return false;
      }
      done := SetTerminationCurrent(config.terminationCurrentMA);
      if !done {
        lastError, initialized := TERMINATION_FAILED, false;
        return false;
      }
      initialized := true;
      ok := true;
    }

    function IsInitialized(): (r: bool)
      reads this
      ensures r == Abs().initialized
    {
      initialized
    }

    method Reset()
      modifies this
      ensures Abs() == Session.Reset(old(Abs()))
    {
      initialized, emergencyMode, lastError := false, false, "";
    }

    method FactoryReset()
      modifies this, dev
      ensures Abs() == Session.FactoryReset(old(Abs()))
    {
      if dev == null {
        lastError := DEVICE_NOT_AVAILABLE;
        return;
      }
      var _ := WriteRegisterWithRetry(REG14_RESET, 0x80, 3);
      Reset();
    }

    // ------------------------------------------------------------ status and measurements

    method GetStatus(now: ULong) returns (status: Status)
      modifies this, dev
      ensures (Abs(), status) == Session.GetStatus(old(Abs()), now)
    {
      status := DefaultStatus(now);
      if !initialized {
        lastError := NOT_INITIALIZED;
        status := status.(lastError := lastError);
        return;
      }
      var value := ReadRegisterWithRetry(REG0B_SYSTEM_STATUS, 3);
      if value.Some? {
        status := WithSystemStatus(status, value.value);
      }
      value := ReadRegisterWithRetry(REG0C_FAULT, 3);
      value := ReadRegisterWithRetry(REG0C_FAULT, 3);
      if value.Some? {
        status := WithFaults(status, value.value);
      }
      status := status.(lastError := lastError);
    }

    method GetMetrics(now: ULong) returns (metrics: Metrics)
      modifies this, dev
      ensures (Abs(), metrics) == Session.GetMetrics(old(Abs()), now)
    {
      metrics := DefaultMetrics(now);
      if !initialized {
        lastError := NOT_INITIALIZED;
        return;
      }
      var _ := WriteRegisterWithRetry(REG02_ADC_CONTROL, 0x80, 3);
      var value := ReadRegisterWithRetry(REG0E_BATV, 3);
      if value.Some? {
        metrics := metrics.(batteryVoltage := BatteryMillivolts(value.value));
      }
      value := ReadRegisterWithRetry(REG0F_SYSV, 3);
      if value.Some? {
        metrics := metrics.(systemVoltage := BatteryMillivolts(value.value));
      }
      value := ReadRegisterWithRetry(REG11_VBUSV, 3);
      if value.Some? {
        metrics := metrics.(inputVoltage := InputMillivolts(value.value));
      }
      value := ReadRegisterWithRetry(REG12_ICHGR, 3);
      if value.Some? {
        metrics := metrics.(chargeCurrentMA := ChargeMilliamps(value.value));
      }
      value := ReadRegisterWithRetry(REG10_TSPCT, 3);
      if value.Some? {
        metrics := metrics.(tsVoltage := TsMillivolts(value.value));
      }
    }

    method UpdateAll(now: ULong)
      modifies this, dev
      ensures Abs() == Session.UpdateAll(old(Abs()), now)
    {
      var _ := GetStatus(now);
      var _ := GetMetrics(now);
    }

    // ------------------------------------------------------------ charging control

    method EnableCharging() returns (ok: bool)
      modifies this, dev
      ensures (Abs(), ok) == Session.EnableCharging(old(Abs()))
    {
      if !initialized {
        lastError := NOT_INITIALIZED;
        return false;
      }
      ok := UpdateRegisterBits(REG03_CHARGE_CONFIG, 0x10, 0x10);
    }

    method DisableCharging() returns (ok: bool)
      modifies this, dev
      ensures (Abs(), ok) == Session.DisableCharging(old(Abs()))
    {
      if !initialized {
        lastError := NOT_INITIALIZED;
        return false;
      }
      ok := UpdateRegisterBits(REG03_CHARGE_CONFIG, 0x10, 0x00);
    }

    method SetChargeCurrent(mA: U16) returns (ok: bool)
      modifies this, dev
      ensures (Abs(), ok) == Session.SetChargeCurrent(old(Abs()), mA)
    {
      if !initialized {
        lastError := NOT_INITIALIZED;
        return false;
      }
      ok := WriteRegisterWithRetry(REG04_CHARGE_CURRENT, ChargeCurrentCode(mA), 3);
    }

    method SetInputCurrentLimit(mA: U16) returns (ok: bool)
      modifies this, dev
      ensures (Abs(), ok) == Session.SetInputCurrentLimit(old(Abs()), mA)
    {
      if !initialized {
        lastError := NOT_INITIALIZED;
        return false;
      }
      ok := WriteRegisterWithRetry(REG00_INPUT_CURRENT, InputCurrentCode(mA), 3);
    }

    method SetChargeVoltage(mV: U16) returns (ok: bool)
      modifies this, dev
      ensures (Abs(), ok) == Session.SetChargeVoltage(old(Abs()), mV)
    {
      if !initialized {
        lastError := NOT_INITIALIZED;
        return false;
      }
      var field := ChargeVoltageField(mV);
      var current := ReadRegisterWithRetry(REG06_CHARGE_VOLTAGE, 3);
      if current.None? {
        lastError := CHARGE_VOLTAGE_READ_FAILED;
        return false;
      }
      ok := WriteRegisterWithRetry(REG06_CHARGE_VOLTAGE, ChargeVoltageReg(current.value, field), 3);
    }

    method SetTerminationCurrent(mA: U16) returns (ok: bool)
      modifies this, dev
      ensures (Abs(), ok) == Session.SetTerminationCurrent(old(Abs()), mA)
    {
      if !initialized {
        lastError := NOT_INITIALIZED;
        return false;
      }
      var iterm := TerminationCode(mA);
      var current := ReadRegisterWithRetry(REG05_TIMER, 3);
      if current.None? {
        lastError := ITERM_READ_FAILED;
        return false;
      }
      ok := WriteRegisterWithRetry(REG05_TIMER, TerminationReg(current.value, iterm), 3);
    }

    // ------------------------------------------------------------ VBUS and faults

    method GetVBusType() returns (t: VBusType)
      modifies this, dev
      ensures (Abs(), t) == Session.GetVBusType(old(Abs()))
    {
      if !initialized {
        return NoInput;
      }
      var value := ReadRegisterWithRetry(REG0B_SYSTEM_STATUS, 3);
      t := if value.Some? then StatusVBus(value.value) else NoInput;
    }

    method IsExternalPowerPresent() returns (present: bool)
      modifies this, dev
      ensures (Abs(), present) == Session.IsExternalPowerPresent(old(Abs()))
    {
      var t := GetVBusType();
      present := t != NoInput;
    }

    method ClearFaults() returns (ok: bool)
      modifies this, dev
      ensures (Abs(), ok) == Session.ClearFaults(old(Abs()))
    {
      if !initialized {
        lastError := NOT_INITIALIZED;
        return false;
      }
      var _ := ReadRegisterWithRetry(REG0C_FAULT, 3);
      var _ := WriteRegisterWithRetry(REG00_INPUT_CURRENT, 0x08, 3);
      var _ := WriteRegisterWithRetry(REG03_CHARGE_CONFIG, 0x1A, 3);
      var _ := WriteRegisterWithRetry(REG02_ADC_CONTROL, 0x80, 3);
      ok := true;
    }

    method GetFaultRegister() returns (faults: Byte)
      modifies this, dev
      ensures (Abs(), faults) == Session.GetFaultRegister(old(Abs()))
    {
      if !initialized {
        return 0xFF;
      }
      var _ := ReadRegisterWithRetry(REG0C_FAULT, 3);
      var value := ReadRegisterWithRetry(REG0C_FAULT, 3);
      faults := if value.Some? then value.value else 0xFF;
    }

    // ------------------------------------------------------------ emergency mode

    method EnterEmergencyBatteryMode() returns (ok: bool)
      modifies this, dev
      ensures (Abs(), ok) == Session.EnterEmergencyBatteryMode(old(Abs()))
    {
      if !initialized {
        lastError := NOT_INITIALIZED;
        return false;
      }
      var written := WriteRegisterWithRetry(REG03_CHARGE_CONFIG, 0x00, 3);
      if !written {
        lastError := DISABLE_CHARGING_FAILED;
        return false;
      }
      written := WriteRegisterWithRetry(REG00_INPUT_CURRENT, 0x01, 3);
      if !written {
        lastError := MIN_INPUT_CURRENT_FAILED;
        return false;
      }
      written := WriteRegisterWithRetry(REG0D_VINDPM, 0x80, 3);
      if !written {
        lastError := VBUS_DETECTION_FAILED;
        return false;
      }
      written := WriteRegisterWithRetry(REG07_MISC_OPERATION, 0x40, 3);
      if !written {
        lastError := USB_DETECTION_FAILED;
        return false;
      }
      var _ := ReadRegisterWithRetry(REG0C_FAULT, 3);
      emergencyMode := true;
      ok := true;
    }

    method ExitEmergencyMode() returns (ok: bool)
      modifies this, dev
      ensures (Abs(), ok) == Session.ExitEmergencyMode(old(Abs()))
    {
      if !initialized {
        lastError := NOT_INITIALIZED;
        return false;
      }
      emergencyMode := false;
      ok := Initialize(config);
    }

    function IsInEmergencyMode(): (r: bool)
      reads this
      ensures r == Abs().emergencyMode
    {
      emergencyMode
    }

    method DisableWatchdog() returns (ok: bool)
      modifies this, dev
      ensures (Abs(), ok) == Session.DisableWatchdog(old(Abs()))
    {
      if !initialized {
        lastError := NOT_INITIALIZED;
        return false;
      }
      ok := UpdateRegisterBits(REG07_MISC_OPERATION, WATCHDOG_MASK, WATCHDOG_DISABLE * Pow2(WATCHDOG_SHIFT));
    }

    method ResetWatchdog() returns (ok: bool)
      modifies this, dev
      ensures (Abs(), ok) == Session.ResetWatchdog(old(Abs()))
    {
      if !initialized {
        lastError := NOT_INITIALIZED;
        return false;
      }
      ok := UpdateRegisterBits(REG05_TIMER, 0x40, 0x40);
    }

    method EnterShipMode() returns (ok: bool)
      modifies this, dev
      ensures (Abs(), ok) == Session.EnterShipMode(old(Abs()))
    {
      if !initialized {
        lastError := NOT_INITIALIZED;
        return false;
      }
      ok := WriteRegisterWithRetry(REG09_NEW_FAULT, 0x20, 3);
    }

    // ------------------------------------------------------------ power transitions

    method CheckStartupScenario(externalPower: bool) returns (ok: bool)
      modifies this, dev
      ensures (Abs(), ok) == Session.CheckStartupScenario(old(Abs()), externalPower)
    {
      if !initialized {
        lastError := NOT_INITIALIZED;
        return false;
      }
      if externalPower {
        return true;
      }
      ok := EnterEmergencyBatteryMode();
    }

    method HandleUsbReconnection(externalPower: bool, now: ULong) returns (ok: bool)
      modifies this, dev
      ensures (Abs(), ok) == Session.HandleUsbReconnection(old(Abs()), externalPower, now)
    {
      if !initialized {
        lastError := NOT_INITIALIZED;
        return false;
      }
      if externalPower && !usbReconnectionInProgress {
        usbReconnectionInProgress, usbReconnectionStartTime := true, now;
        return true;
      }
      if usbReconnectionInProgress {
        if Elapsed(now, usbReconnectionStartTime) < USB_SETTLE_MS {
          return true;
        }
        var status := ReadRegisterWithRetry(REG0B_SYSTEM_STATUS, 3);
        if status.None? {
          usbReconnectionInProgress := false;
          return false;
        }
        if externalPower && status.value / 32 == 0 {
          FactoryReset();
          ok := Initialize(config);
          if ok {
            var _ := EnableCharging();
          }
          usbReconnectionInProgress := false;
          return;
        }
        usbReconnectionInProgress := false;
        return true;
      }
      ok := true;
    }

    /** The shared power-down writes of power-loss handling and shutdown preparation. */
    method PowerDown()
      modifies this, dev
      ensures Abs() == PowerDownWrites(old(Abs()))
    {
      var _ := WriteRegisterWithRetry(REG03_CHARGE_CONFIG, 0x00, 3);
      var _ := WriteRegisterWithRetry(REG00_INPUT_CURRENT, 0x01, 3);
      var _ := WriteRegisterWithRetry(REG0D_VINDPM, 0x80, 3);
      var _ := WriteRegisterWithRetry(REG07_MISC_OPERATION, 0x40, 3);
      var _ := ReadRegisterWithRetry(REG0C_FAULT, 3);
    }

    method HandlePowerLoss() returns (ok: bool)
      modifies this, dev
      ensures (Abs(), ok) == Session.HandlePowerLoss(old(Abs()))
    {
      if !initialized || emergencyMode {
        return true;
      }
      PowerDown();
      ok := true;
    }

    method PrepareForShutdown() returns (ok: bool)
      modifies this, dev
      ensures (Abs(), ok) == Session.PrepareForShutdown(old(Abs()))
    {
      if !initialized {
        lastError := NOT_INITIALIZED;
        return false;
      }
      PowerDown();
      ok := true;
    }

    method DisableThermistorMonitoring() returns (ok: bool)
      modifies this
      ensures (Abs(), ok) == Session.DisableThermistorMonitoring(old(Abs()))
    {
      if !initialized {
        lastError := NOT_INITIALIZED;
        return false;
      }
      ok := true;
    }

    method DetectVBusChanges(now: ULong) returns (transition: PowerTransition)
      modifies this, dev
      ensures (Abs(), transition) == Session.DetectVBusChanges(old(Abs()), now)
    {
      if !initialized {
        return NO_TRANSITION;
      }
      var current := GetVBusType();
      transition := NO_TRANSITION;
      if current != lastVbusType && Elapsed(now, lastVbusChangeTime) > VBUS_DEBOUNCE_MS {
        transition := PowerTransition(true, lastVbusType, current, now);
        lastVbusType, lastVbusChangeTime := current, now;
      }
    }

    /** Always false: oscillation detection was removed from the driver. */
    function IsChargeOscillationDetected(): (r: bool)
      ensures !r
    {
      false
    }

    // ------------------------------------------------------------ diagnostics and repair

    function GetConfig(): (c: ChargerConfig)
      reads this
      ensures c == Abs().config
    {
      config
    }

    function GetLastError(): (e: string)
      reads this
      ensures e == Abs().lastError
    {
      lastError
    }

    method PerformSelfTest() returns (ok: bool)
      modifies this, dev
      ensures (Abs(), ok) == Session.PerformSelfTest(old(Abs()))
    {
      if !initialized {
        lastError := NOT_INITIALIZED;
        return false;
      }
      var verified := VerifyDevice();
      if !verified {
        lastError := SELF_TEST_NO_DEVICE;
        return false;
      }
      ok := SelfTestToggle();
    }

    method SelfTestToggle() returns (ok: bool)
      modifies this, dev
      ensures (Abs(), ok) == Session.SelfTestToggle(old(Abs()))
    {
      var original := ReadRegisterWithRetry(REG03_CHARGE_CONFIG, 3);
      if original.None? {
        lastError := SELF_TEST_READ_FAILED;
        return false;
      }
      var toggled := FlipLowBit(original.value);
      var written := WriteRegisterWithRetry(REG03_CHARGE_CONFIG, toggled, 3);
      if !written {
        lastError := SELF_TEST_WRITE_FAILED;
        return false;
      }
      ok := SelfTestReadBack(original.value, toggled);
    }

    method SelfTestReadBack(original: Byte, toggled: Byte) returns (ok: bool)
      modifies this, dev
      ensures (Abs(), ok) == Session.SelfTestReadBack(old(Abs()), original, toggled)
    {
      var readBack := ReadRegisterWithRetry(REG03_CHARGE_CONFIG, 3);
      if readBack.None? {
        lastError := SELF_TEST_READBACK_FAILED;
        return false;
      }
      var _ := WriteRegisterWithRetry(REG03_CHARGE_CONFIG, original, 3);
      if readBack.value != toggled {
        lastError := SELF_TEST_MISMATCH;
        return false;
      }
      ok := true;
    }

    /** Rewrites the charge current, charge voltage and input current registers with safe
        values; as written, the charge current code goes to register 0x02 (see
        Session.RepairRegisters). */
    method RepairRegisters() returns (ok: bool)
      modifies this, dev
      ensures (Abs(), ok) == Session.RepairRegisters(old(Abs()))
    {
      if !initialized {
        lastError := NOT_INITIALIZED;
        return false;
      }
      var ok1 := WriteRegister(REG02_ADC_CONTROL, 16);
      var ok2 := RepairChargeVoltage();
      var ok3 := RepairInputCurrent();
      ok := ok1 && ok2 && ok3;
      if !ok {
        lastError := REPAIR_FAILED;
      }
    }

    method RepairChargeVoltage() returns (ok: bool)
      modifies this, dev
      ensures (Abs(), ok) == Session.RepairChargeVoltage(old(Abs()))
    {
      var reg06 := ReadRegister(REG06_CHARGE_VOLTAGE);
      ok := false;
      if reg06.Some? {
        ok := WriteRegister(REG06_CHARGE_VOLTAGE, ChargeVoltageReg(reg06.value, 22));
      }
    }

    method RepairInputCurrent() returns (ok: bool)
      modifies this, dev
      ensures (Abs(), ok) == Session.RepairInputCurrent(old(Abs()))
    {
      var reg00 := ReadRegister(REG00_INPUT_CURRENT);
      ok := false;
      if reg00.Some? {
        ok := WriteRegister(REG00_INPUT_CURRENT, InputCurrentReg(reg00.value, 28));
      }
    }

    method ForceEnableBatfet() returns (ok: bool)
      modifies this, dev
      ensures (Abs(), ok) == Session.ForceEnableBatfet(old(Abs()))
    {
      if !initialized {
        lastError := NOT_INITIALIZED;
        return false;
      }
      var reg09 := ReadRegister(REG09_NEW_FAULT);
      if reg09.None? {
        lastError := BATFET_READ_FAILED;
        return false;
      }
      if Bit(reg09.value, 5) {
        ok := ClearBatfetDisable(reg09.value);
        return;
      }
      ok := true;
    }

    method ClearBatfetDisable(reg09: Byte) returns (ok: bool)
      modifies this, dev
      ensures (Abs(), ok) == Session.ClearBatfetDisable(old(Abs()), reg09)
    {
      var written := WriteRegister(REG09_NEW_FAULT, Merge(reg09, 0x20, 0x00));
      if !written {
        lastError := BATFET_WRITE_FAILED;
        return false;
      }
      ok := true;
    }

    method ForceRestartCharging() returns (ok: bool)
      modifies this, dev
      ensures (Abs(), ok) == Session.ForceRestartCharging(old(Abs()))
    {
      if !initialized {
        lastError := NOT_INITIALIZED;
        return false;
      }
      ok := DisableCharging();
      if !ok {
        return false;
      }
      ok := WriteRegister(REG00_INPUT_CURRENT, 0x1C);
      if !ok {
        lastError := INPUT_CURRENT_FAILED;
        return false;
      }
      ForceDpdm();
      ok := RestartTail();
    }

    method ForceDpdm()
      modifies this, dev
      ensures Abs() == Session.ForceDpdm(old(Abs()))
    {
      var reg0D := ReadRegister(REG0D_VINDPM);
      if reg0D.Some? {
        var _ := WriteRegister(REG0D_VINDPM, Merge(reg0D.value, 0x80, 0x80));
      }
    }

    method RestartTail() returns (ok: bool)
      modifies this, dev
      ensures (Abs(), ok) == Session.RestartTail(old(Abs()))
    {
      ok := EnableCharging();
      if !ok {
        return false;
      }
      var _ := SetInputCurrentLimit(1500);
      var _ := SetTerminationCurrent(64);
      ok := true;
    }

    // ------------------------------------------------------------ voltage safety

    method CheckVoltageSafety(now: ULong) returns (safe: bool)
      modifies this, dev
      ensures (Abs(), safe) == Session.CheckVoltageSafety(old(Abs()), now)
    {
      if !initialized {
        return true;
      }
      var metrics := GetMetrics(now);
      if metrics.inputVoltage > config.voltageSafetyLimitMV {
        if voltageSafe {
          voltageSafe := false;
          var _ := ForceEmergencyShutdown();
        }
        return false;
      }
      voltageSafe := true;
      safe := true;
    }

    function IsVoltageSafe(): (r: bool)
      reads this
      ensures r == Abs().voltageSafe
    {
      voltageSafe
    }

    method ForceEmergencyShutdown() returns (ok: bool)
      modifies this, dev
      ensures (Abs(), ok) == Session.ForceEmergencyShutdown(old(Abs()))
    {
      if !initialized {
        lastError := SHUTDOWN_NOT_INITIALIZED;
        return false;
      }
      emergencyShutdownTriggered := true;
      var ok1 := DisableCharging();
      var ok2 := DisconnectBattery();
      var ok3 := SetInputCurrentLimit(100);
      ok := ok1 && ok2 && ok3;
    }

    method DisconnectBattery() returns (ok: bool)
      modifies this, dev
      ensures (Abs(), ok) == Session.DisconnectBattery(old(Abs()))
    {
      var reg09 := ReadRegisterWithRetry(REG09_NEW_FAULT, 3);
      ok := true;
      if reg09.Some? {
        ok := WriteRegisterWithRetry(REG09_NEW_FAULT, Merge(reg09.value, 0x20, 0x20), 3);
      }
    }
  }
}
