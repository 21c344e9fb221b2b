/** The driver test suite's scenarios, run against the mock register file. Each scenario
    builds its own device and driver, drives them through the driver's methods and returns
    what the test inspects; its postcondition is what the test checks, proved from the
    driver's contracts and the register-level lemmas. */
module Scenarios {
  import opened Base
  import opened Bits
  import opened Registers
  import opened Codec
  import opened Settings
  import opened Mock
  import opened Session
  import opened Driver
  import opened Transport
  import opened Lifecycle
  import opened Controls
  import opened Protection
  import opened Monitoring
  import opened Recovery
  import opened CodecLaws

  // ---------------------------------------------------------------- fixture

  /** The driver the fixture builds: the device holds the default registers, the driver
      is freshly constructed around it. */
  function FixtureState(): DriverState
  {
    Construct(Some(EMPTY_BUS.(regs := WithDefaults(map[]))))
  }

  /** The fixture has no armed failures, is not initialised, and carries a vendor id the
      device check accepts. */
  lemma FixtureHealthy()
    ensures NoInjectedFailures(FixtureState()) && !FixtureState().initialized
    ensures FixtureState().lastError == "" && FixtureState().config == DefaultConfig()
    ensures forall k :: k in DEFAULT_REGISTERS ==> Reg(FixtureState(), k) == DEFAULT_REGISTERS[k]
    ensures VendorValid(Reg(FixtureState(), REG0A_VENDOR_PART))
  {
    DefaultVendorAccepted();
  }

  /** `createTestDriver`: default registers first, then the driver around the device. */
  method CreateTestDriver() returns (mock: MockI2CDevice, driver: BQ25895Driver)
    ensures fresh(mock) && fresh(driver) && driver.dev == mock
    ensures driver.Abs() == FixtureState()
  {
    mock := new MockI2CDevice();
    mock.SetupDefaultRegisters();
    driver := new BQ25895Driver(mock);
  }

  /** A driver after a successful `initialize()` with the default configuration. */
  predicate Ready(s: DriverState)
  {
    && s.initialized && NoInjectedFailures(s) && s.lastError == "" && !s.emergencyMode
    && s.config == DefaultConfig() && VendorValid(Reg(s, REG0A_VENDOR_PART))
  }

  /** The fixture followed by `driver.initialize()`, whose result the tests ignore. */
  method InitializedTestDriver() returns (mock: MockI2CDevice, driver: BQ25895Driver)
    ensures fresh(mock) && fresh(driver) && driver.dev == mock
    ensures Ready(driver.Abs())
  {
    mock, driver := CreateTestDriver();
    FixtureHealthy();
    InitializeProgramsCharger(driver.Abs(), DefaultConfig());
    var _ := driver.Initialize(DefaultConfig());
  }

  // ---------------------------------------------------------------- initialisation

  /** A new driver is neither initialised nor in emergency mode and has no error. */
  method ConstructorAndBasicSetup() returns (initialized: bool, lastError: string, emergency: bool)
    ensures !initialized && lastError == "" && !emergency
  {
    var mock := new MockI2CDevice();
    var driver := new BQ25895Driver(mock);
    initialized := driver.IsInitialized();
    lastError := driver.GetLastError();
    emergency := driver.IsInEmergencyMode();
  }

  /** Initialisation with the watchdog disabled succeeds and leaves the watchdog field clear. */
  method SuccessfulInitialization() returns (result: bool, initialized: bool, lastError: string, reg07: Byte)
    ensures result && initialized && lastError == ""
    ensures !Bit(reg07, 4) && !Bit(reg07, 5)
  {
    var mock, driver := CreateTestDriver();
    var config := DefaultConfig().(inputCurrentMA := 1500, chargeCurrentMA := 2000, disableWatchdog := true);
    FixtureHealthy();
    InitializeProgramsCharger(driver.Abs(), config);
    result := driver.Initialize(config);
    initialized := driver.IsInitialized();
    lastError := driver.GetLastError();
    reg07 := mock.GetRegister(REG07_MISC_OPERATION);
  }

  /** Five failing reads defeat the three attempts of the device check. */
  method FailedInitializationOnReadErrors() returns (result: bool, initialized: bool, lastError: string)
    ensures !result && !initialized && lastError == VERIFICATION_FAILED
  {
    var mock, driver := CreateTestDriver();
    mock.FailReads(5);
    InitializeFailsWithoutReads(driver.Abs(), DefaultConfig());
    result := driver.Initialize(DefaultConfig());
    initialized := driver.IsInitialized();
    lastError := driver.GetLastError();
  }

  /** One hundred failing writes make initialisation fail with an error. */
  method FailedInitializationOnWriteErrors() returns (result: bool, lastError: string)
    ensures !result && lastError != ""
  {
    var mock, driver := CreateTestDriver();
    mock.FailWrites(100);
    FixtureHealthy();
    InitializeFailsWithoutWrites(driver.Abs(), DefaultConfig());
    result := driver.Initialize(DefaultConfig());
    lastError := driver.GetLastError();
  }

  /** The configuration passed to `initialize` is the one `getConfig` returns. */
  method ConfigurationPersistence() returns (retrieved: ChargerConfig)
    ensures retrieved.inputCurrentMA == 2000 && retrieved.chargeCurrentMA == 1500
    ensures retrieved.chargeVoltageMV == 4100
  {
    var mock, driver := CreateTestDriver();
    var config := DefaultConfig().(inputCurrentMA := 2000, chargeCurrentMA := 1500, chargeVoltageMV := 4100);
    var _ := driver.Initialize(config);
    retrieved := driver.GetConfig();
  }

  // ---------------------------------------------------------------- power detection

  /** Whatever VBUS type the device reports is the type the driver returns, and external
      power is present exactly when that type is not `NoInput`. */
  method VBusTypeDetection(t: VBusType) returns (detected: VBusType, present: bool)
    ensures detected == t
    ensures present <==> t != NoInput
  {
    var mock, driver := InitializedTestDriver();
    mock.SimulateVBusType(t);
    ghost var s := driver.Abs();
    VBusTypeDecoded(s);
    detected := driver.GetVBusType();
    ghost var s1 := driver.Abs();
    VBusTypeDecoded(s1);
    present := driver.IsExternalPowerPresent();
  }

  // ---------------------------------------------------------------- charging control

  /** `enableCharging` sets CHG_CONFIG. */
  method EnableChargingScenario() returns (result: bool, reg03: Byte)
    ensures result && Bit(reg03, 4)
  {
    var mock, driver := InitializedTestDriver();
    ChargingEnabled(driver.Abs());
    result := driver.EnableCharging();
    reg03 := mock.GetRegister(REG03_CHARGE_CONFIG);
  }

  /** `disableCharging` after `enableCharging` clears CHG_CONFIG. */
  method DisableChargingScenario() returns (result: bool, reg03: Byte)
    ensures result && !Bit(reg03, 4)
  {
    var mock, driver := InitializedTestDriver();
    ChargingEnabled(driver.Abs());
    var _ := driver.EnableCharging();
    ChargingDisabled(driver.Abs());
    result := driver.DisableCharging();
    reg03 := mock.GetRegister(REG03_CHARGE_CONFIG);
  }

  /** 1000 mA programs code 15 (960 mA) into REG04. */
  method SetChargeCurrentScenario() returns (result: bool, reg04: Byte)
    ensures result && reg04 == 15 && reg04 != 0
  {
    var mock, driver := InitializedTestDriver();
    ChargeCurrentStored(driver.Abs(), 1000);
    result := driver.SetChargeCurrent(1000);
    reg04 := mock.GetRegister(REG04_CHARGE_CURRENT);
  }

  /** 1500 mA programs code 28 (1500 mA) into REG00. */
  method SetInputCurrentLimitScenario() returns (result: bool, reg00: Byte)
    ensures result && reg00 == 28 && reg00 != 0
  {
    var mock, driver := InitializedTestDriver();
    InputCurrentLimitStored(driver.Abs(), 1500);
    result := driver.SetInputCurrentLimit(1500);
    reg00 := mock.GetRegister(REG00_INPUT_CURRENT);
  }

  // ---------------------------------------------------------------- measurements and status

  /** Simulated ADC registers read back as the values the test expects. */
  method MeasurementsScenario(now: ULong) returns (metrics: Metrics)
    ensures metrics.batteryVoltage == 3844 && metrics.chargeCurrentMA == 1200
    ensures metrics.systemVoltage == 4004 && metrics.inputVoltage == 5600 && metrics.tsVoltage == 2480
    ensures metrics.timestamp == now
  {
    var mock, driver := InitializedTestDriver();
    mock.SimulateBatteryVoltage(3844);
    mock.SimulateChargeCurrent(1200);
    mock.SetRegister(REG0F_SYSV, 0x55);
    mock.SetRegister(REG11_VBUSV, 0x1E);
    mock.SetRegister(REG10_TSPCT, 0x3F);
    MeasurementsDecoded(driver.Abs(), now);
    metrics := driver.GetMetrics(now);
  }

  /** The simulated codes read back through the driver's scalings. */
  lemma MeasurementsDecoded(s: DriverState, now: ULong)
    requires s.initialized && NoInjectedFailures(s)
    requires Reg(s, REG0E_BATV) == BatteryVoltageCode(3844) && Reg(s, REG12_ICHGR) == ChargeCurrentCodeOf(1200)
    requires Reg(s, REG0F_SYSV) == 0x55 && Reg(s, REG11_VBUSV) == 0x1E && Reg(s, REG10_TSPCT) == 0x3F
    ensures var m := GetMetrics(s, now).1;
      && m.batteryVoltage == 3844 && m.chargeCurrentMA == 1200
      && m.systemVoltage == 4004 && m.inputVoltage == 5600 && m.tsVoltage == 2480
      && m.timestamp == now
  {
    assert BatteryVoltageCode(3844) == 77 && BatteryMillivolts(77) == 3844;
    assert ChargeCurrentCodeOf(1200) == 24 && ChargeMilliamps(24) == 1200;
    assert BatteryMillivolts(0x55) == 4004 && InputMillivolts(0x1E) == 5600 && TsMillivolts(0x3F) == 2480;
    MetricsDecodeRegisters(s, now);
  }

  /** A CDP port in fast charge is reported as such, with input present and no fault. */
  method StatusReadingScenario(now: ULong) returns (status: Status)
    ensures status.vbusType == UsbCdp && status.chargeStatus == FastCharge
    ensures status.inputDetected && status.faultRegister == 0 && status.timestamp == now
  {
    var mock, driver := InitializedTestDriver();
    mock.SimulateVBusType(UsbCdp);
    mock.SimulateChargeStatus(FastCharge);
    StatusDecodesRegisters(driver.Abs(), now);
    status := driver.GetStatus(now);
  }

  /** Ten failing reads make `getStatus` record the read error. */
  method StatusReadFailureScenario(now: ULong) returns (lastError: string)
    ensures lastError == READ_FAILED
  {
    var mock, driver := InitializedTestDriver();
    mock.FailReads(10);
    StatusReportsReadFailure(driver.Abs(), now);
    var _ := driver.GetStatus(now);
    lastError := driver.GetLastError();
  }

  // ---------------------------------------------------------------- faults

  /** Without faults the fault register reads 0 and decodes to "No faults". */
  method NoFaultsScenario() returns (faultRegister: Byte, text: string)
    ensures faultRegister == 0 && text == NO_FAULTS
  {
    var mock, driver := InitializedTestDriver();
    FaultRegisterReadsCleared(driver.Abs());
    faultRegister := driver.GetFaultRegister();
    text := DecodeFaults(0);
  }

  /** A latched watchdog and battery fault is visible in the mock, cleared by the first of
      the driver's two reads, and decoded by name. */
  method DetectFaultsScenario() returns (mockFault: Byte, faultRegister: Byte, text: string)
    ensures mockFault == 0x88 && faultRegister == 0
    ensures text == WATCHDOG_LABEL + " " + BATTERY_LABEL + FAULTS_SUFFIX
  {
    var mock, driver := InitializedTestDriver();
    mock.SimulateFault(0x88);
    mockFault := mock.GetRegister(REG0C_FAULT);
    FaultRegisterReadsCleared(driver.Abs());
    faultRegister := driver.GetFaultRegister();
    WatchdogBatteryFaultText();
    text := DecodeFaults(0x88);
  }

  /** `clearFaults` succeeds and the fault register then reads 0. */
  method ClearFaultsScenario() returns (result: bool, faultRegister: Byte)
    ensures result && faultRegister == 0
  {
    var mock, driver := InitializedTestDriver();
    mock.SimulateFault(0x80);
    ClearFaultsWrites(driver.Abs());
    result := driver.ClearFaults();
    FaultRegisterReadsCleared(driver.Abs());
    faultRegister := driver.GetFaultRegister();
  }

  // ---------------------------------------------------------------- emergency mode

  /** Emergency battery mode stops charging and forces the VINDPM bit. */
  method EnterEmergencyModeScenario() returns (result: bool, emergency: bool, reg03: Byte, reg0D: Byte)
    ensures result && emergency
    ensures reg03 == 0 && !Bit(reg03, 4) && reg0D == 0x80 && Bit(reg0D, 7)
  {
    var mock, driver := InitializedTestDriver();
    EmergencyModeWrites(driver.Abs());
    result := driver.EnterEmergencyBatteryMode();
    emergency := driver.IsInEmergencyMode();
    reg03 := mock.GetRegister(REG03_CHARGE_CONFIG);
    reg0D := mock.GetRegister(REG0D_VINDPM);
    BitZero(4);
  }

  /** Leaving emergency mode re-initialises and clears the flag. */
  method ExitEmergencyModeScenario() returns (result: bool, emergency: bool)
    ensures result && !emergency
  {
    var mock, driver := InitializedTestDriver();
    EmergencyModeWrites(driver.Abs());
    var _ := driver.EnterEmergencyBatteryMode();
    ExitEmergencyModeRestores(driver.Abs());
    result := driver.ExitEmergencyMode();
    emergency := driver.IsInEmergencyMode();
  }

  // ---------------------------------------------------------------- watchdog, reset, ship mode

  /** `disableWatchdog` leaves the watchdog field clear. */
  method DisableWatchdogScenario() returns (result: bool, reg07: Byte)
    ensures result && !Bit(reg07, 4) && !Bit(reg07, 5)
  {
    var mock, driver := InitializedTestDriver();
    WatchdogDisabled(driver.Abs());
    result := driver.DisableWatchdog();
    reg07 := mock.GetRegister(REG07_MISC_OPERATION);
  }

  /** With the 40 s watchdog armed by hand, `resetWatchdog` succeeds and sets WD_RST. */
  method ResetWatchdogScenario() returns (result: bool, reg05: Byte)
    ensures result && Bit(reg05, 6)
  {
    var mock, driver := InitializedTestDriver();
    mock.SetRegister(REG07_MISC_OPERATION, WATCHDOG_40S * 16);
    WatchdogReset(driver.Abs());
    result := driver.ResetWatchdog();
    reg05 := mock.GetRegister(REG05_TIMER);
  }

  /** `factoryReset` brings an overwritten REG03 back to its default 0x1A. */
  method FactoryResetScenario() returns (reg03: Byte)
    ensures reg03 == 0x1A && reg03 != 0xFF
  {
    var mock, driver := InitializedTestDriver();
    mock.SetRegister(REG03_CHARGE_CONFIG, 0xFF);
    FactoryResetRestoresDefaults(driver.Abs());
    driver.FactoryReset();
    reg03 := mock.GetRegister(REG03_CHARGE_CONFIG);
  }

  /** `reset` forgets the initialisation. */
  method SoftResetScenario() returns (initialized: bool)
    ensures !initialized
  {
    var mock, driver := InitializedTestDriver();
    driver.Reset();
    initialized := driver.IsInitialized();
  }

  /** A control on an uninitialised driver fails and says why. */
  method UninitializedOperationScenario() returns (result: bool, lastError: string)
    ensures !result && lastError == NOT_INITIALIZED
  {
    var mock, driver := CreateTestDriver();
    result := driver.EnableCharging();
    lastError := driver.GetLastError();
  }

  /** Ship mode sets BATFET_DIS. */
  method ShipModeScenario() returns (result: bool, reg09: Byte)
    ensures result && Bit(reg09, 5)
  {
    var mock, driver := InitializedTestDriver();
    ShipModeEntered(driver.Abs());
    result := driver.EnterShipMode();
    reg09 := mock.GetRegister(REG09_NEW_FAULT);
  }

  /** The self test passes on an initialised driver. */
  method SelfTestScenario() returns (result: bool)
    ensures result
  {
    var mock, driver := InitializedTestDriver();
    SelfTestRestores(driver.Abs());
    result := driver.PerformSelfTest();
  }

  // ---------------------------------------------------------------- raw register access

  /** A raw write is stored as given. */
  method DirectRegisterWrite() returns (result: bool, reg03: Byte)
    ensures result && reg03 == 0x1A
  {
    var mock, driver := InitializedTestDriver();
    RegisterWritten(driver.Abs(), REG03_CHARGE_CONFIG, 0x1A);
    result := driver.WriteRegister(REG03_CHARGE_CONFIG, 0x1A);
    reg03 := mock.GetRegister(REG03_CHARGE_CONFIG);
  }

  /** A raw read returns the register's value. */
  method DirectRegisterRead() returns (result: bool, value: Byte)
    ensures result && value == 0x23
  {
    var mock, driver := InitializedTestDriver();
    mock.SetRegister(REG0A_VENDOR_PART, 0x23);
    RegisterRead(driver.Abs(), REG0A_VENDOR_PART);
    var v := driver.ReadRegister(REG0A_VENDOR_PART);
    result := v.Some?;
    if result {
      value := v.value;
    }
  }
}
