/** The value types of the driver header: the configuration with its defaults and
    application presets, and the status and measurement snapshots the driver returns. */
module Settings {
  import opened Base
  import opened Registers

  /** Charger configuration (all quantities in mA or mV). The header spells the charge
      voltage field `chargeVoltageNV`; it holds millivolts. */
  datatype ChargerConfig = ChargerConfig(
    inputCurrentMA: U16,
    chargeCurrentMA: U16,
    chargeVoltageMV: U16,
    terminationCurrentMA: U16,
    vindpmThresholdMV: U16,
    voltageSafetyLimitMV: U16,
    disableWatchdog: bool,
    disableSafetyTimer: bool)

  /** The default member initialisers of the configuration. */
  function DefaultConfig(): (c: ChargerConfig)
    ensures c.inputCurrentMA == 1500 && c.chargeCurrentMA == 2000
    ensures c.chargeVoltageMV == 4208 && c.terminationCurrentMA == 128
    ensures c.vindpmThresholdMV == 3900 && c.voltageSafetyLimitMV == 5500
    ensures c.disableWatchdog && c.disableSafetyTimer
  {
    ChargerConfig(1500, 2000, 4208, 128, 3900, 5500, true, true)
  }

  /** LED driver preset: conservative currents, 5.5 V safety limit, safety timer kept. */
  function LedDriverPreset(): (c: ChargerConfig)
    ensures c == DefaultConfig().(chargeCurrentMA := 1000, chargeVoltageMV := 4192,
      terminationCurrentMA := 64, vindpmThresholdMV := 4400, disableSafetyTimer := false)
  {
    ChargerConfig(1500, 1000, 4192, 64, 4400, 5500, true, false)
  }

  /** Portable device preset: higher currents and limits, both timers kept. */
  function PortableDevicePreset(): (c: ChargerConfig)
    ensures c == DefaultConfig().(inputCurrentMA := 2000, chargeCurrentMA := 1500,
      vindpmThresholdMV := 4600, voltageSafetyLimitMV := 6000,
      disableWatchdog := false, disableSafetyTimer := false)
  {
    ChargerConfig(2000, 1500, 4208, 128, 4600, 6000, false, false)
  }

  /** Fast charging preset: the portable preset with 3 A input, 2 A charge, 256 mA termination. */
  function FastChargingPreset(): (c: ChargerConfig)
    ensures c == PortableDevicePreset().(inputCurrentMA := 3000, chargeCurrentMA := 2000,
      terminationCurrentMA := 256)
  {
    ChargerConfig(3000, 2000, 4208, 256, 4600, 6000, false, false)
  }

  /** Lab testing preset: low currents and voltages, both timers disabled. */
  function LabTestingPreset(): (c: ChargerConfig)
    ensures c == DefaultConfig().(inputCurrentMA := 500, chargeCurrentMA := 500,
      chargeVoltageMV := 4100, terminationCurrentMA := 64, vindpmThresholdMV := 4000,
      voltageSafetyLimitMV := 5000)
  {
    ChargerConfig(500, 500, 4100, 64, 4000, 5000, true, true)
  }

  /** One set of ADC readings. A reading whose register read failed keeps its default 0. */
  datatype Metrics = Metrics(
    batteryVoltage: U16,
    systemVoltage: U16,
    inputVoltage: U16,
    chargeCurrentMA: I16,
    tsVoltage: U16,
    timestamp: ULong)

  function DefaultMetrics(timestamp: ULong): (m: Metrics)
    ensures m.batteryVoltage == 0 && m.systemVoltage == 0 && m.inputVoltage == 0
    ensures m.chargeCurrentMA == 0 && m.tsVoltage == 0 && m.timestamp == timestamp
  {
    Metrics(0, 0, 0, 0, 0, timestamp)
  }

  /** A status snapshot. Fields whose register read failed keep their defaults. */
  datatype Status = Status(
    vbusType: VBusType,
    chargeStatus: ChargeStatus,
    chargingEnabled: bool,
    inputDetected: bool,
    batteryDetected: bool,
    faultRegister: Byte,
    watchdogFault: bool,
    chargeFault: bool,
    batteryFault: bool,
    ntcFault: bool,
    lastError: string,
    timestamp: ULong)

  function DefaultStatus(timestamp: ULong): (st: Status)
    ensures st.vbusType == NoInput && st.chargeStatus == NotCharging
    ensures !st.chargingEnabled && !st.inputDetected && !st.batteryDetected
    ensures st.faultRegister == 0
    ensures !st.watchdogFault && !st.chargeFault && !st.batteryFault && !st.ntcFault
    ensures st.lastError == "" && st.timestamp == timestamp
  {
    Status(NoInput, NotCharging, false, false, false, 0, false, false, false, false, "", timestamp)
  }

  /** Result of the VBUS change detector. The description text of the source, built from
      the two type names, is represented by the two types themselves. */
  datatype PowerTransition = PowerTransition(
    stateChanged: bool,
    from: VBusType,
    to: VBusType,
    timestamp: ULong)

  const NO_TRANSITION: PowerTransition := PowerTransition(false, NoInput, NoInput, 0)
}
