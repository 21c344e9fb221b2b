/** What the single-register controls leave in the charger's registers on a device
    without armed failures: charging on and off, the watchdog, ship mode and the raw
    register accessors. Each changes one register, and the bit-level controls change one
    field of it. */
module Controls {
  import opened Base
  import opened Bits
  import opened Registers
  import opened Mock
  import opened Session
  import opened Transport

  /** `enableCharging` sets CHG_CONFIG (bit 4 of REG03) and keeps every other bit and register. */
  lemma ChargingEnabled(s: DriverState)
    requires s.initialized && NoInjectedFailures(s)
    ensures var (t, ok) := EnableCharging(s);
      && ok && NoInjectedFailures(t) && t.lastError == s.lastError
      && Bit(Reg(t, REG03_CHARGE_CONFIG), 4)
      && (forall i :: 0 <= i < 8 && i != 4 ==> Bit(Reg(t, REG03_CHARGE_CONFIG), i) == Bit(Reg(s, REG03_CHARGE_CONFIG), i))
      && forall k :: k != REG03_CHARGE_CONFIG ==> Reg(t, k) == Reg(s, k)
  {
    HealthyUpdate(s, REG03_CHARGE_CONFIG, 0x10, 0x10);
    forall i | 0 <= i < 8
      ensures Bit(Merge(Reg(s, REG03_CHARGE_CONFIG), 0x10, 0x10), i) == if i == 4 then true else Bit(Reg(s, REG03_CHARGE_CONFIG), i)
    {
      SingleBitMasks(i);
      MergeSelects(Reg(s, REG03_CHARGE_CONFIG), 0x10, 0x10, i);
    }
  }

  /** `disableCharging` clears CHG_CONFIG and keeps every other bit and register. */
  lemma ChargingDisabled(s: DriverState)
    requires s.initialized && NoInjectedFailures(s)
    ensures var (t, ok) := DisableCharging(s);
      && ok && NoInjectedFailures(t) && t.lastError == s.lastError
      && !Bit(Reg(t, REG03_CHARGE_CONFIG), 4)
      && (forall i :: 0 <= i < 8 && i != 4 ==> Bit(Reg(t, REG03_CHARGE_CONFIG), i) == Bit(Reg(s, REG03_CHARGE_CONFIG), i))
      && forall k :: k != REG03_CHARGE_CONFIG ==> Reg(t, k) == Reg(s, k)
  {
    HealthyUpdate(s, REG03_CHARGE_CONFIG, 0x10, 0x00);
    forall i | 0 <= i < 8
      ensures Bit(Merge(Reg(s, REG03_CHARGE_CONFIG), 0x10, 0x00), i) == if i == 4 then false else Bit(Reg(s, REG03_CHARGE_CONFIG), i)
    {
      SingleBitMasks(i);
      BitZero(i);
      MergeSelects(Reg(s, REG03_CHARGE_CONFIG), 0x10, 0x00, i);
    }
  }

  /** `disableWatchdog` clears the watchdog field (bits 5:4 of REG07) and keeps the rest. */
  lemma WatchdogDisabled(s: DriverState)
    requires s.initialized && NoInjectedFailures(s)
    ensures var (t, ok) := DisableWatchdog(s);
      && ok && NoInjectedFailures(t) && t.lastError == s.lastError
      && !Bit(Reg(t, REG07_MISC_OPERATION), 4) && !Bit(Reg(t, REG07_MISC_OPERATION), 5)
      && (forall i :: 0 <= i < 8 && i != 4 && i != 5 ==>
            Bit(Reg(t, REG07_MISC_OPERATION), i) == Bit(Reg(s, REG07_MISC_OPERATION), i))
      && forall k :: k != REG07_MISC_OPERATION ==> Reg(t, k) == Reg(s, k)
  {
    WatchdogField();
    HealthyUpdate(s, REG07_MISC_OPERATION, WATCHDOG_MASK, 0);
    forall i | 0 <= i < 8
      ensures Bit(Merge(Reg(s, REG07_MISC_OPERATION), WATCHDOG_MASK, 0), i)
           == if i == 4 || i == 5 then false else Bit(Reg(s, REG07_MISC_OPERATION), i)
    {
      BitZero(i);
      MergeSelects(Reg(s, REG07_MISC_OPERATION), WATCHDOG_MASK, 0, i);
    }
  }

  /** `resetWatchdog` sets WD_RST (bit 6 of REG05) and keeps the rest. */
  lemma WatchdogReset(s: DriverState)
    requires s.initialized && NoInjectedFailures(s)
    ensures var (t, ok) := ResetWatchdog(s);
      && ok && NoInjectedFailures(t) && t.lastError == s.lastError
      && Bit(Reg(t, REG05_TIMER), 6)
      && (forall i :: 0 <= i < 8 && i != 6 ==> Bit(Reg(t, REG05_TIMER), i) == Bit(Reg(s, REG05_TIMER), i))
      && forall k :: k != REG05_TIMER ==> Reg(t, k) == Reg(s, k)
  {
    HealthyUpdate(s, REG05_TIMER, 0x40, 0x40);
    forall i | 0 <= i < 8
      ensures Bit(Merge(Reg(s, REG05_TIMER), 0x40, 0x40), i) == if i == 6 then true else Bit(Reg(s, REG05_TIMER), i)
    {
      SingleBitMasks(i);
      MergeSelects(Reg(s, REG05_TIMER), 0x40, 0x40, i);
    }
  }

  /** `enterShipMode` stores BATFET_DIS alone in REG09: bit 5 set, the other bits cleared. */
  lemma ShipModeEntered(s: DriverState)
    requires s.initialized && NoInjectedFailures(s)
    ensures var (t, ok) := EnterShipMode(s);
      && ok && NoInjectedFailures(t) && t.lastError == s.lastError
      && Written(s, t, REG09_NEW_FAULT, 0x20) && Bit(Reg(t, REG09_NEW_FAULT), 5)
  {
    HealthyWrite(s, REG09_NEW_FAULT, 0x20, 3);
    SingleBitMasks(5);
  }

  /** The raw `writeRegister` stores the value in the named register on the first attempt. */
  lemma RegisterWritten(s: DriverState, reg: Byte, value: Byte)
    requires s.initialized && NoInjectedFailures(s) && reg != REG14_RESET
    ensures var (t, ok) := WriteRegister(s, reg, value);
      ok && NoInjectedFailures(t) && t.lastError == s.lastError && Written(s, t, reg, value)
  {
    HealthyWrite(s, reg, value, 1);
  }

  /** The raw `readRegister` returns the register's value; only reading REG0C clears it. */
  lemma RegisterRead(s: DriverState, reg: Byte)
    requires s.initialized && NoInjectedFailures(s)
    ensures var (t, v) := ReadRegister(s, reg);
      && v == Some(Reg(s, reg)) && NoInjectedFailures(t) && t.lastError == s.lastError
      && (reg != REG0C_FAULT ==> SameRegisters(s, t))
      && (reg == REG0C_FAULT ==> Written(s, t, REG0C_FAULT, 0))
  {
    HealthyRead(s, reg, 1);
  }
}
