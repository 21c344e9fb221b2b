/** Register map of the BQ25895 as the driver header names it: addresses, the field
    masks it uses, and the two enumerations decoded from the system status register. */
module Registers {
  import opened Base
  import opened Bits

  const I2C_ADDRESS: Byte := 0x6A

  const REG00_INPUT_CURRENT: Byte := 0x00
  const REG02_ADC_CONTROL: Byte := 0x02
  const REG03_CHARGE_CONFIG: Byte := 0x03
  const REG04_CHARGE_CURRENT: Byte := 0x04
  const REG05_TIMER: Byte := 0x05
  const REG06_CHARGE_VOLTAGE: Byte := 0x06
  const REG07_MISC_OPERATION: Byte := 0x07
  const REG08_SYSTEM_STATUS: Byte := 0x08
  const REG09_NEW_FAULT: Byte := 0x09
  const REG0A_VENDOR_PART: Byte := 0x0A
  const REG0B_SYSTEM_STATUS: Byte := 0x0B
  const REG0C_FAULT: Byte := 0x0C
  const REG0D_VINDPM: Byte := 0x0D
  const REG0E_BATV: Byte := 0x0E
  const REG0F_SYSV: Byte := 0x0F
  const REG10_TSPCT: Byte := 0x10
  const REG11_VBUSV: Byte := 0x11
  const REG12_ICHGR: Byte := 0x12
  const REG13_VDPMSTAT: Byte := 0x13
  const REG14_RESET: Byte := 0x14

  /** VBUS status field of REG0B: bits 7:5. */
  const VBUS_STAT_MASK: Byte := 0xE0
  const VBUS_STAT_SHIFT: nat := 5

  /** Watchdog timer field of REG07: bits 5:4. */
  const WATCHDOG_MASK: Byte := 0x30
  const WATCHDOG_SHIFT: nat := 4
  const WATCHDOG_DISABLE: nat := 0x00
  const WATCHDOG_40S: nat := 0x01
  const WATCHDOG_80S: nat := 0x02
  const WATCHDOG_160S: nat := 0x03

  /** Attempts made by the internal read and write helpers when the caller names none. */
  const DEFAULT_WRITE_RETRIES: int := 3
  const DEFAULT_READ_RETRIES: int := 3

  /** Input source reported in REG0B bits 7:5. */
  datatype VBusType =
    | NoInput | UsbSdp | UsbCdp | UsbDcp | Hvdcp | UnknownAdapter | NonStandard | Otg

  function VBusCode(t: VBusType): (c: nat)
    ensures c < 8
  {
    match t
    case NoInput => 0
    case UsbSdp => 1
    case UsbCdp => 2
    case UsbDcp => 3
    case Hvdcp => 4
    case UnknownAdapter => 5
    case NonStandard => 6
    case Otg => 7
  }

  /** The enumerator a 3-bit code is cast to; every code names one. */
  function VBusTypeOf(code: nat): (t: VBusType)
    requires code < 8
    ensures VBusCode(t) == code
  {
    if code == 0 then NoInput
    else if code == 1 then UsbSdp
    else if code == 2 then UsbCdp
    else if code == 3 then UsbDcp
    else if code == 4 then Hvdcp
    else if code == 5 then UnknownAdapter
    else if code == 6 then NonStandard
    else Otg
  }

  /** Charging phase reported in REG0B bits 4:3. */
  datatype ChargeStatus = NotCharging | PreCharge | FastCharge | ChargeTermination

  function ChargeCode(c: ChargeStatus): (n: nat)
    ensures n < 4
  {
    match c
    case NotCharging => 0
    case PreCharge => 1
    case FastCharge => 2
    case ChargeTermination => 3
  }

  function ChargeStatusOf(code: nat): (c: ChargeStatus)
    requires code < 4
    ensures ChargeCode(c) == code
  {
    if code == 0 then NotCharging
    else if code == 1 then PreCharge
    else if code == 2 then FastCharge
    else ChargeTermination
  }

  /** The eight VBUS types and the eight values of the 3-bit field under VBUS_STAT_MASK
      correspond one to one, so the cast in the status decode is total and lossless. */
  lemma VBusFieldTotal()
    ensures forall i :: 0 <= i < 8 ==> (Bit(VBUS_STAT_MASK, i) <==> VBUS_STAT_SHIFT <= i)
    ensures forall b: Byte :: Field(b, VBUS_STAT_SHIFT, 3) == b / 32
    ensures forall t: VBusType :: VBusTypeOf(VBusCode(t)) == t
    ensures forall c :: 0 <= c < 8 ==> VBusCode(VBusTypeOf(c)) == c
  {
    forall i | 0 <= i < 8
      ensures Bit(VBUS_STAT_MASK, i) <==> VBUS_STAT_SHIFT <= i
    {
      MaskBitsAt(i);
    }
  }

  /** The four charge states and the values of the 2-bit field at bits 4:3 correspond one to one. */
  lemma ChargeFieldTotal()
    ensures forall b: Byte :: Field(b, 3, 2) == b / 8 % 4
    ensures forall c: ChargeStatus :: ChargeStatusOf(ChargeCode(c)) == c
    ensures forall n :: 0 <= n < 4 ==> ChargeCode(ChargeStatusOf(n)) == n
  {
  }

  /** The watchdog mask selects exactly bits 5:4, the field WATCHDOG_SHIFT points at, and
      the "disable" setting clears both. */
  lemma WatchdogField()
    ensures forall i :: 0 <= i < 8 ==> (Bit(WATCHDOG_MASK, i) <==> WATCHDOG_SHIFT <= i < WATCHDOG_SHIFT + 2)
    ensures WATCHDOG_DISABLE * Pow2(WATCHDOG_SHIFT) == 0
    ensures WATCHDOG_160S * Pow2(WATCHDOG_SHIFT) == WATCHDOG_MASK
  {
    forall i | 0 <= i < 8
      ensures Bit(WATCHDOG_MASK, i) <==> WATCHDOG_SHIFT <= i < WATCHDOG_SHIFT + 2
    {
      SingleBitMasks(i);
    }
  }

  lemma MaskBitsAt(i: nat)
    requires i < 8
    ensures Bit(0xE0, i) <==> 5 <= i
    ensures Bit(0x07, i) <==> i < 3
    ensures Bit(0xF0, i) <==> 4 <= i
    ensures Bit(0x03, i) <==> i < 2
  {
    if i == 0 {
    } else if i == 1 {
    } else if i == 2 {
    } else if i == 3 {
    } else if i == 4 {
    } else if i == 5 {
    } else if i == 6 {
    } else {
    }
  }
}
