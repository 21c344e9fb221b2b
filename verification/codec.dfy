/** The driver's pure register arithmetic: the values its setters write, the decoding of
    the status, fault and ADC registers, the vendor check and the label texts. C's
    semantics are followed: `uint16_t` operands are promoted to `int`, so a subtraction
    below the range goes negative, `/` truncates toward zero (TruncDiv), and `& 2^k-1`
    then keeps the low bits of the two's-complement value, which is Euclidean `% 2^k`. */
module Codec {
  import opened Base
  import opened Bits
  import opened Registers

  // ---------------------------------------------------------------- setters

  /** REG04 value for a charge current: `(mA / 64) & 0x7F` (64 mA per step, floor). */
  function ChargeCurrentCode(mA: U16): (r: Byte)
    ensures r < 128
    ensures mA < 8192 ==> 64 * r <= mA < 64 * r + 64
  {
    mA / 64 % 128
  }

  /** REG00 value for an input current limit: clamped to 0 at or below 100 mA and to 0x3F
      above 3250 mA, otherwise `(mA - 100) / 50` (100 mA plus 50 mA per step, floor). */
  function InputCurrentCode(mA: U16): (r: Byte)
    ensures r < 64
    ensures mA <= 100 ==> r == 0
    ensures 100 < mA <= 3250 ==> 100 + 50 * r <= mA < 150 + 50 * r
    ensures mA > 3250 ==> r == 0x3F
  {
    if mA <= 100 then 0x00
    else if mA <= 3250 then (mA - 100) / 50 % 64
    else 0x3F
  }

  /** The 6-bit charge voltage field: `((mV - 3840) / 16) & 0x3F`. */
  function ChargeVoltageField(mV: U16): (f: nat)
    ensures f < 64
    ensures 3840 <= mV < 4864 ==> 3840 + 16 * f <= mV < 3856 + 16 * f
    ensures 3825 <= mV < 3840 ==> f == 0
  {
    TruncDiv(mV - 3840, 16) % 64
  }

  /** The charge voltage field as evidently intended: requests below 3840 mV give the
      3840 mV minimum, requests above the 4848 mV maximum give the maximum, and in between
      the 16 mV step at or below the request. */
  function ClampedChargeVoltageField(mV: U16): (f: nat)
    ensures f < 64
    ensures mV < 3840 ==> f == 0
    ensures 3840 <= mV < 4864 ==> 3840 + 16 * f <= mV < 3856 + 16 * f
    ensures mV >= 4864 ==> f == 63
  {
    if mV < 3840 then 0
    else if mV < 4864 then (mV - 3840) / 16
    else 63
  }

  /** New REG06 value: `(cur & 0x03) | (field << 2)`. */
  function ChargeVoltageReg(cur: Byte, field: nat): (r: Byte)
    requires field < 64
    ensures forall i :: 0 <= i < 8 ==> Bit(r, i) == if i < 2 then Bit(cur, i) else Bit(field, i - 2)
    ensures Field(r, 2, 6) == field
  {
    var r := field * 4 + cur % 4;
    forall i | 0 <= i < 8
      ensures Bit(r, i) == if i < 2 then Bit(cur, i) else Bit(field, i - 2)
    {
      Splice(field, cur % 4, 2, i);
      LowBit(cur, 2, i);
    }
    DivisionUnique(r, 4, field, cur % 4);
    r
  }

  /** New REG00 value keeping bits 7:6: `(cur & 0xC0) | code`. */
  function InputCurrentReg(cur: Byte, code: nat): (r: Byte)
    requires code < 64
    ensures forall i :: 0 <= i < 8 ==> Bit(r, i) == if i < 6 then Bit(code, i) else Bit(cur, i)
  {
    var r := cur / 64 * 64 + code;
    forall i | 0 <= i < 8
      ensures Bit(r, i) == if i < 6 then Bit(code, i) else Bit(cur, i)
    {
      Splice(cur / 64, code, 6, i);
      if i >= 6 {
        ShiftBit(cur, 6, i - 6);
      }
    }
    r
  }

  /** The 4-bit termination current code: clamped to 0 at or below 64 mA and to 0x0F above
      1024 mA, otherwise `(mA - 64) / 64` (64 mA plus 64 mA per step, floor). */
  function TerminationCode(mA: U16): (r: nat)
    ensures r < 16
    ensures mA <= 64 ==> r == 0
    ensures 64 < mA <= 1024 ==> 64 + 64 * r <= mA < 128 + 64 * r
    ensures mA > 1024 ==> r == 0x0F
  {
    if mA <= 64 then 0x00
    else if mA <= 1024 then (mA - 64) / 64 % 16
    else 0x0F
  }

  /** New REG05 value: `(cur & 0xF0) | iterm`. */
  function TerminationReg(cur: Byte, iterm: nat): (r: Byte)
    requires iterm < 16
    ensures forall i :: 0 <= i < 8 ==> Bit(r, i) == if i < 4 then Bit(iterm, i) else Bit(cur, i)
  {
    var r := cur / 16 * 16 + iterm;
    forall i | 0 <= i < 8
      ensures Bit(r, i) == if i < 4 then Bit(iterm, i) else Bit(cur, i)
    {
      Splice(cur / 16, iterm, 4, i);
      if i >= 4 {
        ShiftBit(cur, 4, i - 4);
      }
    }
    r
  }

  /** REG0D value written by initialisation: `0x80 | (((mV - 2600) / 100) & 0x0F)`. */
  function VindpmReg(mV: U16): (r: Byte)
    ensures Bit(r, 7)
    ensures 2600 <= mV < 4200 ==> 2600 + 100 * (r - 0x80) <= mV < 2700 + 100 * (r - 0x80)
  {
    var r := 0x80 + TruncDiv(mV - 2600, 100) % 16;
    FieldBit(r, 7, 1, 0);
    r
  }

  /** REG0D value as evidently intended: bit 7 forces VINDPM and bits 6:0 hold the
      threshold in 100 mV steps above 2600 mV, clamped to the field's range. */
  function ClampedVindpmReg(mV: U16): (r: Byte)
    ensures Bit(r, 7)
    ensures mV < 2600 ==> r == 0x80
    ensures 2600 <= mV < 15400 ==> 2600 + 100 * (r - 0x80) <= mV < 2700 + 100 * (r - 0x80)
    ensures mV >= 15400 ==> r == 0xFF
  {
    var code := if mV < 2600 then 0 else if mV < 15400 then (mV - 2600) / 100 else 127;
    var r := 0x80 + code;
    FieldBit(r, 7, 1, 0);
    r
  }

  // ---------------------------------------------------------------- device identity

  /** Vendor id `(b >> 3) & 0x1F` of REG0A. */
  function VendorId(b: Byte): (id: nat)
    ensures id < 32
    ensures forall i :: 0 <= i < 5 ==> Bit(id, i) == Bit(b, 3 + i)
  {
    forall i | 0 <= i < 5
      ensures Bit(Field(b, 3, 5), i) == Bit(b, 3 + i)
    {
      FieldBit(b, 3, 5, i);
    }
    Field(b, 3, 5)
  }

  /** The device is accepted unless the vendor id is all zeros or all ones. */
  predicate VendorValid(b: Byte)
  {
    VendorId(b) != 0 && VendorId(b) != 0x1F
  }

  // ---------------------------------------------------------------- status decode

  /** `(b & 0xE0) >> 5`, cast to the enumeration. */
  function StatusVBus(b: Byte): (t: VBusType)
    ensures forall i :: 0 <= i < 3 ==> Bit(VBusCode(t), i) == Bit(b, VBUS_STAT_SHIFT + i)
  {
    forall i | 0 <= i < 3
      ensures Bit(Field(b, 5, 3), i) == Bit(b, 5 + i)
    {
      FieldBit(b, 5, 3, i);
    }
    VBusTypeOf(Field(b, 5, 3))
  }

  /** `(b >> 3) & 0x03`, cast to the enumeration. */
  function StatusCharge(b: Byte): (c: ChargeStatus)
    ensures forall i :: 0 <= i < 2 ==> Bit(ChargeCode(c), i) == Bit(b, 3 + i)
  {
    forall i | 0 <= i < 2
      ensures Bit(Field(b, 3, 2), i) == Bit(b, 3 + i)
    {
      FieldBit(b, 3, 2, i);
    }
    ChargeStatusOf(Field(b, 3, 2))
  }

  // ---------------------------------------------------------------- fault decode

  /** `(b & 0x80) != 0` */
  predicate WatchdogFault(b: Byte)
    ensures WatchdogFault(b) <==> Bit(b, 7)
  {
    FieldBit(b, 7, 1, 0);
    Field(b, 7, 1) == 1
  }

  /** `(b & 0x40) != 0` */
  predicate OtgFault(b: Byte)
    ensures OtgFault(b) <==> Bit(b, 6)
  {
    FieldBit(b, 6, 1, 0);
    Field(b, 6, 1) == 1
  }

  /** `(b & 0x30) != 0` */
  predicate ChargeFault(b: Byte)
    ensures ChargeFault(b) <==> Bit(b, 4) || Bit(b, 5)
  {
    FieldBit(b, 4, 2, 0);
    FieldBit(b, 4, 2, 1);
    Field(b, 4, 2) != 0
  }

  /** `(b & 0x08) != 0` */
  predicate BatteryFault(b: Byte)
    ensures BatteryFault(b) <==> Bit(b, 3)
  {
    FieldBit(b, 3, 1, 0);
    Field(b, 3, 1) == 1
  }

  /** `(b & 0x07) != 0` */
  predicate NtcFault(b: Byte)
    ensures NtcFault(b) <==> Bit(b, 0) || Bit(b, 1) || Bit(b, 2)
  {
    FieldBit(b, 0, 3, 0);
    FieldBit(b, 0, 3, 1);
    FieldBit(b, 0, 3, 2);
    Field(b, 0, 3) != 0
  }

  const WATCHDOG_LABEL := "Watchdog"
  const OTG_LABEL := "OTG"
  const CHARGE_LABEL := "Charge"
  const BATTERY_LABEL := "Battery"
  const NTC_LABEL := "NTC"
  const NO_FAULTS := "No faults"
  const FAULTS_SUFFIX := " fault(s)"

  lemma LabelsDistinct()
    ensures WATCHDOG_LABEL != OTG_LABEL && WATCHDOG_LABEL != CHARGE_LABEL
    ensures WATCHDOG_LABEL != BATTERY_LABEL && WATCHDOG_LABEL != NTC_LABEL
    ensures OTG_LABEL != CHARGE_LABEL && OTG_LABEL != BATTERY_LABEL && OTG_LABEL != NTC_LABEL
    ensures CHARGE_LABEL != BATTERY_LABEL && CHARGE_LABEL != NTC_LABEL && BATTERY_LABEL != NTC_LABEL
  {
    assert OTG_LABEL[0] != NTC_LABEL[0];
  }

  /** The labels `decodeFaults` chooses, in its order. */
  function FaultLabels(b: Byte): (labels: seq<string>)
    ensures (WATCHDOG_LABEL in labels) <==> Bit(b, 7)
    ensures (OTG_LABEL in labels) <==> Bit(b, 6)
    ensures (CHARGE_LABEL in labels) <==> Bit(b, 5) || Bit(b, 4)
    ensures (BATTERY_LABEL in labels) <==> Bit(b, 3)
    ensures (NTC_LABEL in labels) <==> Bit(b, 2) || Bit(b, 1) || Bit(b, 0)
    ensures |labels| > 0 <==> b != 0
  {
    FaultGroupsCover(b);
    LabelsDistinct();
    Labeled(WatchdogFault(b), WATCHDOG_LABEL)
    + Labeled(OtgFault(b), OTG_LABEL)
    + Labeled(ChargeFault(b), CHARGE_LABEL)
    + Labeled(BatteryFault(b), BATTERY_LABEL)
    + Labeled(NtcFault(b), NTC_LABEL)
  }

  function Labeled(present: bool, name: string): (l: seq<string>)
  {
    if present then [name] else []
  }

  /** The five fault groups together cover all eight bits of the fault register. */
  lemma FaultGroupsCover(b: Byte)
    ensures b != 0 <==> WatchdogFault(b) || OtgFault(b) || ChargeFault(b) || BatteryFault(b) || NtcFault(b)
  {
    assert Field(b, 7, 1) == b / 128 % 2;
    assert Field(b, 6, 1) == b / 64 % 2;
    assert Field(b, 4, 2) == b / 16 % 4;
    assert Field(b, 3, 1) == b / 8 % 2;
    assert Field(b, 0, 3) == b % 8;
  }

  /** Each label followed by one space, the text `decodeFaults` accumulates. */
  function SpaceTerminated(labels: seq<string>): (s: string)
  {
    if labels == [] then "" else labels[0] + " " + SpaceTerminated(labels[1..])
  }

  /** The labels separated by single spaces. */
  function SpaceSeparated(labels: seq<string>): (s: string)
  {
    if labels == [] then ""
    else if |labels| == 1 then labels[0]
    else labels[0] + " " + SpaceSeparated(labels[1..])
  }

  /** Human-readable fault summary: "No faults" for 0, otherwise the labels of the set
      fault groups separated by spaces, followed by " fault(s)". */
  function DecodeFaults(b: Byte): (s: string)
    ensures b == 0 ==> s == NO_FAULTS
    ensures b != 0 ==> s == SpaceSeparated(FaultLabels(b)) + FAULTS_SUFFIX
  {
    if b == 0 then NO_FAULTS
    else
      var text := SpaceTerminated(FaultLabels(b));
      if |text| > 0 then
        StripLastSpace(FaultLabels(b));
        text[..|text| - 1] + FAULTS_SUFFIX
      else text
  }

  /** Dropping the final character of the space-terminated text leaves the
      space-separated text. */
  lemma {:induction false} StripLastSpace(labels: seq<string>)
    requires labels != []
    ensures var t := SpaceTerminated(labels); |t| > 0 && t[..|t| - 1] == SpaceSeparated(labels)
  {
    var t := SpaceTerminated(labels);
    if |labels| == 1 {
      assert t == labels[0] + " " + "";
    } else {
      StripLastSpace(labels[1..]);
      var rest := SpaceTerminated(labels[1..]);
      assert t == labels[0] + " " + rest;
      assert t[..|t| - 1] == labels[0] + " " + rest[..|rest| - 1];
    }
  }

  /** Name of a VBUS status code, "Invalid" outside the 3-bit range. */
  function VBusStatusLabel(code: Byte): (s: string)
    ensures (s == "Invalid") <==> code >= 8
    ensures (s == "No Input") <==> code == 0
  {
    if code == 0 then "No Input"
    else if code == 1 then "USB SDP"
    else if code == 2 then "USB CDP"
    else if code == 3 then "USB DCP"
    else if code == 4 then "Adjustable"
    else if code == 5 then "Unknown"
    else if code == 6 then "Non-Standard"
    else if code == 7 then "OTG"
    else "Invalid"
  }

  // ---------------------------------------------------------------- ADC decode

  /** Battery or system voltage: 2304 mV plus 20 mV per step of the low 7 bits. */
  function BatteryMillivolts(b: Byte): (mV: U16)
    ensures 2304 <= mV <= 4844 && (mV - 2304) % 20 == 0
    ensures (mV - 2304) / 20 == Field(b, 0, 7)
  {
    2304 + b % 128 * 20
  }

  /** Input voltage: 2600 mV plus 100 mV per step of the low 7 bits. */
  function InputMillivolts(b: Byte): (mV: U16)
    ensures 2600 <= mV <= 15300 && (mV - 2600) % 100 == 0
    ensures (mV - 2600) / 100 == Field(b, 0, 7)
  {
    2600 + b % 128 * 100
  }

  /** Charge current: 50 mA per step of the low 7 bits. */
  function ChargeMilliamps(b: Byte): (mA: I16)
    ensures 0 <= mA <= 6350 && mA % 50 == 0
    ensures mA / 50 == Field(b, 0, 7)
  {
    b % 128 * 50
  }

  /** Thermistor voltage: `5000 * (b & 0x7F) / 127`, truncated. */
  function TsMillivolts(b: Byte): (mV: U16)
    ensures 0 <= mV <= 5000
    ensures 127 * mV <= 5000 * Field(b, 0, 7) < 127 * mV + 127
  {
    5000 * (b % 128) / 127
  }
}
