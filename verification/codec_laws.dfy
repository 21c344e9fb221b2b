/** Properties of the register arithmetic that relate several calls: monotonicity of the
    setter codes, the wrap-around of the charge current code, the range of accepted
    vendor ids, the fault text, and the two places where the as-written field arithmetic
    and its corrected form part ways. */
module CodecLaws {
  import opened Base
  import opened Bits
  import opened Registers
  import opened Codec
  import opened Settings

  // ---------------------------------------------------------------- monotonicity

  /** Asking for more input current never programs a lower limit. */
  lemma InputCurrentMonotone(a: U16, b: U16)
    requires a <= b
    ensures InputCurrentCode(a) <= InputCurrentCode(b)
  {
    if 100 < a && b <= 3250 {
      DivMonotone(a - 100, b - 100, 50);
    }
  }

  /** Asking for more termination current never programs a lower threshold. */
  lemma TerminationMonotone(a: U16, b: U16)
    requires a <= b
    ensures TerminationCode(a) <= TerminationCode(b)
  {
    if 64 < a && b <= 1024 {
      DivMonotone(a - 64, b - 64, 64);
    }
  }

  /** The corrected charge voltage field never decreases as the request grows. */
  lemma ClampedChargeVoltageMonotone(a: U16, b: U16)
    requires a <= b
    ensures ClampedChargeVoltageField(a) <= ClampedChargeVoltageField(b)
  {
    if 3840 <= a && b < 4864 {
      DivMonotone(a - 3840, b - 3840, 16);
    }
  }

  /** The corrected VINDPM register never decreases as the threshold grows. */
  lemma ClampedVindpmMonotone(a: U16, b: U16)
    requires a <= b
    ensures ClampedVindpmReg(a) <= ClampedVindpmReg(b)
  {
    if 2600 <= a && b < 15400 {
      DivMonotone(a - 2600, b - 2600, 100);
    }
  }

  lemma DivMonotone(x: nat, y: nat, d: nat)
    requires x <= y && d >= 1
    ensures x / d <= y / d
  {
    if x / d > y / d {
      ProductGap(d, x / d, y / d);
      assert false;
    }
  }

  // ---------------------------------------------------------------- charge current

  /** The 7-bit mask makes the charge current code periodic: a request 8192 mA higher
      programs the same register value, so 8192 mA programs 0 mA. */
  lemma {:induction false} ChargeCurrentWraps(mA: U16)
    requires mA + 8192 < 0x1_0000
    ensures ChargeCurrentCode(mA + 8192) == ChargeCurrentCode(mA)
    ensures ChargeCurrentCode(8192) == 0
  {
    var q := mA / 64;
    DivisionUnique(mA + 8192, 64, q + 128, mA % 64);
    DivisionUnique(q + 128, 128, q / 128 + 1, q % 128);
  }

  // ---------------------------------------------------------------- charge voltage

  /** As written, a request 16 to 31 mV below the 3840 mV minimum truncates to -1, and the
      6-bit mask turns -1 into 63: the 4848 mV maximum, far above the request. */
  lemma ChargeVoltageBelowRangeWraps(mV: U16)
    requires 3809 <= mV <= 3824
    ensures ChargeVoltageField(mV) == 63
    ensures 3840 + 16 * ChargeVoltageField(mV) == 4848 > mV
  {
    assert TruncDiv(mV - 3840, 16) == -1;
  }

  /** As written, from 4864 mV up the 6-bit mask makes the field periodic: a request
      1024 mV lower programs the same field, so every such request is programmed at least
      1024 mV below itself (4864 mV programs the 3840 mV minimum). */
  lemma {:induction false} ChargeVoltageAboveRangeWraps(mV: U16)
    requires 4864 <= mV
    ensures ChargeVoltageField(mV) == ChargeVoltageField(mV - 1024)
    ensures 3840 + 16 * ChargeVoltageField(mV) <= mV - 1024
    ensures ChargeVoltageField(4864) == 0
  {
    var q := (mV - 3840) / 16;
    DivisionUnique(mV - 3840, 16, q, (mV - 3840) % 16);
    DivisionUnique(mV - 4864, 16, q - 64, (mV - 3840) % 16);
    DivisionUnique(q, 64, q / 64, q % 64);
    DivisionUnique(q - 64, 64, q / 64 - 1, q % 64);
  }

  /** The corrected field never programs more than the request, except that a request
      below the chip's 3840 mV minimum gets the minimum. */
  lemma ClampedChargeVoltageNeverAbove(mV: U16)
    ensures 3840 + 16 * ClampedChargeVoltageField(mV) <= if mV < 3840 then 3840 else mV
  {
  }

  /** Inside the register's range the as-written and the corrected field agree. */
  lemma ChargeVoltageFieldsAgreeInRange(mV: U16)
    requires 3840 <= mV < 4864
    ensures ChargeVoltageField(mV) == ClampedChargeVoltageField(mV)
  {
  }

  // ---------------------------------------------------------------- VINDPM

  /** As written, the 4-bit mask keeps only 1.5 V of the 12.7 V VINDPM range: the LED
      driver preset's 4400 mV programs 2800 mV and the portable and fast charging
      presets' 4600 mV program 3000 mV; the default 3900 mV is unaffected. */
  lemma VindpmPresetsTruncated()
    ensures VindpmReg(LedDriverPreset().vindpmThresholdMV) == 0x82
    ensures VindpmReg(PortableDevicePreset().vindpmThresholdMV) == 0x84
    ensures VindpmReg(FastChargingPreset().vindpmThresholdMV) == 0x84
    ensures VindpmReg(DefaultConfig().vindpmThresholdMV) == 0x8D
  {
  }

  /** The corrected register programs each preset's threshold exactly. */
  lemma ClampedVindpmPresets()
    ensures ClampedVindpmReg(LedDriverPreset().vindpmThresholdMV) == 0x80 + 18
    ensures ClampedVindpmReg(PortableDevicePreset().vindpmThresholdMV) == 0x80 + 20
    ensures ClampedVindpmReg(LabTestingPreset().vindpmThresholdMV) == 0x80 + 14
    ensures ClampedVindpmReg(DefaultConfig().vindpmThresholdMV) == 0x80 + 13
  {
  }

  /** As written, from 4200 mV up the 4-bit mask makes the register periodic: a threshold
      1600 mV lower programs the same value, so every such threshold is programmed at least
      1600 mV below itself. */
  lemma {:induction false} VindpmWraps(mV: U16)
    requires 4200 <= mV
    ensures VindpmReg(mV) == VindpmReg(mV - 1600)
    ensures 2600 + 100 * (VindpmReg(mV) - 0x80) <= mV - 1600
  {
    var q := (mV - 2600) / 100;
    DivisionUnique(mV - 2600, 100, q, (mV - 2600) % 100);
    DivisionUnique(mV - 4200, 100, q - 16, (mV - 2600) % 100);
    DivisionUnique(q, 16, q / 16, q % 16);
    DivisionUnique(q - 16, 16, q / 16 - 1, q % 16);
  }

  /** As written, a threshold 100 to 199 mV below the 2600 mV minimum truncates to -1, and
      the 4-bit mask turns -1 into 15: a 4100 mV threshold, far above the request. */
  lemma VindpmBelowRangeWraps(mV: U16)
    requires 2401 <= mV <= 2500
    ensures VindpmReg(mV) == 0x8F
    ensures 2600 + 100 * (VindpmReg(mV) - 0x80) == 4100 > mV
  {
    assert TruncDiv(mV - 2600, 100) == -1;
  }

  /** The corrected register never programs a threshold above the request, except that a
      request below the chip's 2600 mV minimum gets the minimum. */
  lemma ClampedVindpmNeverAbove(mV: U16)
    ensures 2600 + 100 * (ClampedVindpmReg(mV) - 0x80) <= if mV < 2600 then 2600 else mV
  {
  }

  /** Within 2600..4199 mV, where the 4-bit field suffices, the two agree. */
  lemma VindpmAgreeBelow4200(mV: U16)
    requires 2600 <= mV < 4200
    ensures VindpmReg(mV) == ClampedVindpmReg(mV)
  {
  }

  // ---------------------------------------------------------------- identity and faults

  /** The vendor check accepts exactly the part registers 8 .. 247: vendor id bits 7:3
      neither all clear nor all set. */
  lemma VendorValidRange(b: Byte)
    ensures VendorValid(b) <==> 8 <= b < 248
  {
    assert Pow2(3) == 8;
    assert Pow2(5) == 32;
    assert VendorId(b) == b / 8 % 32;
  }

  /** The eight VBUS status texts are distinct, so the text names the code. */
  lemma VBusStatusLabelsDistinct(c1: Byte, c2: Byte)
    requires c1 < 8 && c2 < 8 && c1 != c2
    ensures VBusStatusLabel(c1) != VBusStatusLabel(c2)
  {
  }

  /** The fault byte the test suite simulates is described by its two set groups. */
  lemma WatchdogBatteryFaultText()
    ensures DecodeFaults(0x88) == WATCHDOG_LABEL + " " + BATTERY_LABEL + FAULTS_SUFFIX
  {
    FaultLabelsOf0x88();
    SpaceSeparatedPair(WATCHDOG_LABEL, BATTERY_LABEL);
  }

  lemma SpaceSeparatedPair(first: string, second: string)
    ensures SpaceSeparated([first, second]) == first + " " + second
  {
    assert [first, second][1..] == [second];
  }

  lemma FaultLabelsOf0x88()
    ensures FaultLabels(0x88) == [WATCHDOG_LABEL, BATTERY_LABEL]
  {
    FaultBitsOf0x88();
    assert FaultLabels(0x88) == [WATCHDOG_LABEL] + [] + [] + [BATTERY_LABEL] + [];
  }

  lemma FaultBitsOf0x88()
    ensures WatchdogFault(0x88) && !OtgFault(0x88) && !ChargeFault(0x88)
    ensures BatteryFault(0x88) && !NtcFault(0x88)
  {
    assert Bit(0x88, 7) && !Bit(0x88, 6) && !Bit(0x88, 5) && !Bit(0x88, 4);
    assert Bit(0x88, 3) && !Bit(0x88, 2) && !Bit(0x88, 1) && !Bit(0x88, 0);
  }
}
