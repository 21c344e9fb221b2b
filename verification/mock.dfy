/** The register-file device the test suite drives the charger driver against: a map of
    register values where unset registers read as 0, reading the fault register clears
    it, a reset command re-applies the power-on defaults, and failures can be injected
    one call at a time. `Bus` is its state as a value; `MockI2CDevice` is the object. */
module Mock {
  import opened Base
  import opened Bits
  import opened Registers
  import opened Codec

  /** One transport call as the device received it. */
  datatype Transfer =
    | WriteTransfer(buffer: seq<Byte>)
    | ReadTransfer(request: seq<Byte>, readLen: nat)

  /** The device state: registers, failure injection, and the calls received so far. */
  datatype Bus = Bus(
    regs: map<Byte, Byte>,
    failNextWrite: bool,
    failNextRead: bool,
    writeFailCount: int,
    readFailCount: int,
    transfers: seq<Transfer>)

  /** A freshly constructed device: no registers set, no failures armed. */
  const EMPTY_BUS: Bus := Bus(map[], false, false, 0, 0, [])

  /** The nine registers the reset command (and test setup) restores. */
  const DEFAULT_REGISTERS: map<Byte, Byte> := map[
    REG0A_VENDOR_PART := 0x23, REG0B_SYSTEM_STATUS := 0x00, REG0C_FAULT := 0x00,
    REG03_CHARGE_CONFIG := 0x1A, REG0E_BATV := 0x50, REG0F_SYSV := 0x50,
    REG11_VBUSV := 0x1E, REG12_ICHGR := 0x00, REG10_TSPCT := 0x40]

  /** Value a register reads as: unset registers read 0. */
  function Get(regs: map<Byte, Byte>, reg: Byte): Byte
  {
    if reg in regs then regs[reg] else 0
  }

  /** The registers after re-applying the defaults: the nine defaults are set, every
      other register keeps its value. */
  function WithDefaults(regs: map<Byte, Byte>): (r: map<Byte, Byte>)
    ensures forall k :: k in DEFAULT_REGISTERS ==> Get(r, k) == DEFAULT_REGISTERS[k]
    ensures forall k :: k !in DEFAULT_REGISTERS ==> Get(r, k) == Get(regs, k)
  {
    regs + DEFAULT_REGISTERS
  }

  /** Effect of a well-formed two-byte write `[reg, value]` on the registers: writing
      REG14 with bit 7 set is the reset command, which restores the defaults and stores
      nothing else; every other write stores the value. */
  function Store(regs: map<Byte, Byte>, reg: Byte, value: Byte): (r: map<Byte, Byte>)
    ensures !(reg == REG14_RESET && Bit(value, 7)) ==>
      Get(r, reg) == value && forall k :: k != reg ==> Get(r, k) == Get(regs, k)
  {
    FieldBit(value, 7, 1, 0);
    if reg == REG14_RESET && value >= 0x80 then WithDefaults(regs)
    else regs[reg := value]
  }

  /** Number of upcoming writes that will fail: the armed count, or one for the
      single-shot flag. */
  function PendingWriteFailures(b: Bus): nat
  {
    if b.writeFailCount > 0 then b.writeFailCount else if b.failNextWrite then 1 else 0
  }

  function PendingReadFailures(b: Bus): nat
  {
    if b.readFailCount > 0 then b.readFailCount else if b.failNextRead then 1 else 0
  }

  /** `write(buffer, len)`: an injected failure consumes one count and the single-shot
      flag and fails; otherwise anything but a two-byte buffer fails; otherwise the
      register is stored. */
  function BusWrite(b: Bus, buffer: seq<Byte>): (res: (Bus, bool))
    ensures res.0.transfers == b.transfers + [WriteTransfer(buffer)]
    ensures res.0.failNextRead == b.failNextRead && res.0.readFailCount == b.readFailCount
    ensures PendingWriteFailures(b) > 0 ==>
      !res.1 && res.0.regs == b.regs && PendingWriteFailures(res.0) == PendingWriteFailures(b) - 1
    ensures PendingWriteFailures(b) == 0 ==>
      PendingWriteFailures(res.0) == 0 && (res.1 <==> |buffer| == 2)
    ensures res.1 ==> res.0.regs == Store(b.regs, buffer[0], buffer[1])
    ensures !res.1 ==> res.0.regs == b.regs
  {
    var b' := b.(transfers := b.transfers + [WriteTransfer(buffer)]);
    if b.failNextWrite || b.writeFailCount > 0 then
      (b'.(writeFailCount := if b.writeFailCount > 0 then b.writeFailCount - 1 else b.writeFailCount,
           failNextWrite := false), false)
    else if |buffer| != 2 then (b', false)
    else (b'.(regs := Store(b.regs, buffer[0], buffer[1])), true)
  }

  /** `write_then_read(request, 1, out, readLen)`: failure injection as for writes; only a
      one-byte request with a one-byte read succeeds; reading REG0C returns its value and
      clears it; other registers are not changed by a read. */
  function BusRead(b: Bus, request: seq<Byte>, readLen: nat): (res: (Bus, Option<Byte>))
    ensures res.0.transfers == b.transfers + [ReadTransfer(request, readLen)]
    ensures res.0.failNextWrite == b.failNextWrite && res.0.writeFailCount == b.writeFailCount
    ensures PendingReadFailures(b) > 0 ==>
      res.1 == None && res.0.regs == b.regs && PendingReadFailures(res.0) == PendingReadFailures(b) - 1
    ensures PendingReadFailures(b) == 0 ==>
      PendingReadFailures(res.0) == 0 && (res.1.Some? <==> |request| == 1 && readLen == 1)
    ensures res.1.Some? ==> res.1.value == Get(b.regs, request[0])
    ensures res.1.Some? && request[0] == REG0C_FAULT ==> res.0.regs == b.regs[REG0C_FAULT := 0]
    ensures !(res.1.Some? && request[0] == REG0C_FAULT) ==> res.0.regs == b.regs
  {
    var b' := b.(transfers := b.transfers + [ReadTransfer(request, readLen)]);
    if b.failNextRead || b.readFailCount > 0 then
      (b'.(readFailCount := if b.readFailCount > 0 then b.readFailCount - 1 else b.readFailCount,
           failNextRead := false), None)
    else if |request| != 1 || readLen != 1 then (b', None)
    else if request[0] == REG0C_FAULT then
      (b'.(regs := b.regs[REG0C_FAULT := 0]), Some(Get(b.regs, REG0C_FAULT)))
    else (b', Some(Get(b.regs, request[0])))
  }

  // ---------------------------------------------------------------- test helpers

  /** REG0B with the VBUS field replaced: `(cur & ~0xE0) | (type << 5)`. */
  function WithVBusType(cur: Byte, t: VBusType): (r: Byte)
    ensures StatusVBus(r) == t
    ensures r % 32 == cur % 32
  {
    cur % 32 + 32 * VBusCode(t)
  }

  /** REG0B with the charge status field replaced: `(cur & ~0x18) | (status << 3)`. */
  function WithChargeStatus(cur: Byte, c: ChargeStatus): (r: Byte)
    ensures StatusCharge(r) == c
    ensures StatusVBus(r) == StatusVBus(cur) && r % 8 == cur % 8
  {
    StatusSplice(cur / 32, ChargeCode(c), cur % 8);
    cur / 32 * 32 + 8 * ChargeCode(c) + cur % 8
  }

  /** A status byte assembled from a 3-bit VBUS field, a 2-bit charge field and three low
      bits yields those fields back. */
  lemma StatusSplice(hi: nat, mid: nat, lo: nat)
    requires hi < 8 && mid < 4 && lo < 8
    ensures var x := 32 * hi + 8 * mid + lo;
      Field(x, 3, 2) == mid && Field(x, 5, 3) == hi && x % 8 == lo
  {
    assert Pow2(2) == 4 && Pow2(3) == 8 && Pow2(5) == 32;
    var x := 32 * hi + 8 * mid + lo;
    DivisionUnique(x, 8, 4 * hi + mid, lo);
    DivisionUnique(4 * hi + mid, 4, hi, mid);
    DivisionUnique(x, 32, hi, 8 * mid + lo);
  }

  /** REG0E value for a simulated battery voltage: `(uint8_t)((mV - 2304) / 20) & 0x7F`,
      0 at or below 2304 mV. */
  function BatteryVoltageCode(mV: U16): (r: Byte)
    ensures 2304 <= mV < 4864 ==> BatteryMillivolts(r) <= mV < BatteryMillivolts(r) + 20
  {
    (if mV > 2304 then (mV - 2304) / 20 else 0) % 256 % 128
  }

  /** REG12 value for a simulated charge current: `(uint8_t)(mA / 50) & 0x7F`, 0 when negative. */
  function ChargeCurrentCodeOf(mA: I16): (r: Byte)
    ensures 0 <= mA < 6400 ==> ChargeMilliamps(r) <= mA < ChargeMilliamps(r) + 50
  {
    (if mA >= 0 then mA / 50 else 0) % 256 % 128
  }

  /** The device object of the test suite. */
  class MockI2CDevice {
    var registers: map<Byte, Byte>
    var failNextWriteFlag: bool
    var failNextReadFlag: bool
    var writeFailCount: int
    var readFailCount: int
    /** Every transport call received, in order. */
    ghost var transfers: seq<Transfer>

    ghost function State(): Bus
      reads this
    {
      Bus(registers, failNextWriteFlag, failNextReadFlag, writeFailCount, readFailCount, transfers)
    }

    constructor ()
      ensures State() == EMPTY_BUS
    {
      registers := map[];
      failNextWriteFlag, failNextReadFlag := false, false;
      writeFailCount, readFailCount := 0, 0;
      transfers := [];
    }

    method SetupDefaultRegisters()
      modifies this
      ensures State() == old(State()).(regs := WithDefaults(old(registers)))
    {
      registers := registers + DEFAULT_REGISTERS;
    }

    /** Bring-up of the transport always succeeds on this device. */
    method Begin() returns (ok: bool)
      ensures ok
    {
      ok := true;
    }

    method Write(buffer: seq<Byte>) returns (ok: bool)
      modifies this
      ensures (State(), ok) == BusWrite(old(State()), buffer)
    {
      transfers := transfers + [WriteTransfer(buffer)];
      if failNextWriteFlag || writeFailCount > 0 {
        if writeFailCount > 0 {
          writeFailCount := writeFailCount - 1;
        }
        failNextWriteFlag := false;
        return false;
      }
      if |buffer| != 2 {
        return false;
      }
      var reg, value := buffer[0], buffer[1];
      if reg == REG14_RESET && value >= 0x80 {
        SetupDefaultRegisters();
      } else {
        registers := registers[reg := value];
      }
      ok := true;
    }

    method WriteThenRead(request: seq<Byte>, readLen: nat) returns (value: Option<Byte>)
      modifies this
      ensures (State(), value) == BusRead(old(State()), request, readLen)
    {
      transfers := transfers + [ReadTransfer(request, readLen)];
      if failNextReadFlag || readFailCount > 0 {
        if readFailCount > 0 {
          readFailCount := readFailCount - 1;
        }
        failNextReadFlag := false;
        return None;
      }
      if |request| != 1 || readLen != 1 {
        return None;
      }
      var reg := request[0];
      if reg == REG0C_FAULT {
        value := Some(Get(registers, reg));
        registers := registers[reg := 0];
        return;
      }
      if reg in registers {
        return Some(registers[reg]);
      }
      value := Some(0);
    }

    method SetRegister(reg: Byte, value: Byte)
      modifies this
      ensures State() == old(State()).(regs := old(registers)[reg := value])
    {
      registers := registers[reg := value];
    }

    function GetRegister(reg: Byte): (v: Byte)
      reads this
      ensures reg !in registers ==> v == 0
      ensures reg in registers ==> v == registers[reg]
    {
      Get(registers, reg)
    }

    method SimulateVBusType(t: VBusType)
      modifies this
      ensures State() == old(State()).(regs :=
        old(registers)[REG0B_SYSTEM_STATUS := WithVBusType(Get(old(registers), REG0B_SYSTEM_STATUS), t)])
    {
      registers := registers[REG0B_SYSTEM_STATUS := WithVBusType(Get(registers, REG0B_SYSTEM_STATUS), t)];
    }

    method SimulateChargeStatus(c: ChargeStatus)
      modifies this
      ensures State() == old(State()).(regs :=
        old(registers)[REG0B_SYSTEM_STATUS := WithChargeStatus(Get(old(registers), REG0B_SYSTEM_STATUS), c)])
    {
      registers := registers[REG0B_SYSTEM_STATUS := WithChargeStatus(Get(registers, REG0B_SYSTEM_STATUS), c)];
    }

    method SimulateFault(faultBits: Byte)
      modifies this
      ensures State() == old(State()).(regs := old(registers)[REG0C_FAULT := faultBits])
    {
      registers := registers[REG0C_FAULT := faultBits];
    }

    method SimulateBatteryVoltage(mV: U16)
      modifies this
      ensures State() == old(State()).(regs := old(registers)[REG0E_BATV := BatteryVoltageCode(mV)])
    {
      registers := registers[REG0E_BATV := BatteryVoltageCode(mV)];
    }

    method SimulateChargeCurrent(mA: I16)
      modifies this
      ensures State() == old(State()).(regs := old(registers)[REG12_ICHGR := ChargeCurrentCodeOf(mA)])
    {
      registers := registers[REG12_ICHGR := ChargeCurrentCodeOf(mA)];
    }

    method FailNextWrite()
      modifies this
      ensures State() == old(State()).(failNextWrite := true)
    {
      failNextWriteFlag := true;
    }

    method FailNextRead()
      modifies this
      ensures State() == old(State()).(failNextRead := true)
    {
      failNextReadFlag := true;
    }

    method FailWrites(count: int)
      modifies this
      ensures State() == old(State()).(writeFailCount := count)
    {
      writeFailCount := count;
    }

    method FailReads(count: int)
      modifies this
      ensures State() == old(State()).(readFailCount := count)
    {
      readFailCount := count;
    }
  }
}
