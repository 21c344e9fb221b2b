/** What the retrying register access of the driver does to the device: how many
    transport calls it makes, when it succeeds, which registers it changes, and how it
    consumes injected failures. */
module Transport {
  import opened Base
  import opened Bits
  import opened Registers
  import opened Mock
  import opened Session

  /** `n` copies of `x`. */
  function Repeat<T>(x: T, n: nat): (r: seq<T>)
    ensures |r| == n
    ensures forall i :: 0 <= i < n ==> r[i] == x
  {
    if n == 0 then [] else [x] + Repeat(x, n - 1)
  }

  /** A device is attached and no failure is armed on it. */
  predicate NoInjectedFailures(s: DriverState)
  {
    s.device.Some? && PendingWriteFailures(s.device.value) == 0 && PendingReadFailures(s.device.value) == 0
  }

  /** `t` holds `value` in `reg` and agrees with `s` on every other register. */
  predicate Written(s: DriverState, t: DriverState, reg: Byte, value: Byte)
  {
    Reg(t, reg) == value && forall k :: k != reg ==> Reg(t, k) == Reg(s, k)
  }

  /** `t` agrees with `s` on every register outside `touched`. */
  predicate Agree(s: DriverState, t: DriverState, touched: set<Byte>)
  {
    forall k :: k !in touched ==> Reg(t, k) == Reg(s, k)
  }

  /** Frames compose: two steps touch at most the union of what each touches. */
  lemma AgreeChain(s: DriverState, m: DriverState, t: DriverState, a: set<Byte>, b: set<Byte>)
    requires Agree(s, m, a) && Agree(m, t, b)
    ensures Agree(s, t, a + b)
  {
  }

  /** Every register of `t` reads as in `s`. */
  predicate SameRegisters(s: DriverState, t: DriverState)
  {
    forall k :: Reg(t, k) == Reg(s, k)
  }

  /** `n` write attempts succeed exactly when fewer than `n` failures are armed; each
      attempt is one two-byte transfer, the first success stores the value, and each
      failed attempt consumes one armed failure. */
  lemma {:induction false} WriteAttemptsOutcome(b: Bus, reg: Byte, value: Byte, n: int)
    ensures var (b', ok) := WriteAttempts(b, reg, value, n);
      var p := PendingWriteFailures(b);
      var tries := if n > 0 then n else 0;
      && (ok <==> p < n)
      && b'.transfers == b.transfers + Repeat(WriteTransfer([reg, value]), if ok then p + 1 else tries)
      && b'.regs == (if ok then Store(b.regs, reg, value) else b.regs)
      && PendingWriteFailures(b') == (if ok then 0 else p - tries)
      && PendingReadFailures(b') == PendingReadFailures(b)
    decreases n
  {
    if n > 0 {
      var t := WriteTransfer([reg, value]);
      var (b1, ok1) := BusWrite(b, [reg, value]);
      if !ok1 {
        WriteAttemptsOutcome(b1, reg, value, n - 1);
        var (b', ok) := WriteAttempts(b1, reg, value, n - 1);
        var k := if ok then PendingWriteFailures(b1) + 1 else n - 1;
        assert b'.transfers == b.transfers + [t] + Repeat(t, k);
        assert [t] + Repeat(t, k) == Repeat(t, k + 1);
        assert b.transfers + [t] + Repeat(t, k) == b.transfers + ([t] + Repeat(t, k));
      } else {
        assert Repeat(t, 1) == [t];
      }
    }
  }

  /** `n` read attempts succeed exactly when fewer than `n` failures are armed; the value
      is the register's, reading the fault register clears it, and each failed attempt
      consumes one armed failure. */
  lemma {:induction false} ReadAttemptsOutcome(b: Bus, reg: Byte, n: int)
    ensures var (b', v) := ReadAttempts(b, reg, n);
      var p := PendingReadFailures(b);
      var tries := if n > 0 then n else 0;
      && (v.Some? <==> p < n)
      && (v.Some? ==> v.value == Get(b.regs, reg))
      && b'.transfers == b.transfers + Repeat(ReadTransfer([reg], 1), if v.Some? then p + 1 else tries)
      && b'.regs == (if v.Some? && reg == REG0C_FAULT then b.regs[REG0C_FAULT := 0] else b.regs)
      && PendingReadFailures(b') == (if v.Some? then 0 else p - tries)
      && PendingWriteFailures(b') == PendingWriteFailures(b)
    decreases n
  {
    if n > 0 {
      var t := ReadTransfer([reg], 1);
      var (b1, v1) := BusRead(b, [reg], 1);
      if v1.None? {
        ReadAttemptsOutcome(b1, reg, n - 1);
        var (b', v) := ReadAttempts(b1, reg, n - 1);
        var k := if v.Some? then PendingReadFailures(b1) + 1 else n - 1;
        assert b'.transfers == b.transfers + [t] + Repeat(t, k);
        assert [t] + Repeat(t, k) == Repeat(t, k + 1);
        assert b.transfers + [t] + Repeat(t, k) == b.transfers + ([t] + Repeat(t, k));
      } else {
        assert Repeat(t, 1) == [t];
      }
    }
  }

  /** `writeRegisterWithRetry` on the driver: without a device it fails with the
      device error; with one it succeeds exactly when fewer than `maxRetries` write
      failures are armed, stores the value on success and records the write error on
      failure. */
  lemma WriteWithRetryOutcome(s: DriverState, reg: Byte, value: Byte, maxRetries: int)
    ensures var (t, ok) := WriteWithRetry(s, reg, value, maxRetries);
      && (s.device.None? ==> t == s.(lastError := DEVICE_NOT_AVAILABLE) && !ok)
      && (s.device.Some? ==>
            && (ok <==> PendingWriteFailures(s.device.value) < maxRetries)
            && BusOf(t).regs == (if ok then Store(BusOf(s).regs, reg, value) else BusOf(s).regs)
            && t.lastError == (if ok then s.lastError else WRITE_FAILED)
            && PendingReadFailures(BusOf(t)) == PendingReadFailures(BusOf(s))
            && PendingWriteFailures(BusOf(t))
                 == (if ok then 0 else PendingWriteFailures(BusOf(s)) - (if maxRetries > 0 then maxRetries else 0)))
  {
    if s.device.Some? {
      WriteAttemptsOutcome(s.device.value, reg, value, maxRetries);
    }
  }

  /** `readRegisterWithRetry` on the driver: without a device it fails with the device
      error; with one it succeeds exactly when fewer than `maxRetries` read failures are
      armed, returns the register's value, and records the read error on failure. */
  lemma ReadWithRetryOutcome(s: DriverState, reg: Byte, maxRetries: int)
    ensures var (t, v) := ReadWithRetry(s, reg, maxRetries);
      && (s.device.None? ==> t == s.(lastError := DEVICE_NOT_AVAILABLE) && v.None?)
      && (s.device.Some? ==>
            && (v.Some? <==> PendingReadFailures(s.device.value) < maxRetries)
            && (v.Some? ==> v.value == Reg(s, reg))
            && BusOf(t).regs == (if v.Some? && reg == REG0C_FAULT then BusOf(s).regs[REG0C_FAULT := 0] else BusOf(s).regs)
            && t.lastError == (if v.Some? then s.lastError else READ_FAILED)
            && PendingWriteFailures(BusOf(t)) == PendingWriteFailures(BusOf(s))
            && PendingReadFailures(BusOf(t))
                 == (if v.Some? then 0 else PendingReadFailures(BusOf(s)) - (if maxRetries > 0 then maxRetries else 0)))
  {
    if s.device.Some? {
      ReadAttemptsOutcome(s.device.value, reg, maxRetries);
    }
  }

  /** A retried write to an ordinary register of a device without armed failures
      succeeds, stores exactly that register and keeps the last error. */
  lemma HealthyWrite(s: DriverState, reg: Byte, value: Byte, maxRetries: int)
    requires NoInjectedFailures(s) && maxRetries > 0 && reg != REG14_RESET
    ensures var (t, ok) := WriteWithRetry(s, reg, value, maxRetries);
      ok && NoInjectedFailures(t) && Written(s, t, reg, value) && t.lastError == s.lastError
  {
    WriteWithRetryOutcome(s, reg, value, maxRetries);
  }

  /** A retried read of a device without armed failures returns the register's value,
      changes no register other than clearing the fault register, and keeps the last error. */
  lemma HealthyRead(s: DriverState, reg: Byte, maxRetries: int)
    requires NoInjectedFailures(s) && maxRetries > 0
    ensures var (t, v) := ReadWithRetry(s, reg, maxRetries);
      && v == Some(Reg(s, reg)) && NoInjectedFailures(t) && t.lastError == s.lastError
      && (reg != REG0C_FAULT ==> SameRegisters(s, t))
      && (reg == REG0C_FAULT ==> Written(s, t, REG0C_FAULT, 0))
  {
    ReadWithRetryOutcome(s, reg, maxRetries);
  }

  /** `updateRegisterBits` on an ordinary register: it succeeds exactly when one of the two
      reads gets through and the merged value either equals the old one or one of the two
      writes gets through; on success the register holds the masked bits of `value` and
      its other bits, and no other register changes. */
  lemma UpdateRegisterBitsOutcome(s: DriverState, reg: Byte, mask: Byte, value: Byte)
    requires s.device.Some? && reg != REG0C_FAULT && reg != REG14_RESET
    ensures var (t, ok) := UpdateRegisterBits(s, reg, mask, value);
      var merged := Merge(Reg(s, reg), mask, value);
      && (ok <==> PendingReadFailures(BusOf(s)) < 2 && (merged == Reg(s, reg) || PendingWriteFailures(BusOf(s)) < 2))
      && Reg(t, reg) == (if ok then merged else Reg(s, reg))
      && (forall k :: k != reg ==> Reg(t, k) == Reg(s, k))
      && (PendingReadFailures(BusOf(s)) >= 2 ==> t.lastError == UPDATE_READ_FAILED)
      && (NoInjectedFailures(s) ==> ok && NoInjectedFailures(t) && t.lastError == s.lastError)
      && (PendingReadFailures(BusOf(s)) == 0 ==> PendingReadFailures(BusOf(t)) == 0)
      && (ok && merged == Reg(s, reg) ==> PendingWriteFailures(BusOf(t)) == PendingWriteFailures(BusOf(s)))
  {
    ReadWithRetryOutcome(s, reg, 2);
    var (s1, cur) := ReadWithRetry(s, reg, 2);
    if cur.Some? && Merge(cur.value, mask, value) != cur.value {
      WriteWithRetryOutcome(s1, reg, Merge(cur.value, mask, value), 2);
    }
  }

  /** `updateRegisterBits` on an ordinary register of a device without armed failures
      succeeds and stores the merged value in that register only. */
  lemma HealthyUpdate(s: DriverState, reg: Byte, mask: Byte, value: Byte)
    requires NoInjectedFailures(s) && reg != REG0C_FAULT && reg != REG14_RESET
    ensures var (t, ok) := UpdateRegisterBits(s, reg, mask, value);
      && ok && NoInjectedFailures(t) && t.lastError == s.lastError
      && Written(s, t, reg, Merge(Reg(s, reg), mask, value))
  {
    UpdateRegisterBitsOutcome(s, reg, mask, value);
  }
}
