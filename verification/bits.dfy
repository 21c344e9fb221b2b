/** Bit-level view of a byte, used for the driver's generic masked read-modify-write
    `(current & ~mask) | (value & mask)`. Register fields at fixed positions are
    written arithmetically elsewhere (`x % 128` for `x & 0x7F`, ...). */
module Bits {
  import opened Base

  function Pow2(n: nat): (p: nat)
    ensures p >= 1
  {
    if n == 0 then 1 else 2 * Pow2(n - 1)
  }

  /** Bit `i` of `x` (bit 0 is the least significant). */
  predicate Bit(x: int, i: nat)
    decreases i
  {
    if i == 0 then x % 2 == 1 else Bit(x / 2, i - 1)
  }

  /** The low `n` bits of `(c & ~m) | (v & m)`, built bit by bit from the least significant end. */
  function MergeBits(c: nat, m: nat, v: nat, n: nat): (r: nat)
    ensures r < Pow2(n)
    decreases n
  {
    if n == 0 then 0
    else (if m % 2 == 1 then v % 2 else c % 2) + 2 * MergeBits(c / 2, m / 2, v / 2, n - 1)
  }

  /** `(cur & ~mask) | (value & mask)` on bytes. */
  function Merge(cur: Byte, mask: Byte, value: Byte): (r: Byte)
  {
    assert Pow2(8) == 256;
    MergeBits(cur, mask, value, 8)
  }

  /** `b ^ 0x01`: the lowest bit flipped, the seven above it kept. */
  function FlipLowBit(b: Byte): (r: Byte)
    ensures r % 2 != b % 2 && r / 2 == b / 2
  {
    if b % 2 == 0 then b + 1 else b - 1
  }

  /** Every bit that `mask` selects comes from `value`, every other bit from `cur`. */
  lemma MergeSelects(cur: Byte, mask: Byte, value: Byte, i: nat)
    requires i < 8
    ensures Bit(Merge(cur, mask, value), i) == if Bit(mask, i) then Bit(value, i) else Bit(cur, i)
  {
    MergeBitsBit(cur, mask, value, 8, i);
  }

  lemma {:induction false} MergeBitsBit(c: nat, m: nat, v: nat, n: nat, i: nat)
    requires i < n
    ensures Bit(MergeBits(c, m, v, n), i) == if Bit(m, i) then Bit(v, i) else Bit(c, i)
    decreases i
  {
    var rest := MergeBits(c / 2, m / 2, v / 2, n - 1);
    var low := if m % 2 == 1 then v % 2 else c % 2;
    assert MergeBits(c, m, v, n) == low + 2 * rest;
    if i > 0 {
      assert (low + 2 * rest) / 2 == rest;
      MergeBitsBit(c / 2, m / 2, v / 2, n - 1, i - 1);
    }
  }

  /** Two numbers below 2^n with the same n low bits are equal. */
  lemma {:induction false} BitsDetermine(x: nat, y: nat, n: nat)
    requires x < Pow2(n) && y < Pow2(n)
    requires forall i :: 0 <= i < n ==> Bit(x, i) == Bit(y, i)
    ensures x == y
    decreases n
  {
    if n > 0 {
      forall i | 0 <= i < n - 1
        ensures Bit(x / 2, i) == Bit(y / 2, i)
      {
        assert Bit(x, i + 1) == Bit(y, i + 1);
      }
      BitsDetermine(x / 2, y / 2, n - 1);
      assert Bit(x, 0) == Bit(y, 0);
    }
  }

  /** The masked update leaves a byte as it was exactly when every bit the mask selects
      already has the requested value: the case in which the driver skips the write. */
  lemma MergeUnchanged(cur: Byte, mask: Byte, value: Byte)
    ensures Merge(cur, mask, value) == cur <==> MaskedBitsAgree(cur, mask, value)
  {
    if MaskedBitsAgree(cur, mask, value) {
      MergeKeeps(cur, mask, value);
    } else {
      var i :| 0 <= i < 8 && Bit(mask, i) && Bit(value, i) != Bit(cur, i);
      MergeSelects(cur, mask, value, i);
    }
  }

  /** Every bit `mask` selects has the same value in `value` and in `cur`. */
  predicate MaskedBitsAgree(cur: Byte, mask: Byte, value: Byte)
  {
    forall i :: 0 <= i < 8 && Bit(mask, i) ==> Bit(value, i) == Bit(cur, i)
  }

  lemma MergeKeeps(cur: Byte, mask: Byte, value: Byte)
    requires MaskedBitsAgree(cur, mask, value)
    ensures Merge(cur, mask, value) == cur
  {
    var r := Merge(cur, mask, value);
    forall i | 0 <= i < 8
      ensures Bit(r, i) == Bit(cur, i)
    {
      MergeSelects(cur, mask, value, i);
    }
    assert Pow2(8) == 256 by {
      assert Pow2(4) == 16;
    }
    BitsDetermine(r, cur, 8);
  }

  /** No bit of zero is set. */
  lemma {:induction false} BitZero(i: nat)
    ensures !Bit(0, i)
    decreases i
  {
    if i > 0 { BitZero(i - 1); }
  }

  /** The single-bit masks the driver uses select exactly their own bit. */
  lemma SingleBitMasks(i: nat)
    requires i < 8
    ensures Bit(0x08, i) <==> i == 3
    ensures Bit(0x10, i) <==> i == 4
    ensures Bit(0x20, i) <==> i == 5
    ensures Bit(0x40, i) <==> i == 6
    ensures Bit(0x80, i) <==> i == 7
    ensures Bit(0x30, i) <==> i == 4 || i == 5
  {
    if i == 0 {
    } else if i == 1 {
    } else if i == 2 {
    } else if i == 3 {
    } else if i == 4 {
    } else if i == 5 {
    } else if i == 6 {
    } else {
    }
  }

  /** The low `n` bits of `hi * 2^n + lo` are those of `lo`. */
  lemma {:induction false} BitOfLowPart(hi: nat, lo: nat, n: nat, i: nat)
    requires lo < Pow2(n) && i < n
    ensures Bit(hi * Pow2(n) + lo, i) == Bit(lo, i)
    decreases n
  {
    var m := hi * Pow2(n - 1);
    DoubleProduct(hi, n);
    HalveSum(m, lo);
    if i > 0 {
      BitOfLowPart(hi, lo / 2, n - 1, i - 1);
    }
  }

  lemma DoubleProduct(hi: nat, n: nat)
    requires n > 0
    ensures hi * Pow2(n) == 2 * (hi * Pow2(n - 1))
  {
  }

  lemma HalveSum(m: nat, lo: nat)
    ensures (2 * m + lo) / 2 == m + lo / 2 && (2 * m + lo) % 2 == lo % 2
  {
  }

  /** Bits `lo .. lo + width - 1` of `x`, moved down to bit 0: `(x >> lo) & (2^width - 1)`. */
  function Field(x: nat, lo: nat, width: nat): (f: nat)
    ensures f < Pow2(width)
  {
    x / Pow2(lo) % Pow2(width)
  }

  lemma {:induction false} FieldBit(x: nat, lo: nat, width: nat, i: nat)
    ensures Bit(Field(x, lo, width), i) == (i < width && Bit(x, lo + i))
    decreases lo
  {
    if lo == 0 {
      assert Field(x, 0, width) == x % Pow2(width);
      LowBit(x, width, i);
    } else {
      HalveThenDivide(x, Pow2(lo - 1));
      assert Field(x, lo, width) == Field(x / 2, lo - 1, width);
      FieldBit(x / 2, lo - 1, width, i);
    }
  }

  /** Shifting right by `k` moves bit `k + i` to bit `i`. */
  lemma {:induction false} ShiftBit(x: nat, k: nat, i: nat)
    ensures Bit(x / Pow2(k), i) == Bit(x, k + i)
    decreases k
  {
    if k > 0 {
      HalveThenDivide(x, Pow2(k - 1));
      ShiftBit(x / 2, k - 1, i);
    }
  }

  lemma HalveThenDivide(x: nat, m: nat)
    requires m >= 1
    ensures x / 2 / m == x / (2 * m)
  {
    var a := x / 2;
    var q, t := a / m, a % m;
    assert a == m * q + t;
    assert x == (2 * m) * q + (2 * t + x % 2);
    DivisionUnique(x, 2 * m, q, 2 * t + x % 2);
  }

  /** Euclidean division has one quotient: `x == d * q + r` with `0 <= r < d` fixes `q`. */
  lemma DivisionUnique(x: nat, d: nat, q: nat, r: nat)
    requires d >= 1 && r < d && x == d * q + r
    ensures x / d == q
  {
    var q', r' := x / d, x % d;
    assert x == d * q' + r';
    if q' > q {
      ProductGap(d, q', q);
      assert false;
    } else if q' < q {
      ProductGap(d, q, q');
      assert false;
    }
  }

  lemma {:induction false} ProductGap(d: nat, a: nat, b: nat)
    requires a > b
    ensures d * a >= d * b + d
    decreases a
  {
    assert d * a == d * (a - 1) + d;
    if a - 1 > b {
      ProductGap(d, a - 1, b);
    }
  }

  /** Reducing modulo `2^w` keeps exactly the bits below `w`. */
  lemma LowBit(y: nat, w: nat, i: nat)
    ensures Bit(y % Pow2(w), i) == (i < w && Bit(y, i))
  {
    var p := Pow2(w);
    DivisionIdentity(y, p);
    var hi: nat, lo: nat := y / p, y % p;
    if i < w {
      BitOfLowPart(hi, lo, w, i);
    } else {
      BitAbove(lo, w, i);
    }
  }

  lemma DivisionIdentity(y: nat, p: nat)
    requires p >= 1
    ensures 0 <= y / p && 0 <= y % p < p
    ensures y == (y / p) * p + y % p
  {
  }

  /** A number below `2^n` has no bit at position `n` or above. */
  lemma {:induction false} BitAbove(x: nat, n: nat, i: nat)
    requires x < Pow2(n) && n <= i
    ensures !Bit(x, i)
    decreases n
  {
    if n == 0 {
      BitZero(i);
    } else {
      BitAbove(x / 2, n - 1, i - 1);
    }
  }

  /** Placing `hi` above an `n`-bit `lo`: bits below `n` come from `lo`, the rest from `hi`.
      This is `(hi << n) | lo`. */
  lemma Splice(hi: nat, lo: nat, n: nat, i: nat)
    requires lo < Pow2(n)
    ensures Bit(hi * Pow2(n) + lo, i) == if i < n then Bit(lo, i) else Bit(hi, i - n)
  {
    if i < n {
      BitOfLowPart(hi, lo, n, i);
    } else {
      var x := hi * Pow2(n) + lo;
      DivisionUnique(x, Pow2(n), hi, lo);
      ShiftBit(x, n, i - n);
    }
  }
}
