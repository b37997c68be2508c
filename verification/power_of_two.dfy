/** The bit-smearing power-of-two computation that sizes the watcher table. */
module PowerOfTwo {

  const UINT32_RANGE: nat := 0x1_0000_0000

  // ---------- unsigned 32-bit arithmetic and bit operations on naturals ----------

  /** The value an `unsigned int` holds after an operation whose exact result is x. */
  function Wrap32(x: int): nat {
    x % UINT32_RANGE
  }

  /** x shifted right by j bits. */
  function Shr(x: nat, j: nat): nat {
    if j == 0 then x else Shr(x / 2, j - 1)
  }

  /** Bitwise or. */
  function Or(a: nat, b: nat): nat {
    if a == 0 then b
    else if b == 0 then a
    else 2 * Or(a / 2, b / 2) + if a % 2 == 1 || b % 2 == 1 then 1 else 0
  }

  function Pow2(k: nat): nat {
    if k == 0 then 1 else 2 * Pow2(k - 1)
  }

  /** The number whose m low bits are set and no others. */
  ghost function Ones(m: nat): nat {
    if m == 0 then 0 else 2 * Ones(m - 1) + 1
  }

  ghost predicate IsPow2(n: nat) {
    exists k: nat :: n == Pow2(k)
  }

  /** The least power of two at or above v, found by doubling from p. */
  function DoubleUntil(p: nat, v: nat): nat
    requires p > 0
    decreases if p >= v then 0 else v - p
  {
    if p >= v then p else DoubleUntil(2 * p, v)
  }

  function SmearStep(x: nat, j: nat): nat {
    Or(x, Shr(x, j))
  }

  // ---------- shifting and or-ing all-ones numbers ----------

  lemma {:induction false} ShrShr(x: nat, i: nat, j: nat)
    ensures Shr(Shr(x, i), j) == Shr(x, i + j)
  {
    if i > 0 { ShrShr(x / 2, i - 1, j); }
  }

  lemma {:induction false} ShrOnes(m: nat, j: nat)
    requires j <= m
    ensures Shr(Ones(m), j) == Ones(m - j)
  {
    if j > 0 { ShrOnes(m - 1, j - 1); }
  }

  lemma {:induction false} ShrOr(a: nat, b: nat, j: nat)
    ensures Shr(Or(a, b), j) == Or(Shr(a, j), Shr(b, j))
  {
    if j > 0 {
      assert Or(a, b) / 2 == Or(a / 2, b / 2);
      ShrOr(a / 2, b / 2, j - 1);
    }
  }

  /** Filling the m low bits of a number whose other bits are k ones gives k + m ones. */
  lemma {:induction false} OrOnes(x: nat, k: nat, m: nat)
    requires Shr(x, m) == Ones(k)
    ensures Or(x, Ones(m)) == Ones(k + m)
  {
    if m > 0 {
      hide Or, Shr, Ones;
      ShrStep(x, m);
      OnesStep(m);
      if x == 0 {
        ShrZero(m);
        OnesStep(k);
        OrZero(Ones(m));
      } else {
        OnesStep(k + m);
        OrStep(x, Ones(m));
        OrOnes(x / 2, k, m - 1);
      }
    } else {
      OrZero(x);
    }
  }

  lemma ShrStep(x: nat, j: nat)
    requires j > 0
    ensures Shr(x, j) == Shr(x / 2, j - 1)
  {
  }

  lemma OnesStep(m: nat)
    ensures m > 0 ==> Ones(m) == 2 * Ones(m - 1) + 1 && Ones(m) / 2 == Ones(m - 1) && Ones(m) % 2 == 1
    ensures Ones(m) == 0 <==> m == 0
  {
  }

  lemma OrZero(x: nat)
    ensures Or(x, 0) == x && Or(0, x) == x
  {
  }

  lemma OrStep(a: nat, b: nat)
    requires a > 0 && b % 2 == 1
    ensures Or(a, b) == 2 * Or(a / 2, b / 2) + 1
  {
  }

  lemma {:induction false} ShrZero(j: nat)
    ensures Shr(0, j) == 0
  {
    if j > 0 { ShrZero(j - 1); }
  }

  lemma {:induction false} OnesIsPow2Less1(m: nat)
    ensures Ones(m) + 1 == Pow2(m)
  {
    if m > 0 { OnesIsPow2Less1(m - 1); }
  }

  /** One smearing step doubles the run of leading ones of an n-bit number. */
  lemma SmearDoubles(x: nat, n: nat, m: nat)
    requires 1 <= m <= n && Shr(x, n - m) == Ones(m)
    ensures 2 * m <= n ==> Shr(SmearStep(x, m), n - 2 * m) == Ones(2 * m)
    ensures 2 * m > n ==> SmearStep(x, m) == Ones(n)
  {
    hide Shr, Or, Ones;
    if 2 * m <= n {
      ShrOr(x, Shr(x, m), n - 2 * m);
      ShrShr(x, m, n - 2 * m);
      ShrShr(x, n - 2 * m, m);
      OrOnes(Shr(x, n - 2 * m), m, m);
    } else {
      ShrShr(x, n - m, 2 * m - n);
      ShrOnes(m, 2 * m - n);
      OrOnes(x, m, n - m);
    }
  }

  /** Once every bit is set, smearing changes nothing. */
  lemma {:induction false} SmearFull(n: nat, m: nat)
    ensures SmearStep(Ones(n), m) == Ones(n)
  {
    if m <= n {
      ShrOnes(n, m);
      OrFull(n, n - m);
    } else {
      ShrShr(Ones(n), n, m - n);
      ShrOnes(n, n);
      ShrZero(m - n);
    }
  }

  lemma {:induction false} OrFull(n: nat, k: nat)
    requires k <= n
    ensures Or(Ones(n), Ones(k)) == Ones(n)
  {
    if k > 0 { OrFull(n - 1, k - 1); }
  }

  /** After smearing by 1, 2, 4, .. the leading-ones run has length min(32, n), that is, all of it. */
  lemma SmearAll(x: nat, n: nat)
    requires 1 <= n <= 32 && Shr(x, n - 1) == 1
    ensures SmearStep(SmearStep(SmearStep(SmearStep(SmearStep(x, 1), 2), 4), 8), 16) == Ones(n)
  {
    hide SmearStep, Smeared, Shr, Ones;
    SmearStart(x, n);
    var a := SmearStep(x, 1);
    SmearOnce(x, n, 1);
    var b := SmearStep(a, 2);
    SmearOnce(a, n, 2);
    var c := SmearStep(b, 4);
    SmearOnce(b, n, 4);
    var d := SmearStep(c, 8);
    SmearOnce(c, n, 8);
    SmearOnce(d, n, 16);
    SmearEnd(SmearStep(d, 16), n);
  }

  lemma SmearStart(x: nat, n: nat)
    requires n >= 1 && Shr(x, n - 1) == 1
    ensures Smeared(x, n, 1)
  {
    assert Ones(1) == 1;
  }

  lemma SmearEnd(x: nat, n: nat)
    requires n <= 32 && Smeared(x, n, 32)
    ensures x == Ones(n)
  {
    hide Ones;
  }

  ghost predicate Smeared(x: nat, n: nat, m: nat) {
    if m <= n then Shr(x, n - m) == Ones(m) else x == Ones(n)
  }

  lemma SmearOnce(x: nat, n: nat, m: nat)
    requires m >= 1 && Smeared(x, n, m)
    ensures Smeared(SmearStep(x, m), n, 2 * m)
  {
    if m <= n { SmearDoubles(x, n, m); } else { SmearFull(n, m); }
  }

  /** Every positive number has a bit length n, read off by shifting. */
  lemma {:induction false} BitLength(x: nat) returns (n: nat)
    requires x > 0
    ensures n >= 1 && Shr(x, n - 1) == 1 && Pow2(n - 1) <= x < Pow2(n)
  {
    if x == 1 {
      n := 1;
      assert Pow2(1) == 2;
    } else {
      var k := BitLength(x / 2);
      n := k + 1;
    }
  }

  lemma {:induction false} Pow2Monotonic(i: nat, j: nat)
    requires i <= j
    ensures 1 <= Pow2(i) <= Pow2(j) && (i < j ==> 2 * Pow2(i) <= Pow2(j))
  {
    if i < j { Pow2Monotonic(i, j - 1); } else if i > 0 { Pow2Monotonic(i - 1, i - 1); }
  }

  lemma {:induction false} DoubleUntilPow2(i: nat, k: nat, v: nat)
    requires i <= k && v <= Pow2(k) && (k > 0 ==> Pow2(k - 1) < v)
    ensures Pow2(i) > 0 && DoubleUntil(Pow2(i), v) == Pow2(k)
    decreases k - i
  {
    Pow2Monotonic(i, k);
    if i < k {
      Pow2Monotonic(i, k - 1);
      DoubleUntilPow2(i + 1, k, v);
    }
  }

  // ---------- main results ----------

  lemma Pow2Of31()
    ensures Pow2(31) == 0x8000_0000 && Pow2(32) == UINT32_RANGE
  {
    assert Pow2(8) == 256;
    assert Pow2(16) == 65536;
    assert Pow2(24) == 0x100_0000;
  }

  lemma SmearZero(m: nat)
    ensures SmearStep(0, m) == 0
  {
    ShrZero(m);
  }

  lemma SmearZeroAll()
    ensures SmearStep(SmearStep(SmearStep(SmearStep(SmearStep(0, 1), 2), 4), 8), 16) == 0
  {
    SmearZero(1); SmearZero(2); SmearZero(4); SmearZero(8); SmearZero(16);
  }

  lemma WrappedPow2IsLeast(val: nat, n: nat)
    requires val < UINT32_RANGE && n >= 1
    requires Pow2(n - 1) <= Wrap32(val - 1) < Pow2(n)
    ensures n <= 32
    ensures 1 <= val <= 0x8000_0000 ==> Wrap32(Pow2(n)) == DoubleUntil(1, val)
    ensures !(1 <= val <= 0x8000_0000) ==> Wrap32(Pow2(n)) == 0
  {
    Pow2Of31();
    if n > 32 { Pow2Monotonic(32, n - 1); }
    if n <= 31 {
      Pow2Monotonic(n, 31);
      DoubleUntilPow2(0, n, val);
    }
  }

  /** The wrapped result of the computation: a power of two, or zero. */
  ghost function PowerOrZero(val: nat): nat {
    if 1 <= val <= 0x8000_0000 then DoubleUntil(1, val) else 0
  }

  /** Smearing finds the least power of two at or above val exactly on 1 .. 2^31;
      everywhere else the result wraps to zero. */
  method NextPowerOfTwo(v: nat) returns (val: nat)
    requires v < UINT32_RANGE
    ensures val == PowerOrZero(v)
  {
    val := Wrap32(v - 1);
    ghost var n := 0;
    if val != 0 {
      n := BitLength(val);
      WrappedPow2IsLeast(v, n);
      SmearAll(val, n);
      OnesIsPow2Less1(n);
    } else {
      SmearZeroAll();
    }
    val := Or(val, Shr(val, 1));
    val := Or(val, Shr(val, 2));
    val := Or(val, Shr(val, 4));
    val := Or(val, Shr(val, 8));
    val := Or(val, Shr(val, 16));
    assert val == Ones(n);
    val := Wrap32(val + 1);
  }

  /** The doubling reference really is the least power of two at or above v. */
  lemma {:induction false} DoubleUntilLeast(v: nat)
    ensures IsPow2(DoubleUntil(1, v)) && v <= DoubleUntil(1, v)
    ensures forall k: nat :: v <= Pow2(k) ==> DoubleUntil(1, v) <= Pow2(k)
  {
    if v <= 1 {
      assert Pow2(0) == 1;
      forall k: nat ensures 1 <= Pow2(k) { Pow2Monotonic(0, k); }
    } else {
      var n := BitLength(v - 1);
      DoubleUntilPow2(0, n, v);
      forall k: nat | v <= Pow2(k) ensures Pow2(n) <= Pow2(k) {
        if k < n { Pow2Monotonic(k, n - 1); } else { Pow2Monotonic(n, k); }
      }
    }
  }

  // ---------- the size of the watcher table ----------

  const INT_MAX: nat := 0x7fff_ffff

  /** `next_power_of_two(len + 2) - 2` in unsigned arithmetic. */
  ghost function TableSize(len: nat): nat {
    Wrap32(PowerOrZero(Wrap32(len + 2)) - 2)
  }

  /** The intended size: two entries short of a power of two, and room for len watchers. */
  ghost function IntendedTableSize(len: nat): (size: nat)
    ensures size >= len && IsPow2(size + 2)
  {
    DoubleUntilLeast(len + 2);
    DoubleUntil(1, len + 2) - 2
  }

  /** The widening is right for exactly the descriptors up to 2^31 - 3. The assertion that guards
      it admits one more, for which the table would get 2^32 - 2 entries in a block of none. */
  lemma TableSizeExact(fd: nat)
    requires fd < INT_MAX
    ensures Wrap32(TableSize(fd + 1) + 2) == TableSize(fd + 1) + 2 <==> fd <= 0x7fff_fffd
    ensures fd <= 0x7fff_fffd ==> TableSize(fd + 1) == IntendedTableSize(fd + 1) <= INT_MAX
    ensures fd == 0x7fff_fffe ==> TableSize(fd + 1) == 0xffff_fffe && Wrap32(TableSize(fd + 1) + 2) == 0
  {
    DoubleUntilLeast(fd + 3);
    Pow2Of31();
  }

  const SIZE32 := 0x1_0000_0000
  const SIZE64 := 0x1_0000_0000_0000_0000

  /** `(nwatchers + 2) * sizeof(loop->watchers[0])`: a sum in unsigned arithmetic, a product in the arithmetic of
      sizes, whose range is `sizes`. */
  ghost function BlockBytes(len: nat, pointer: nat, sizes: nat): int
    requires sizes > 0
  {
    Wrap32(TableSize(len) + 2) * pointer % sizes
  }

  /** The block holds the table and its two trailing entries exactly for the descriptors up to 2^31 - 3 where
      pointers and sizes have 8 bytes, and up to 2^29 - 3 where they have 4. */
  lemma BlockBytesExact(fd: nat)
    requires fd < INT_MAX
    ensures BlockBytes(fd + 1, 8, SIZE64) == (TableSize(fd + 1) + 2) * 8 <==> fd <= 0x7fff_fffd
    ensures BlockBytes(fd + 1, 4, SIZE32) == (TableSize(fd + 1) + 2) * 4 <==> fd <= 0x1fff_fffd
  {
    TableSizeExact(fd);
    if fd <= 0x7fff_fffd {
      BelowPow2(fd + 3);
    }
  }

  /** The least power of two at or above v is below 2^30 exactly when v is at most 2^29. */
  lemma BelowPow2(v: nat)
    ensures DoubleUntil(1, v) < 0x4000_0000 <==> v <= 0x2000_0000
  {
    DoubleUntilLeast(v);
    Pow2Of29();
    var n := DoubleUntil(1, v);
    var k: nat :| n == Pow2(k);
    if v <= Pow2(29) {
      assert n <= Pow2(29);
    } else if k <= 29 {
      Pow2Monotonic(k, 29);
    } else {
      Pow2Monotonic(30, k);
    }
  }

  lemma Pow2Of29()
    ensures Pow2(29) == 0x2000_0000 && Pow2(30) == 0x4000_0000
  {
    Pow2Of31();
    assert Pow2(31) == 2 * Pow2(30);
    assert Pow2(30) == 2 * Pow2(29);
  }
}
