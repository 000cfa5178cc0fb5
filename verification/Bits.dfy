/** Exclusive or and shifts of machine words, on the integers that hold them. */
module Bits {
  import opened Machine

  function Pow2(n: nat): (r: nat)
    ensures r > 0
  {
    if n == 0 then 1 else 2 * Pow2(n - 1)
  }

  /** Exclusive or of the low `n` bits. */
  function XorBits(a: nat, b: nat, n: nat): nat {
    if n == 0 then 0
    else (if a % 2 == b % 2 then 0 else 1) + 2 * XorBits(a / 2, b / 2, n - 1)
  }

  lemma {:induction false} XorBitsBound(a: nat, b: nat, n: nat)
    ensures XorBits(a, b, n) < Pow2(n)
  {
    if n != 0 {
      XorBitsBound(a / 2, b / 2, n - 1);
    }
  }

  lemma {:induction false} XorBitsCancels(a: nat, b: nat, n: nat)
    requires a < Pow2(n) && b < Pow2(n)
    ensures XorBits(XorBits(a, b, n), b, n) == a
    ensures XorBits(XorBits(a, b, n), a, n) == b
  {
    if n != 0 {
      var x := XorBits(a, b, n);
      assert x / 2 == XorBits(a / 2, b / 2, n - 1);
      assert x % 2 == if a % 2 == b % 2 then 0 else 1;
      XorBitsCancels(a / 2, b / 2, n - 1);
    }
  }

  /** A middle term cancels. */
  lemma {:induction false} XorBitsMiddle(a: nat, b: nat, c: nat, n: nat)
    ensures XorBits(XorBits(a, b, n), XorBits(b, c, n), n) == XorBits(a, c, n)
  {
    if n != 0 {
      var x, y := XorBits(a, b, n), XorBits(b, c, n);
      assert x / 2 == XorBits(a / 2, b / 2, n - 1) && x % 2 == if a % 2 == b % 2 then 0 else 1;
      assert y / 2 == XorBits(b / 2, c / 2, n - 1) && y % 2 == if b % 2 == c % 2 then 0 else 1;
      XorBitsMiddle(a / 2, b / 2, c / 2, n - 1);
    }
  }

  lemma {:induction false} XorBitsZero(a: nat, n: nat)
    requires a < Pow2(n)
    ensures XorBits(a, 0, n) == a
  {
    if n != 0 {
      XorBitsZero(a / 2, n - 1);
    }
  }

  lemma {:induction false} XorBitsWiden(a: nat, b: nat, n: nat)
    requires a < Pow2(n) && b < Pow2(n)
    ensures XorBits(a, b, n + 1) == XorBits(a, b, n)
  {
    if n != 0 {
      XorBitsWiden(a / 2, b / 2, n - 1);
    }
  }

  lemma HalfOfMod(a: nat, p: nat)
    requires p > 0
    ensures a % (2 * p) / 2 == a / 2 % p
    ensures a % (2 * p) % 2 == a % 2
  {
    var h, b := a / 2, a % 2;
    var q, r := h / p, h % p;
    assert h == q * p + r;
    assert q * (2 * p) == 2 * (q * p);
    ModIs(a, q, 2 * r + b, 2 * p);
  }

  lemma TwiceOfMod(a: nat, p: nat)
    requires p > 0
    ensures 2 * a % (2 * p) == 2 * (a % p)
  {
    var q, r := a / p, a % p;
    assert a == q * p + r;
    assert q * (2 * p) == 2 * (q * p);
    ModIs(2 * a, q, 2 * r, 2 * p);
  }

  lemma MultipleIsFar(d: int, m: nat)
    ensures d > 0 ==> d * m >= m
    ensures d < 0 ==> d * m + m <= 0
  {
  }

  lemma ModIs(a: nat, q: nat, r: nat, m: nat)
    requires a == q * m + r && r < m
    ensures a % m == r
  {
    var d := a / m - q;
    assert a == a / m * m + a % m;
    assert d * m == r - a % m;
    MultipleIsFar(d, m);
  }

  lemma {:induction false} XorBitsLow(a: nat, b: nat, n: nat)
    ensures XorBits(a, b, n + 1) % Pow2(n) == XorBits(a % Pow2(n), b % Pow2(n), n)
  {
    if n != 0 {
      var p := Pow2(n - 1);
      HalfOfMod(a, p);
      HalfOfMod(b, p);
      HalfOfMod(XorBits(a, b, n + 1), p);
      assert XorBits(a, b, n + 1) / 2 == XorBits(a / 2, b / 2, n);
      XorBitsLow(a / 2, b / 2, n - 1);
    }
  }

  // -------------------------------------------------------------------------
  // Words of 64 bits
  // -------------------------------------------------------------------------

  lemma {:induction false} Pow2Sum(m: nat, n: nat)
    ensures Pow2(m + n) == Pow2(m) * Pow2(n)
  {
    if m != 0 {
      Pow2Sum(m - 1, n);
    }
  }

  lemma Pow2Of64()
    ensures Pow2(8) == 0x100 && Pow2(64) == TWO_TO_64
  {
    assert Pow2(4) == 16;
    Pow2Sum(4, 4);
    Pow2Sum(8, 8);
    Pow2Sum(16, 16);
    Pow2Sum(32, 32);
  }

  function Xor(a: u64, b: u64): u64 {
    XorBitsBound(a, b, 64);
    Pow2Of64();
    XorBits(a, b, 64)
  }

  /** One place up, the top bit lost, or one place down, the bottom bit lost. */
  function Shift(up: bool, x: u64): u64 {
    if up then 2 * x % TWO_TO_64 else x / 2
  }

  /** `x << k` or `x >> k`. */
  function Shifted(up: bool, k: nat, x: u64): u64 {
    if k == 0 then x else Shift(up, Shifted(up, k - 1, x))
  }

  lemma {:induction false} ShiftedIsArithmetic(k: nat, x: u64)
    ensures Shifted(true, k, x) == x * Pow2(k) % TWO_TO_64
    ensures Shifted(false, k, x) == x / Pow2(k)
  {
    if k != 0 {
      ShiftedIsArithmetic(k - 1, x);
      DoubleOfMod(x, Pow2(k - 1), TWO_TO_64);
      HalfOfQuotient(x, Pow2(k - 1));
    }
  }

  lemma DoubleOfMod(x: nat, p: nat, m: nat)
    requires m > 0
    ensures 2 * (x * p % m) % m == x * (2 * p) % m
  {
    var y := x * p;
    assert x * (2 * p) == 2 * y;
    var q, r := y / m, y % m;
    var s, t := 2 * r / m, 2 * r % m;
    assert 2 * y == 2 * (q * m) + s * m + t;
    assert 2 * (q * m) + s * m == (2 * q + s) * m;
    ModIs(2 * y, 2 * q + s, t, m);
  }

  lemma HalfOfQuotient(x: nat, p: nat)
    requires p > 0
    ensures x / p / 2 == x / (2 * p)
  {
    var q, r := x / p, x % p;
    var h, b := q / 2, q % 2;
    assert q * p == 2 * h * p + b * p;
    assert h * (2 * p) == 2 * h * p;
    assert b * p + r < 2 * p by { assert b == 0 || b == 1; }
    DivIs(x, h, b * p + r, 2 * p);
  }

  lemma DivIs(a: nat, q: nat, r: nat, m: nat)
    requires a == q * m + r && r < m
    ensures a / m == q
  {
    ModIs(a, q, r, m);
    assert (a / m - q) * m == 0;
  }

  lemma XorBitsHalved(a: nat, b: nat, n: nat)
    requires a < Pow2(n + 1) && b < Pow2(n + 1)
    ensures XorBits(a, b, n + 1) / 2 == XorBits(a / 2, b / 2, n + 1)
  {
    XorBitsWiden(a / 2, b / 2, n);
  }

  lemma XorBitsDoubled(a: nat, b: nat, n: nat)
    ensures 2 * XorBits(a, b, n + 1) % Pow2(n + 1) == XorBits(2 * a % Pow2(n + 1), 2 * b % Pow2(n + 1), n + 1)
  {
    TwiceOfMod(a, Pow2(n));
    TwiceOfMod(b, Pow2(n));
    TwiceOfMod(XorBits(a, b, n + 1), Pow2(n));
    XorBitsLow(a, b, n);
    XorBitsEven(a % Pow2(n), b % Pow2(n), n);
  }

  lemma XorBitsEven(a: nat, b: nat, n: nat)
    ensures XorBits(2 * a, 2 * b, n + 1) == 2 * XorBits(a, b, n)
  {
    assert 2 * a / 2 == a && 2 * b / 2 == b;
    assert 2 * a % 2 == 0 && 2 * b % 2 == 0;
  }

  lemma ShiftXor(up: bool, a: u64, b: u64)
    ensures Shift(up, Xor(a, b)) == Xor(Shift(up, a), Shift(up, b))
  {
    Pow2Of64();
    if up {
      XorBitsDoubled(a, b, 63);
    } else {
      XorBitsHalved(a, b, 63);
    }
  }

  lemma {:induction false} ShiftedXor(up: bool, k: nat, a: u64, b: u64)
    ensures Shifted(up, k, Xor(a, b)) == Xor(Shifted(up, k, a), Shifted(up, k, b))
  {
    if k != 0 {
      ShiftedXor(up, k - 1, a, b);
      ShiftXor(up, Shifted(up, k - 1, a), Shifted(up, k - 1, b));
    }
  }

  lemma {:induction false} ShiftedSum(up: bool, j: nat, k: nat, x: u64)
    ensures Shifted(up, j + k, x) == Shifted(up, j, Shifted(up, k, x))
  {
    if j != 0 {
      ShiftedSum(up, j - 1, k, x);
    }
  }

  /** Nothing survives a shift by the whole width. */
  lemma ShiftedOut(up: bool, k: nat, x: u64)
    requires k >= 64
    ensures Shifted(up, k, x) == 0
  {
    Pow2Of64();
    ShiftedIsArithmetic(64, x);
    ModIs(x * TWO_TO_64, x, 0, TWO_TO_64);
    ShiftedZero(up, k - 64);
    ShiftedSum(up, k - 64, 64, x);
  }

  lemma {:induction false} ShiftedZero(up: bool, k: nat)
    ensures Shifted(up, k, 0) == 0
  {
    if k != 0 {
      ShiftedZero(up, k - 1);
    }
  }
}
