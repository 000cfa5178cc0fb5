/** The engine's random source: xorshift64, a fair roll, and request ids. */
module Rng {
  import opened Wrappers
  import opened Machine
  import opened Bits
  import opened Codec

  // -------------------------------------------------------------------------
  // The generator
  // -------------------------------------------------------------------------

  /** `x ^ (x << places)` or `x ^ (x >> places)`. */
  datatype Fold = Fold(up: bool, places: nat)

  function Folded(f: Fold, x: u64): u64 {
    Xor(x, Shifted(f.up, f.places, x))
  }

  function Folds(f: Fold, n: nat, x: u64): u64 {
    if n == 0 then x else Folded(f, Folds(f, n - 1, x))
  }

  function Doubled(f: Fold): Fold {
    Fold(f.up, f.places + f.places)
  }

  /** The two middle terms cancel: folding twice is folding by twice as much. */
  lemma FoldedTwice(f: Fold, x: u64)
    ensures Folded(f, Folded(f, x)) == Folded(Doubled(f), x)
  {
    var s := Shifted(f.up, f.places, x);
    var t := Shifted(f.up, f.places, s);
    ShiftedXor(f.up, f.places, x, s);
    ShiftedSum(f.up, f.places, f.places, x);
    XorBitsMiddle(x, s, t, 64);
  }

  lemma {:induction false} FoldsTwice(f: Fold, n: nat, x: u64)
    ensures Folds(f, n + n, x) == Folds(Doubled(f), n, x)
  {
    if n != 0 {
      FoldsTwice(f, n - 1, x);
      FoldedTwice(f, Folds(f, n - 1 + n - 1, x));
      assert Folds(f, n + n, x) == Folded(f, Folds(f, n + n - 1, x));
    }
  }

  /** Folding often enough comes back round. */
  lemma {:induction false} FoldsComeRound(f: Fold, j: nat, x: u64)
    requires Pow2(j) * f.places >= 64
    ensures Folds(f, Pow2(j), x) == x
    decreases j
  {
    if j == 0 {
      ShiftedOut(f.up, f.places, x);
      Pow2Of64();
      XorBitsZero(x, 64);
      assert Folds(f, 1, x) == Folded(f, x);
    } else {
      FoldsTwice(f, Pow2(j - 1), x);
      assert Pow2(j - 1) * (f.places + f.places) == 2 * Pow2(j - 1) * f.places;
      FoldsComeRound(Doubled(f), j - 1, x);
    }
  }

  lemma {:induction false} FoldsFirst(f: Fold, n: nat, x: u64)
    ensures Folds(f, n + 1, x) == Folds(f, n, Folded(f, x))
  {
    if n != 0 {
      FoldsFirst(f, n - 1, x);
    } else {
      assert Folds(f, 1, x) == Folded(f, x);
    }
  }

  /** The way back is the rest of the way round. */
  function Unfolded(f: Fold, x: u64): u64 {
    Folds(f, 63, x)
  }

  /** Whatever the direction and distance, folding loses nothing. */
  lemma FoldIsABijection(f: Fold, x: u64)
    requires f.places > 0
    ensures Unfolded(f, Folded(f, x)) == x && Folded(f, Unfolded(f, x)) == x
  {
    assert Pow2(6) == 64 by { assert Pow2(3) == 8; }
    FoldsComeRound(f, 6, x);
    FoldsFirst(f, 63, x);
  }

  const FIRST := Fold(true, 13)
  const SECOND := Fold(false, 7)
  const THIRD := Fold(true, 17)

  /** One draw's three shifts. */
  function Step(x: u64): u64 {
    Folded(THIRD, Folded(SECOND, Folded(FIRST, x)))
  }

  function StepBack(x: u64): u64 {
    Unfolded(FIRST, Unfolded(SECOND, Unfolded(THIRD, x)))
  }

  lemma ZeroStays()
    ensures Step(0) == 0
  {
    ShiftedZero(true, 13);
    ShiftedZero(false, 7);
    ShiftedZero(true, 17);
    XorBitsZero(0, 64);
  }

  /** Every state has exactly one predecessor, and zero's is zero. */
  lemma StepIsABijection(x: u64)
    ensures StepBack(Step(x)) == x && Step(StepBack(x)) == x
    ensures Step(x) == 0 <==> x == 0
  {
    StepUndone(x);
    StepUndone(0);
    ZeroStays();
    FoldIsABijection(THIRD, x);
    FoldIsABijection(SECOND, Unfolded(THIRD, x));
    FoldIsABijection(FIRST, Unfolded(SECOND, Unfolded(THIRD, x)));
  }

  lemma StepUndone(x: u64)
    ensures StepBack(Step(x)) == x
  {
    FoldIsABijection(FIRST, x);
    FoldIsABijection(SECOND, Folded(FIRST, x));
    FoldIsABijection(THIRD, Folded(SECOND, Folded(FIRST, x)));
  }

  lemma OnlyZeroStepsToZero(x: u64)
    requires x != 0
    ensures Step(x) != 0
  {
    StepIsABijection(x);
  }

  function Steps(x: u64, n: nat): u64 {
    if n == 0 then x else Step(Steps(x, n - 1))
  }

  lemma TwoSteps(x: u64)
    ensures Steps(x, 2) == Step(Step(x))
  {
    assert Steps(x, 1) == Step(x);
  }

  /** A seeded state never sticks: no number of draws reaches zero. */
  lemma {:induction false} NeverStuck(x: u64, n: nat)
    requires x != 0
    ensures Steps(x, n) != 0
  {
    if n != 0 {
      NeverStuck(x, n - 1);
      OnlyZeroStepsToZero(Steps(x, n - 1));
    }
  }

  /** `v | 1`. */
  function WithLowBit(v: u64): u64 {
    v - v % 2 + 1
  }

  /** The seed's last step: whatever was mixed, the low bit is set. */
  function Seeded(z: u64): u64 {
    WithLowBit(Xor(z, Shifted(false, 31, z)))
  }

  /** The three shifts, in place. */
  method Advance(from: u64) returns (x: u64)
    ensures x == Step(from)
  {
    x := from;
    x := Xor(x, Shifted(true, 13, x));
    x := Xor(x, Shifted(false, 7, x));
    x := Xor(x, Shifted(true, 17, x));
  }

  class Generator {
    var state: u64
    ghost const seed: u64
    ghost var draws: nat

    ghost predicate Valid()
      reads this
    {
      seed != 0 && state == Steps(seed, draws)
    }

    constructor (z: u64)
      ensures Valid() && draws == 0
    {
      state, seed, draws := Seeded(z), Seeded(z), 0;
    }

    method NextU64() returns (x: u64)
      requires Valid()
      modifies this
      ensures Valid() && x == state == Step(old(state)) && draws == old(draws) + 1
      ensures x != 0
    {
      x := Advance(state);
      state := x;
      draws := draws + 1;
      NeverStuck(seed, draws);
    }

    /** A number below the bound; a zero bound draws nothing. */
    method Below(bound: u32) returns (r: u32)
      requires Valid()
      modifies this
      ensures Valid() && draws == old(draws) + if bound == 0 then 0 else 1
      ensures r == if bound == 0 then 0 else Roll(Step(old(state)), bound)
      ensures bound > 0 ==> r < bound
    {
      if bound == 0 {
        return 0;
      }
      var word := NextU64();
      RollIsBelow(word, bound);
      r := word * bound / TWO_TO_64;
    }

    /** Fills 32 slots with two words' digits. */
    method HexId(out: array<char>)
      requires Valid() && out.Length == 32
      modifies this, out
      ensures Valid() && draws == old(draws) + 2
      ensures out[..] == HexOf(Step(old(state))) + HexOf(state) && state == Steps(old(state), 2)
    {
      var first := NextU64();
      var second := NextU64();
      FillBoth(out, first, second);
      TwoSteps(old(state));
    }
  }

  // -------------------------------------------------------------------------
  // The roll
  // -------------------------------------------------------------------------

  /** The high half of a 128-bit product. */
  function Roll(word: u64, bound: u32): int {
    word * bound / TWO_TO_64
  }

  lemma RollIsBelow(word: u64, bound: u32)
    requires bound > 0
    ensures 0 <= Roll(word, bound) < bound
  {
    assert word * bound < TWO_TO_64 * bound;
  }

  /** The first word that rolls `w` or more: `w * 2^64 / bound`, rounded up. */
  function Threshold(w: nat, bound: nat): nat
    requires bound > 0
  {
    (w * TWO_TO_64 + bound - 1) / bound
  }

  lemma DivBelow(a: nat, d: nat, q: nat)
    requires d > 0
    ensures a / d < q <==> a < q * d
  {
    assert a == a / d * d + a % d;
    if a / d < q {
      assert (a / d + 1) * d <= q * d;
    } else {
      assert q * d <= a / d * d;
    }
  }

  /** Rolls below `w` are exactly the words below the threshold. */
  lemma RollsBelowAreAPrefix(word: u64, bound: u32, w: nat)
    requires bound > 0 && w <= bound
    ensures Roll(word, bound) < w <==> word < Threshold(w, bound)
  {
    var n, b: nat := w * TWO_TO_64, bound;
    DivBelow(word * b, TWO_TO_64, w);
    assert Roll(word, bound) < w <==> word * b < n;
    CeilAbove(word, n, b);
  }

  lemma CeilAbove(x: nat, n: nat, b: nat)
    requires b > 0
    ensures x < (n + b - 1) / b <==> x * b < n
  {
    DivBelow(n + b - 1, b, x + 1);
    assert (x + 1) * b == x * b + b;
  }

  /** How many of the first `n` words roll below `w`. */
  function Hits(n: nat, bound: u32, w: nat): nat
    requires n <= TWO_TO_64
  {
    if n == 0 then 0 else Hits(n - 1, bound, w) + if Roll(n - 1, bound) < w then 1 else 0
  }

  lemma {:induction false} HitsArePrefix(n: nat, bound: u32, w: nat)
    requires n <= TWO_TO_64 && bound > 0 && w <= bound
    ensures Hits(n, bound, w) == if n < Threshold(w, bound) then n else Threshold(w, bound)
  {
    if n != 0 {
      HitsArePrefix(n - 1, bound, w);
      RollsBelowAreAPrefix(n - 1, bound, w);
    }
  }

  lemma ThresholdInRange(w: nat, bound: u32)
    requires bound > 0 && w <= bound
    ensures Threshold(w, bound) <= TWO_TO_64
  {
    var b: nat := bound;
    assert w * TWO_TO_64 <= b * TWO_TO_64;
    DivBelow(w * TWO_TO_64 + b - 1, b, TWO_TO_64 + 1);
    assert (TWO_TO_64 + 1) * b == TWO_TO_64 * b + b;
  }

  /** Of all the words exactly ceil(w * 2^64 / bound) roll below `w`. */
  lemma RollsBelow(bound: u32, w: nat)
    requires bound > 0 && w <= bound
    ensures Hits(TWO_TO_64, bound, w) == Threshold(w, bound)
  {
    ThresholdInRange(w, bound);
    HitsArePrefix(TWO_TO_64, bound, w);
  }

  /**
   * The roll is fair to one part in 2^64: each outcome is rolled by floor or
   * ceil of 2^64 / bound of the words.
   */
  lemma RollIsFair(bound: u32, w: nat)
    requires bound > 0 && w < bound
    ensures TWO_TO_64 / bound <= Hits(TWO_TO_64, bound, w + 1) - Hits(TWO_TO_64, bound, w) <= (TWO_TO_64 + bound - 1) / bound
  {
    RollsBelow(bound, w);
    RollsBelow(bound, w + 1);
    ThresholdsApart(w * TWO_TO_64 + bound - 1, TWO_TO_64, bound);
    assert (w + 1) * TWO_TO_64 + bound - 1 == (w * TWO_TO_64 + bound - 1) + TWO_TO_64;
  }

  lemma Distribute(p: nat, q: nat, b: nat)
    ensures (p + q) * b == p * b + q * b
  {
  }

  lemma Euclid(x: nat, b: nat) returns (q: nat, r: nat)
    requires b > 0
    ensures x == q * b + r && r < b && q == x / b
  {
    q, r := x / b, x % b;
  }

  lemma ThresholdsApart(a: nat, n: nat, b: nat)
    requires b > 0
    ensures n / b <= (a + n) / b - a / b <= (n + b - 1) / b
  {
    var pa, ra := Euclid(a, b);
    var pn, rn := Euclid(n, b);
    Distribute(pa, pn, b);
    QuotientOfSum(a + n, pa + pn, ra + rn, b);
    QuotientOfSum(n + b - 1, pn, rn + b - 1, b);
  }

  lemma QuotientOfSum(x: nat, q: nat, r: nat, b: nat)
    requires b > 0 && x == q * b + r && r < 2 * b
    ensures x / b == if r < b then q else q + 1
  {
    DivBelow(x, b, q);
    DivBelow(x, b, q + 1);
    DivBelow(x, b, q + 2);
    assert (q + 1) * b == q * b + b && (q + 2) * b == q * b + 2 * b;
  }

  // -------------------------------------------------------------------------
  // Request ids
  // -------------------------------------------------------------------------

  const HEX := "0123456789abcdef"

  function Pow16(n: nat): (r: nat)
    ensures r > 0
  {
    if n == 0 then 1 else 16 * Pow16(n - 1)
  }

  /** Digit `k` of a word, most significant first. */
  function Nibble(word: u64, k: nat): nat
    requires k < 16
    ensures Nibble(word, k) < 16
  {
    word / Pow16(15 - k) % 16
  }

  function HexOf(word: u64): (s: string)
    ensures |s| == 16
  {
    seq(16, k requires 0 <= k < 16 => HEX[Nibble(word, k)])
  }

  method FillBoth(out: array<char>, first: u64, second: u64)
    requires out.Length == 32
    modifies out
    ensures out[..] == HexOf(first) + HexOf(second)
  {
    FillHalf(out, 0, first);
    ghost var half := out[..16];
    assert out[0..16] == half;
    FillHalf(out, 16, second);
    assert out[..16] == half;
    assert out[..] == out[..16] + out[16..32];
  }

  method FillHalf(out: array<char>, at: nat, word: u64)
    requires at + 16 <= out.Length
    modifies out
    ensures out[at..at + 16] == HexOf(word)
    ensures out[..at] == old(out[..at]) && out[at + 16..] == old(out[at + 16..])
  {
    for nibble := 0 to 16
      invariant forall k :: 0 <= k < nibble ==> out[at + k] == HexOf(word)[k]
      invariant out[..at] == old(out[..at]) && out[at + 16..] == old(out[at + 16..])
    {
      out[at + nibble] := HEX[Nibble(word, nibble)];
    }
  }

  function DigitOf(c: char): nat {
    if '0' <= c <= '9' then c as int - '0' as int else if 'a' <= c <= 'f' then c as int - 'a' as int + 10 else 0
  }

  function HexValue(s: string): nat {
    if s == "" then 0 else HexValue(s[..|s| - 1]) * 16 + DigitOf(s[|s| - 1])
  }

  lemma DigitReadsBack(d: nat)
    requires d < 16
    ensures DigitOf(HEX[d]) == d && (IsPlainHex(HEX[d]))
  {
  }

  predicate IsPlainHex(c: char) {
    '0' <= c <= '9' || 'a' <= c <= 'f'
  }

  lemma SixteenTimes(q: nat, d: nat, p: nat)
    requires d < 16
    ensures (q * 16 + d) * p == q * (16 * p) + d * p && d * p <= 15 * p
  {
    Distribute(q * 16, d, p);
    assert q * 16 * p == q * (16 * p);
    assert d * p + (15 - d) * p == 15 * p;
  }

  lemma DivTwice(x: nat, p: nat)
    requires p > 0
    ensures x / (16 * p) == x / p / 16
  {
    var y, r := Euclid(x, p);
    var q, d := Euclid(y, 16);
    SixteenTimes(q, d, p);
    QuotientOfSum(x, q, d * p + r, 16 * p);
  }

  lemma {:induction false} DigitsReadBack(word: u64, k: nat)
    requires k <= 16
    ensures HexValue(HexOf(word)[..k]) == word / Pow16(16 - k)
  {
    if k == 0 {
      WordFits(word);
    } else {
      DigitsReadBack(word, k - 1);
      var s := HexOf(word);
      assert s[..k][..k - 1] == s[..k - 1];
      DigitReadsBack(Nibble(word, k - 1));
      assert Pow16(17 - k) == 16 * Pow16(16 - k);
      DivTwice(word, Pow16(16 - k));
    }
  }

  lemma WordFits(word: u64)
    ensures word / Pow16(16) == 0
  {
    assert Pow16(4) == 0x1_0000 && Pow16(8) == 0x1_0000_0000;
    assert Pow16(12) == 0x1_0000_0000_0000;
    assert Pow16(16) == TWO_TO_64;
  }

  /** An id is 32 lower-case hex digits holding both words, and a header value as it stands. */
  lemma IdHoldsBothWords(first: u64, second: u64)
    ensures var id := HexOf(first) + HexOf(second);
            && |id| == 32 && GoodValue(id) && (forall c :: c in id ==> IsPlainHex(c))
            && HexValue(id[..16]) == first && HexValue(id[16..]) == second
  {
    var id := HexOf(first) + HexOf(second);
    DigitsReadBack(first, 16);
    DigitsReadBack(second, 16);
    assert HexOf(first)[..16] == HexOf(first) == id[..16];
    assert HexOf(second)[..16] == HexOf(second) == id[16..];
    forall i | 0 <= i < 32 ensures IsPlainHex(id[i]) && IsValueChar(id[i]) && !IsOws(id[i]) {
      DigitReadsBack(if i < 16 then Nibble(first, i) else Nibble(second, i - 16));
    }
  }
}
