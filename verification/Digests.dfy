/**
 * The content hash the rebuild loop suppresses publishes by: FNV-1a over 64
 * bits, fed with length-prefixed fields.
 */
module Digests {
  import opened Wrappers
  import opened Ordering
  import opened Machine
  import opened Bits

  const FNV_OFFSET: int := 0xcbf2_9ce4_8422_2325
  const FNV_PRIME: int := 0x0000_0100_0000_01b3
  // FNV_PRIME * FNV_PRIME_INVERSE == 1 + FNV_PRIME_CARRY * 2^64.
  const FNV_PRIME_INVERSE: int := 0xce96_5057_aff6_957b
  const FNV_PRIME_CARRY: int := 0xce_9650_590f

  // -------------------------------------------------------------------------
  // The hash
  // -------------------------------------------------------------------------

  function XorByte(a: byte, b: byte): byte {
    XorBitsBound(a, b, 8);
    Pow2Of64();
    XorBits(a, b, 8)
  }

  /** `h ^ u64::from(b)`: only the low byte of the state can change. */
  function XorLow(h: u64, b: byte): u64 {
    h - h % 256 + XorByte(h % 256, b)
  }

  function Multiply(h: u64): u64 {
    h * FNV_PRIME % TWO_TO_64
  }

  function Step(h: u64, b: byte): u64 {
    Multiply(XorLow(h, b))
  }

  function Fnv(h: u64, bytes: seq<byte>): u64
    decreases |bytes|
  {
    if |bytes| == 0 then h else Fnv(Step(h, bytes[0]), bytes[1..])
  }

  lemma XorByteCancels(a: byte, b: byte)
    ensures XorByte(XorByte(a, b), b) == a
    ensures XorByte(XorByte(a, b), a) == b
  {
    Pow2Of64();
    XorBitsCancels(a, b, 8);
  }

  lemma XorLowSelfInverse(h: u64, b: byte)
    ensures XorLow(XorLow(h, b), b) == h
  {
    XorByteCancels(h % 256, b);
    var x := XorLow(h, b);
    assert x == 256 * (h / 256) + XorByte(h % 256, b);
    assert x % 256 == XorByte(h % 256, b);
  }

  /** The inverse of multiplying by the odd prime. */
  function Divide(h: u64): u64 {
    h * FNV_PRIME_INVERSE % TWO_TO_64
  }

  lemma MultiplyThenDivide(h: u64)
    ensures Divide(Multiply(h)) == h
    ensures Multiply(Divide(h)) == h
  {
    var m, d := h * FNV_PRIME / TWO_TO_64, h * FNV_PRIME_INVERSE / TWO_TO_64;
    assert Multiply(h) == h * FNV_PRIME - m * TWO_TO_64;
    assert Divide(h) == h * FNV_PRIME_INVERSE - d * TWO_TO_64;
    ModUnique(Multiply(h) * FNV_PRIME_INVERSE, h * FNV_PRIME_CARRY - m * FNV_PRIME_INVERSE, h);
    ModUnique(Divide(h) * FNV_PRIME, h * FNV_PRIME_CARRY - d * FNV_PRIME, h);
  }

  lemma ModUnique(v: int, q: int, r: u64)
    requires v == q * TWO_TO_64 + r
    ensures v % TWO_TO_64 == r
  {
  }

  /** The state before a byte was mixed in, recovered from the state after. */
  function StepBack(h: u64, b: byte): u64 {
    XorLow(Divide(h), b)
  }

  /** For every byte, mixing it in is a bijection on the 2^64 states. */
  lemma StepIsABijection(h: u64, b: byte)
    ensures StepBack(Step(h, b), b) == h
    ensures Step(StepBack(h, b), b) == h
  {
    MultiplyThenDivide(XorLow(h, b));
    MultiplyThenDivide(h);
    XorLowSelfInverse(h, b);
    XorLowSelfInverse(Divide(h), b);
  }

  /** From one state, two different bytes lead to two different states. */
  lemma DifferentBytesDiverge(h: u64, a: byte, b: byte)
    requires a != b
    ensures Step(h, a) != Step(h, b)
  {
    MultiplyThenDivide(XorLow(h, a));
    MultiplyThenDivide(XorLow(h, b));
    XorByteCancels(h % 256, a);
    XorByteCancels(h % 256, b);
  }

  /** Two different states stay different whatever is mixed in after them. */
  lemma {:induction false} DivergenceIsPermanent(g: u64, h: u64, tail: seq<byte>)
    requires g != h
    ensures Fnv(g, tail) != Fnv(h, tail)
    decreases |tail|
  {
    if |tail| != 0 {
      StepIsABijection(g, tail[0]);
      StepIsABijection(h, tail[0]);
      DivergenceIsPermanent(Step(g, tail[0]), Step(h, tail[0]), tail[1..]);
    }
  }

  lemma {:induction false} FnvConcat(h: u64, a: seq<byte>, b: seq<byte>)
    ensures Fnv(h, a + b) == Fnv(Fnv(h, a), b)
    decreases |a|
  {
    if a == [] {
      assert a + b == b;
    } else {
      assert (a + b)[1..] == a[1..] + b;
      FnvConcat(Step(h, a[0]), a[1..], b);
    }
  }

  /**
   * A one-byte change is never invisible: no collision assumption, for every
   * starting state, prefix and suffix.
   */
  lemma OneByteChangeShows(h: u64, a: seq<byte>, b: seq<byte>, k: nat)
    requires |a| == |b| && k < |a|
    requires a[k] != b[k]
    requires forall i :: 0 <= i < |a| && i != k ==> a[i] == b[i]
    ensures Fnv(h, a) != Fnv(h, b)
  {
    var prefix, suffix := a[..k], a[k + 1..];
    assert a == prefix + ([a[k]] + suffix);
    assert b == prefix + ([b[k]] + suffix);
    FnvConcat(h, prefix, [a[k]] + suffix);
    FnvConcat(h, prefix, [b[k]] + suffix);
    var s := Fnv(h, prefix);
    assert ([a[k]] + suffix)[1..] == suffix && ([b[k]] + suffix)[1..] == suffix;
    DifferentBytesDiverge(s, a[k], b[k]);
    DivergenceIsPermanent(Step(s, a[k]), Step(s, b[k]), suffix);
  }

  // -------------------------------------------------------------------------
  // The encoding
  // -------------------------------------------------------------------------

  function LeBytes(v: nat, n: nat): (r: seq<byte>)
    ensures |r| == n
  {
    if n == 0 then [] else [v % 256] + LeBytes(v / 256, n - 1)
  }

  /** A `u64`, little-endian. */
  function WordCode(v: nat): (r: seq<byte>)
    ensures |r| == 8
  {
    LeBytes(v, 8)
  }

  /** Text, length first. */
  function TextCode(s: seq<byte>): seq<byte> {
    WordCode(|s|) + s
  }

  function OptTextCode(s: Option<seq<byte>>): seq<byte> {
    match s
    case None => [0]
    case Some(s) => [1] + TextCode(s)
  }

  lemma {:induction false} LeBytesInjective(a: nat, b: nat, n: nat)
    requires a < Pow256(n) && b < Pow256(n)
    requires LeBytes(a, n) == LeBytes(b, n)
    ensures a == b
  {
    if n != 0 {
      assert a % 256 == LeBytes(a, n)[0] && b % 256 == LeBytes(b, n)[0];
      assert LeBytes(a / 256, n - 1) == LeBytes(a, n)[1..];
      assert LeBytes(b / 256, n - 1) == LeBytes(b, n)[1..];
      LeBytesInjective(a / 256, b / 256, n - 1);
    }
  }

  function Pow256(n: nat): nat {
    if n == 0 then 1 else 256 * Pow256(n - 1)
  }

  lemma Pow256Of8()
    ensures Pow256(8) == TWO_TO_64
  {
    assert Pow256(4) == 0x1_0000_0000;
  }

  lemma SplitEqual<T>(p: seq<T>, q: seq<T>, x: seq<T>, y: seq<T>)
    requires |p| == |q|
    requires p + x == q + y
    ensures p == q && x == y
  {
    assert p == (p + x)[..|p|] && x == (p + x)[|p|..];
    assert q == (q + y)[..|q|] && y == (q + y)[|q|..];
  }

  lemma WordPrefixFree(a: u64, b: u64, x: seq<byte>, y: seq<byte>)
    requires WordCode(a) + x == WordCode(b) + y
    ensures a == b && x == y
  {
    SplitEqual(WordCode(a), WordCode(b), x, y);
    Pow256Of8();
    LeBytesInjective(a, b, 8);
  }

  /** A field is readable off the front of a stream: no two fields share one. */
  lemma TextPrefixFree(a: seq<byte>, b: seq<byte>, x: seq<byte>, y: seq<byte>)
    requires |a| < TWO_TO_64 && |b| < TWO_TO_64
    requires TextCode(a) + x == TextCode(b) + y
    ensures a == b && x == y
  {
    assert WordCode(|a|) + (a + x) == TextCode(a) + x;
    assert WordCode(|b|) + (b + y) == TextCode(b) + y;
    WordPrefixFree(|a|, |b|, a + x, b + y);
    SplitEqual(a, b, x, y);
  }

  predicate Fits(s: Option<seq<byte>>) {
    s.Some? ==> |s.value| < TWO_TO_64
  }

  lemma OptTagAgrees(a: Option<seq<byte>>, b: Option<seq<byte>>, x: seq<byte>, y: seq<byte>)
    requires OptTextCode(a) + x == OptTextCode(b) + y
    ensures a.None? <==> b.None?
  {
    assert (OptTextCode(a) + x)[0] == if a.None? then 0 else 1;
    assert (OptTextCode(b) + y)[0] == if b.None? then 0 else 1;
  }

  lemma SomeTextPrefixFree(a: seq<byte>, b: seq<byte>, x: seq<byte>, y: seq<byte>)
    requires |a| < TWO_TO_64 && |b| < TWO_TO_64
    requires ([1] + TextCode(a)) + x == ([1] + TextCode(b)) + y
    ensures a == b && x == y
  {
    var p, q := TextCode(a), TextCode(b);
    assert ([1] + p) + x == [1] + (p + x);
    assert ([1] + q) + y == [1] + (q + y);
    SplitEqual([1], [1], p + x, q + y);
    TextPrefixFree(a, b, x, y);
  }

  /** `None` and `Some("")` differ, and either can be read off the front. */
  lemma OptTextPrefixFree(a: Option<seq<byte>>, b: Option<seq<byte>>, x: seq<byte>, y: seq<byte>)
    requires Fits(a) && Fits(b)
    requires OptTextCode(a) + x == OptTextCode(b) + y
    ensures a == b && x == y
  {
    OptTagAgrees(a, b, x, y);
    if a.None? {
      SplitEqual([0], [0], x, y);
    } else {
      SomeTextPrefixFree(a.value, b.value, x, y);
    }
  }

  /** What one digest call mixes in, and of which shape. */
  datatype Field =
    | Tag(tag: byte)
    | Word(word: u64)
    | Text(text: seq<byte>)
    | OptText(opt: Option<seq<byte>>)
  {
    function Code(): (r: seq<byte>)
      ensures |r| > 0
    {
      match this
      case Tag(b) => [b]
      case Word(w) => WordCode(w)
      case Text(s) => TextCode(s)
      case OptText(o) => OptTextCode(o)
    }

    predicate Bounded() {
      match this
      case Text(s) => |s| < TWO_TO_64
      case OptText(o) => Fits(o)
      case _ => true
    }

    predicate SameShape(that: Field) {
      && (Tag? <==> that.Tag?)
      && (Word? <==> that.Word?)
      && (Text? <==> that.Text?)
    }
  }

  function Stream(fields: seq<Field>): seq<byte> {
    if fields == [] then [] else fields[0].Code() + Stream(fields[1..])
  }

  lemma FieldPrefixFree(a: Field, b: Field, x: seq<byte>, y: seq<byte>)
    requires a.Bounded() && b.Bounded() && a.SameShape(b)
    requires a.Code() + x == b.Code() + y
    ensures a == b && x == y
  {
    match (a, b)
    case (Tag(s), Tag(t)) =>
      SplitEqual([s], [t], x, y);
      assert [s][0] == [t][0];
    case (Word(s), Word(t)) => WordPrefixFree(s, t, x, y);
    case (Text(s), Text(t)) => TextPrefixFree(s, t, x, y);
    case (OptText(s), OptText(t)) => OptTextPrefixFree(s, t, x, y);
  }

  /** Field by field, the same digest calls. */
  ghost predicate SameShapes(a: seq<Field>, b: seq<Field>) {
    && |a| == |b|
    && forall i :: 0 <= i < |a| ==> a[i].SameShape(b[i]) && a[i].Bounded() && b[i].Bounded()
  }

  /**
   * Items written by the same calls can be told apart from their bytes alone,
   * and so can whatever follows them: a digest over them confuses contents only
   * where FNV-1a itself does.
   */
  lemma {:induction false} StreamPrefixFree(a: seq<Field>, b: seq<Field>, x: seq<byte>, y: seq<byte>)
    requires SameShapes(a, b)
    requires Stream(a) + x == Stream(b) + y
    ensures a == b && x == y
  {
    if a == [] {
      assert Stream(a) + x == x && Stream(b) + y == y;
    } else {
      var p, q := Stream(a[1..]), Stream(b[1..]);
      ConcatAssociative(a[0].Code(), p, x);
      ConcatAssociative(b[0].Code(), q, y);
      FieldPrefixFree(a[0], b[0], p + x, q + y);
      StreamPrefixFree(a[1..], b[1..], x, y);
      assert a == [a[0]] + a[1..] && b == [b[0]] + b[1..];
    }
  }

  lemma {:induction false} StreamConcat(a: seq<Field>, b: seq<Field>)
    ensures Stream(a + b) == Stream(a) + Stream(b)
  {
    if a == [] {
      assert a + b == b;
    } else {
      assert (a + b)[1..] == a[1..] + b;
      StreamConcat(a[1..], b);
    }
  }

  /** Mixing in one more field extends the stream by it. */
  lemma FnvField(h: u64, fields: seq<Field>, field: Field)
    ensures Fnv(h, Stream(fields + [field])) == Fnv(Fnv(h, Stream(fields)), field.Code())
  {
    StreamConcat(fields, [field]);
    assert [field][1..] == [];
    assert Stream([field]) == field.Code();
    FnvConcat(h, Stream(fields), field.Code());
  }

  /** Mixing in one more item's fields extends the stream by them. */
  lemma OneMoreItem(h: u64, before: seq<Field>, item: seq<Field>)
    ensures Fnv(h, Stream(before + item)) == Fnv(Fnv(h, Stream(before)), Stream(item))
  {
    StreamConcat(before, item);
    FnvConcat(h, Stream(before), Stream(item));
  }

  // -------------------------------------------------------------------------
  // Strings
  // -------------------------------------------------------------------------

  function Utf8Char(c: char): (r: seq<byte>)
    ensures 1 <= |r| <= 4
  {
    var v := c as int;
    if v < 0x80 then [v]
    else if v < 0x800 then [0xC0 + v / 64, 0x80 + v % 64]
    else if v < 0x1_0000 then [0xE0 + v / 4096, 0x80 + v / 64 % 64, 0x80 + v % 64]
    else [0xF0 + v / 262144, 0x80 + v / 4096 % 64, 0x80 + v / 64 % 64, 0x80 + v % 64]
  }

  /** `str::as_bytes`. */
  function Utf8(s: string): seq<byte> {
    if s == [] then [] else Utf8Char(s[0]) + Utf8(s[1..])
  }

  function Utf8Len(first: byte): nat {
    if first < 0x80 then 1 else if first < 0xE0 then 2 else if first < 0xF0 then 3 else 4
  }

  lemma Utf8CharLength(c: char)
    ensures |Utf8Char(c)| == Utf8Len(Utf8Char(c)[0])
  {
  }

  function Utf8Value(r: seq<byte>): int
    requires 1 <= |r| <= 4
  {
    var at := (i: nat) requires i < |r| => r[i] as int;
    if |r| == 1 then at(0)
    else if |r| == 2 then at(0) * 64 + at(1) - 0x3080
    else if |r| == 3 then at(0) * 4096 + at(1) * 64 + at(2) - 0xE_2080
    else at(0) * 262144 + at(1) * 4096 + at(2) * 64 + at(3) - 0x3C8_2080
  }

  lemma Utf8CharDecodes(c: char)
    ensures Utf8Value(Utf8Char(c)) == c as int
  {
    var v := c as int;
    assert v / 4096 == v / 64 / 64 && v / 262144 == v / 4096 / 64;
  }

  lemma Utf8CharPrefixFree(a: char, b: char, x: seq<byte>, y: seq<byte>)
    requires Utf8Char(a) + x == Utf8Char(b) + y
    ensures a == b && x == y
  {
    var p, q := Utf8Char(a), Utf8Char(b);
    assert (p + x)[0] == p[0] && (q + y)[0] == q[0];
    Utf8CharLength(a);
    Utf8CharLength(b);
    SplitEqual(p, q, x, y);
    Utf8CharDecodes(a);
    Utf8CharDecodes(b);
  }

  lemma {:induction false} Utf8Injective(a: string, b: string)
    requires Utf8(a) == Utf8(b)
    ensures a == b
  {
    if a != [] && b != [] {
      Utf8CharPrefixFree(a[0], b[0], Utf8(a[1..]), Utf8(b[1..]));
      Utf8Injective(a[1..], b[1..]);
      assert a == [a[0]] + a[1..] && b == [b[0]] + b[1..];
    }
  }

  // -------------------------------------------------------------------------
  // The hasher
  // -------------------------------------------------------------------------

  class Digest {
    var state: u64

    constructor ()
      ensures state == FNV_OFFSET
    {
      state := FNV_OFFSET;
    }

    method Bytes(bytes: seq<byte>)
      modifies `state
      ensures state == Fnv(old(state), bytes)
    {
      for i := 0 to |bytes|
        invariant state == Fnv(old(state), bytes[..i])
      {
        assert bytes[..i + 1] == bytes[..i] + [bytes[i]];
        FnvConcat(old(state), bytes[..i], [bytes[i]]);
        assert [bytes[i]][1..] == [];
        state := XorLow(state, bytes[i]);
        state := Multiply(state);
      }
      assert bytes[..|bytes|] == bytes;
    }

    /** Mixes in one field; the other methods are its cases. */
    method Mix(field: Field)
      modifies `state
      ensures state == Fnv(old(state), field.Code())
    {
      match field
      case Tag(b) => U8(b);
      case Word(w) => U64(w);
      case Text(s) => Str(s);
      case OptText(o) => OptStr(o);
    }

    method MixAll(fields: seq<Field>)
      modifies `state
      ensures state == Fnv(old(state), Stream(fields))
    {
      for i := 0 to |fields|
        invariant state == Fnv(old(state), Stream(fields[..i]))
      {
        assert fields[..i + 1] == fields[..i] + [fields[i]];
        FnvField(old(state), fields[..i], fields[i]);
        Mix(fields[i]);
      }
      assert fields[..|fields|] == fields;
    }

    method Str(s: seq<byte>)
      modifies `state
      ensures state == Fnv(old(state), TextCode(s))
    {
      FnvConcat(state, WordCode(|s|), s);
      U64(|s|);
      Bytes(s);
    }

    method U64(v: nat)
      modifies `state
      ensures state == Fnv(old(state), WordCode(v))
    {
      Bytes(WordCode(v));
    }

    method U8(v: byte)
      modifies `state
      ensures state == Fnv(old(state), [v])
    {
      Bytes([v]);
    }

    method OptStr(s: Option<seq<byte>>)
      modifies `state
      ensures state == Fnv(old(state), OptTextCode(s))
    {
      match s
      case Some(s) =>
        FnvConcat(state, [1], TextCode(s));
        U8(1);
        Str(s);
      case None =>
        U8(0);
    }

    method Finish() returns (hash: u64)
      ensures hash == state
    {
      hash := state;
    }
  }

  // -------------------------------------------------------------------------
  // Certificate handles
  // -------------------------------------------------------------------------

  function CertStream(namespace: seq<byte>, name: seq<byte>, cert: seq<byte>, key: seq<byte>): seq<byte> {
    Stream([Text(namespace), Text(name), Text(cert), Text(key)])
  }

  lemma FourTexts(h: u64, a: seq<byte>, b: seq<byte>, c: seq<byte>, d: seq<byte>)
    ensures Fnv(Fnv(Fnv(Fnv(h, TextCode(a)), TextCode(b)), TextCode(c)), TextCode(d)) == Fnv(h, CertStream(a, b, c, d))
  {
    FnvField(h, [], Text(a));
    assert [] + [Text(a)] == [Text(a)];
    FnvField(h, [Text(a)], Text(b));
    assert [Text(a)] + [Text(b)] == [Text(a), Text(b)];
    FnvField(h, [Text(a), Text(b)], Text(c));
    assert [Text(a), Text(b)] + [Text(c)] == [Text(a), Text(b), Text(c)];
    FnvField(h, [Text(a), Text(b), Text(c)], Text(d));
    assert [Text(a), Text(b), Text(c)] + [Text(d)] == [Text(a), Text(b), Text(c), Text(d)];
  }

  /** The content-derived handle of a certificate. */
  method CertHandleId(namespace: seq<byte>, name: seq<byte>, cert: seq<byte>, key: seq<byte>) returns (id: u64)
    ensures id == Fnv(FNV_OFFSET, CertStream(namespace, name, cert, key))
  {
    var d := new Digest();
    d.Str(namespace);
    d.Str(name);
    FnvConcat(d.state, WordCode(|cert|), cert);
    d.U64(|cert|);
    d.Bytes(cert);
    FnvConcat(d.state, WordCode(|key|), key);
    d.U64(|key|);
    d.Bytes(key);
    id := d.Finish();
    FourTexts(FNV_OFFSET, namespace, name, cert, key);
  }

  /** Bytes cannot move between the four parts of a handle unseen. */
  lemma CertStreamInjective(n1: seq<byte>, m1: seq<byte>, c1: seq<byte>, k1: seq<byte>,
                            n2: seq<byte>, m2: seq<byte>, c2: seq<byte>, k2: seq<byte>)
    requires forall s :: s in {n1, m1, c1, k1, n2, m2, c2, k2} ==> |s| < TWO_TO_64
    requires CertStream(n1, m1, c1, k1) == CertStream(n2, m2, c2, k2)
    ensures n1 == n2 && m1 == m2 && c1 == c2 && k1 == k2
  {
    var a := [Text(n1), Text(m1), Text(c1), Text(k1)];
    var b := [Text(n2), Text(m2), Text(c2), Text(k2)];
    assert Stream(a) + [] == Stream(b) + [];
    StreamPrefixFree(a, b, [], []);
    assert a[0] == b[0] && a[1] == b[1] && a[2] == b[2] && a[3] == b[3];
  }
}
