/** The string operations the source leans on: searching, trimming, decimals. */
module TextOps {
  import opened Wrappers

  /** Index of the first `c`, or `|s|`. */
  function FirstIndex(c: char, s: string): (i: nat)
    ensures i <= |s|
    ensures forall j :: 0 <= j < i ==> s[j] != c
    ensures i < |s| ==> s[i] == c
  {
    if s == "" || s[0] == c then 0 else 1 + FirstIndex(c, s[1..])
  }

  /** One past the last `c`, or 0. */
  function LastIndexEnd(c: char, s: string): (i: nat)
    ensures i <= |s|
    ensures forall j :: i <= j < |s| ==> s[j] != c
    ensures i > 0 ==> s[i - 1] == c
  {
    if s == "" then 0
    else if s[|s| - 1] == c then |s|
    else LastIndexEnd(c, s[..|s| - 1])
  }

  function SplitOnce(c: char, s: string): Option<(string, string)> {
    var i := FirstIndex(c, s);
    if i == |s| then None else Some((s[..i], s[i + 1..]))
  }

  function RSplitOnce(c: char, s: string): Option<(string, string)> {
    var i := LastIndexEnd(c, s);
    if i == 0 then None else Some((s[..i - 1], s[i..]))
  }

  /** The first separator is where two halves met, when the left half has none. */
  lemma SplitOnceOfJoin(c: char, a: string, b: string)
    requires c !in a
    ensures SplitOnce(c, a + [c] + b) == Some((a, b))
  {
    var s := a + [c] + b;
    var i := FirstIndex(c, s);
    assert s[|a|] == c;
    assert forall j :: 0 <= j < |a| ==> s[j] == a[j] && s[j] in a;
    assert i == |a|;
    assert s[..i] == a && s[i + 1..] == b;
  }

  lemma RSplitOnceOfJoin(c: char, a: string, b: string)
    requires c !in b
    ensures RSplitOnce(c, a + [c] + b) == Some((a, b))
  {
    var s := a + [c] + b;
    var i := LastIndexEnd(c, s);
    assert s[|a|] == c;
    assert forall j :: |a| < j < |s| ==> s[j] == b[j - |a| - 1] && s[j] in b;
    assert i == |a| + 1;
    assert s[..i - 1] == a && s[i..] == b;
  }

  lemma SplitOnceJoins(c: char, s: string)
    requires SplitOnce(c, s).Some?
    ensures var p := SplitOnce(c, s).value; s == p.0 + [c] + p.1 && c !in p.0
  {
    var i := FirstIndex(c, s);
    assert s == s[..i] + [s[i]] + s[i + 1..];
  }

  lemma RSplitOnceJoins(c: char, s: string)
    requires RSplitOnce(c, s).Some?
    ensures var p := RSplitOnce(c, s).value; s == p.0 + [c] + p.1 && c !in p.1
  {
    var i := LastIndexEnd(c, s);
    assert s == s[..i - 1] + [s[i - 1]] + s[i..];
  }

  // -------------------------------------------------------------------------
  // Decimals
  // -------------------------------------------------------------------------

  predicate IsDigit(c: char) {
    '0' <= c <= '9'
  }

  predicate AllDigits(s: string) {
    forall i :: 0 <= i < |s| ==> IsDigit(s[i])
  }

  function DigitChar(d: nat): (c: char)
    requires d < 10
    ensures IsDigit(c) && c as int - '0' as int == d
  {
    (d + '0' as int) as char
  }

  function Decimal(n: nat): (s: string)
    ensures s != "" && AllDigits(s)
    ensures n > 0 ==> s[0] != '0'
    ensures n == 0 ==> s == "0"
  {
    if n < 10 then [DigitChar(n)] else Decimal(n / 10) + [DigitChar(n % 10)]
  }

  function DigitsValue(s: string): nat
    requires AllDigits(s)
  {
    if s == "" then 0
    else DigitsValue(s[..|s| - 1]) * 10 + (s[|s| - 1] as int - '0' as int)
  }

  /** Written the way a number prints: no leading zero but for "0" itself. */
  predicate Canonical(s: string) {
    s != "" && AllDigits(s) && (s[0] == '0' ==> s == "0")
  }

  lemma {:induction false} DecimalReadsBack(n: nat)
    ensures DigitsValue(Decimal(n)) == n
  {
    if n >= 10 {
      DecimalReadsBack(n / 10);
      var s := Decimal(n);
      assert s[..|s| - 1] == Decimal(n / 10);
    } else {
      var s := Decimal(n);
      assert s[..0] == "";
    }
  }

  lemma {:induction false} LeadingDigitPositive(s: string)
    requires s != "" && AllDigits(s) && s[0] != '0'
    ensures DigitsValue(s) > 0
  {
    if |s| > 1 {
      LeadingDigitPositive(s[..|s| - 1]);
    }
  }

  /** A digit string prints back exactly when it is already canonical. */
  lemma {:induction false} PrintsBack(s: string)
    requires s != "" && AllDigits(s)
    ensures Decimal(DigitsValue(s)) == s <==> Canonical(s)
  {
    if Canonical(s) {
      CanonicalPrintsBack(s);
    } else {
      var n := DigitsValue(s);
      assert s[0] == '0' && s != "0";
      assert n > 0 ==> Decimal(n)[0] != '0';
    }
  }

  lemma {:induction false} CanonicalPrintsBack(s: string)
    requires Canonical(s)
    ensures Decimal(DigitsValue(s)) == s
  {
    var n, last := |s| - 1, s[|s| - 1];
    assert s == s[..n] + [last];
    if n == 0 {
      assert s[..n] == "";
    } else {
      var front := s[..n];
      assert front[0] == s[0] && s[0] != '0';
      CanonicalPrintsBack(front);
      LeadingDigitPositive(front);
      var d := last as int - '0' as int;
      assert DigitsValue(s) == DigitsValue(front) * 10 + d;
      assert DigitChar(d) == last;
    }
  }

  // -------------------------------------------------------------------------
  // Whitespace and case
  // -------------------------------------------------------------------------

  /** Unicode White_Space, which is what `str::trim` removes. */
  predicate IsWhitespace(c: char) {
    var v := c as int;
    || 9 <= v <= 13 || v == 0x20 || v == 0x85 || v == 0xA0 || v == 0x1680
    || 0x2000 <= v <= 0x200A || v == 0x2028 || v == 0x2029 || v == 0x202F
    || v == 0x205F || v == 0x3000
  }

  function TrimStart(s: string): string {
    if s != "" && IsWhitespace(s[0]) then TrimStart(s[1..]) else s
  }

  function TrimEnd(s: string): string {
    if s != "" && IsWhitespace(s[|s| - 1]) then TrimEnd(s[..|s| - 1]) else s
  }

  function Trim(s: string): string {
    TrimEnd(TrimStart(s))
  }

  function TrimEndDots(s: string): string {
    if s != "" && s[|s| - 1] == '.' then TrimEndDots(s[..|s| - 1]) else s
  }

  function LowerChar(c: char): char {
    if 'A' <= c <= 'Z' then (c as int + 32) as char else c
  }

  function Lower(s: string): (r: string)
    ensures |r| == |s|
    ensures forall i :: 0 <= i < |s| ==> r[i] == LowerChar(s[i])
  {
    seq(|s|, i requires 0 <= i < |s| => LowerChar(s[i]))
  }
}
