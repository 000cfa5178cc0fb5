/** The promotion annotations: the ladder of weights, and how it is spelled. */
module Annotations {
  import opened Wrappers
  import opened Machine
  import opened Ordering
  import opened TextOps

  const STATUS_ROLLED_BACK := "rolled-back"
  const STATUS_PROMOTED := "promoted"

  /** `str::parse` at an unsigned type: digits, one plus sign allowed before them. */
  function ParseUnsigned(s: string, bound: nat): Option<nat> {
    var digits := if s != "" && s[0] == '+' then s[1..] else s;
    if digits != "" && AllDigits(digits) && DigitsValue(digits) < bound then Some(DigitsValue(digits)) else None
  }

  /** `str::split`: always at least one field. */
  function Split(c: char, s: string): (fields: seq<string>)
    ensures fields != []
  {
    var i := FirstIndex(c, s);
    if i == |s| then [s] else [s[..i]] + Split(c, s[i + 1..])
  }

  // -------------------------------------------------------------------------
  // Steps
  // -------------------------------------------------------------------------

  predicate IsStep(n: nat) {
    1 <= n <= 100
  }

  /** One field: nothing if blank, refused unless it is a whole number in 1..100. */
  function FieldStep(field: string): Result<Option<u32>, ()> {
    var text := Trim(field);
    if text == "" then Ok(None)
    else
      match ParseUnsigned(text, 0x1_0000_0000)
      case None => Err(())
      case Some(n) => if IsStep(n) then Ok(Some(n)) else Err(())
  }

  /** The fields' steps in the order written, unless one is refused. */
  function FieldSteps(fields: seq<string>): Option<seq<u32>> {
    if fields == [] then Some([])
    else
      match (FieldSteps(fields[..|fields| - 1]), FieldStep(fields[|fields| - 1]))
      case (Some(before), Ok(None)) => Some(before)
      case (Some(before), Ok(Some(n))) => Some(before + [n])
      case _ => None
  }

  predicate StepLe(a: u32, b: u32) {
    a <= b
  }

  predicate Ascending(steps: seq<u32>) {
    forall i, j :: 0 <= i < j < |steps| ==> steps[i] < steps[j]
  }

  lemma StepOrder()
    ensures TotalPreorder(StepLe)
    ensures forall a, b :: StepLe(a, b) && StepLe(b, a) ==> a == b
  {
  }

  function SettledSteps(written: seq<u32>): seq<u32> {
    Dedup(SortBy(StepLe, written))
  }

  function StepsOf(raw: string): Option<seq<u32>> {
    match FieldSteps(Split(',', raw))
    case None => None
    case Some(written) => if written == [] then None else Some(SettledSteps(written))
  }

  lemma {:induction false} RefusedField(fields: seq<string>, i: nat)
    requires i < |fields| && FieldStep(fields[i]).Err?
    ensures FieldSteps(fields).None?
  {
    if i < |fields| - 1 {
      RefusedField(fields[..|fields| - 1], i);
    }
  }

  lemma NextField(fields: seq<string>, i: nat, written: seq<u32>)
    requires i < |fields| && FieldSteps(fields[..i]) == Some(written)
    ensures FieldStep(fields[i]).Ok? ==>
              FieldSteps(fields[..i + 1])
              == Some(match FieldStep(fields[i]).value case None => written case Some(n) => written + [n])
  {
    assert fields[..i + 1][..i] == fields[..i];
  }

  /** Reads a list of weights, in any order and with repeats, as a ladder. */
  method ParseSteps(raw: string) returns (steps: Option<seq<u32>>)
    ensures steps == StepsOf(raw)
  {
    var fields := Split(',', raw);
    var written: seq<u32> := [];
    for i := 0 to |fields|
      invariant FieldSteps(fields[..i]) == Some(written)
    {
      NextField(fields, i, written);
      var text := Trim(fields[i]);
      if text != "" {
        match ParseUnsigned(text, 0x1_0000_0000)
        case None =>
          RefusedField(fields, i);
          return None;
        case Some(step) =>
          if step == 0 || step > 100 {
            RefusedField(fields, i);
            return None;
          }
          written := written + [step];
      }
    }
    assert fields[..|fields|] == fields;
    if written == [] {
      return None;
    }
    return Some(SettledSteps(written));
  }

  lemma {:induction false} StepsAreInRange(fields: seq<string>)
    ensures FieldSteps(fields).Some? ==>
              forall n :: n in FieldSteps(fields).value <==>
                exists f :: f in fields && FieldStep(f) == Ok(Some(n))
  {
    if fields != [] {
      var init, last := fields[..|fields| - 1], fields[|fields| - 1];
      StepsAreInRange(init);
      assert forall f :: f in fields <==> f in init || f == last;
    }
  }

  lemma SettledIsALadder(written: seq<u32>)
    requires written != []
    ensures SettledSteps(written) != [] && Ascending(SettledSteps(written))
    ensures forall n :: n in SettledSteps(written) <==> n in written
  {
    var sorted := SortBy(StepLe, written);
    StepOrder();
    SortBySorted(StepLe, written);
    SameMembers(written, sorted);
    DedupSorted(StepLe, sorted);
    var steps := Dedup(sorted);
    forall i, j | 0 <= i < j < |steps| ensures steps[i] < steps[j] {
      assert StepLe(steps[i], steps[j]) && steps[i] != steps[j];
    }
  }

  /** Parsed steps are a ladder: never empty, strictly ascending, in 1..100, and exactly those written. */
  lemma StepsAreALadder(raw: string)
    requires StepsOf(raw).Some?
    ensures StepsOf(raw).value != [] && Ascending(StepsOf(raw).value)
    ensures forall n :: n in StepsOf(raw).value ==> IsStep(n)
    ensures forall n :: n in StepsOf(raw).value <==> exists f :: f in Split(',', raw) && FieldStep(f) == Ok(Some(n))
  {
    StepsAreInRange(Split(',', raw));
    SettledIsALadder(FieldSteps(Split(',', raw)).value);
  }

  // -------------------------------------------------------------------------
  // Spelling a ladder
  // -------------------------------------------------------------------------

  /** A ladder as an operator would write it. */
  function Spelled(steps: seq<u32>): string {
    if steps == [] then ""
    else if |steps| == 1 then Decimal(steps[0])
    else Decimal(steps[0]) + "," + Spelled(steps[1..])
  }

  lemma DigitsAreOnlyDigits(n: nat)
    ensures ',' !in Decimal(n) && Trim(Decimal(n)) == Decimal(n)
    ensures n < 0x1_0000_0000 ==> ParseUnsigned(Decimal(n), 0x1_0000_0000) == Some(n)
  {
    var s := Decimal(n);
    forall i | 0 <= i < |s| ensures s[i] != ',' && !IsWhitespace(s[i]) && s[i] != '+' {
      assert IsDigit(s[i]);
    }
    DecimalReadsBack(n);
  }

  lemma DecimalIsAStep(n: u32)
    requires IsStep(n)
    ensures FieldStep(Decimal(n)) == Ok(Some(n))
  {
    DigitsAreOnlyDigits(n);
  }

  lemma SplitFirst(a: string, b: string)
    requires ',' !in a
    ensures Split(',', a + "," + b) == [a] + Split(',', b)
  {
    SplitOnceOfJoin(',', a, b);
    var s := a + [','] + b;
    var i := FirstIndex(',', s);
    assert s[..i] == a && s[i + 1..] == b;
  }

  lemma SplitNone(a: string)
    requires ',' !in a
    ensures Split(',', a) == [a]
  {
    var i := FirstIndex(',', a);
  }

  lemma {:induction false} SplitSpelled(steps: seq<u32>)
    requires steps != []
    ensures Split(',', Spelled(steps)) == MapSeq((n: u32) => Decimal(n), steps)
  {
    DigitsAreOnlyDigits(steps[0]);
    if |steps| == 1 {
      SplitNone(Decimal(steps[0]));
    } else {
      SplitSpelled(steps[1..]);
      SplitFirst(Decimal(steps[0]), Spelled(steps[1..]));
    }
  }

  lemma OneMoreField(fields: seq<string>, field: string, written: seq<u32>, n: u32)
    requires FieldSteps(fields) == Some(written) && FieldStep(field) == Ok(Some(n))
    ensures FieldSteps(fields + [field]) == Some(written + [n])
  {
    assert (fields + [field])[..|fields|] == fields;
  }

  lemma LastSpelled(steps: seq<u32>)
    requires steps != []
    ensures MapSeq((n: u32) => Decimal(n), steps)
         == MapSeq((n: u32) => Decimal(n), steps[..|steps| - 1]) + [Decimal(steps[|steps| - 1])]
  {
  }

  lemma {:induction false} SpelledFields(steps: seq<u32>)
    requires forall n :: n in steps ==> IsStep(n)
    ensures FieldSteps(MapSeq((n: u32) => Decimal(n), steps)) == Some(steps)
  {
    if steps != [] {
      var init, last := steps[..|steps| - 1], steps[|steps| - 1];
      SpelledFields(init);
      DecimalIsAStep(last);
      OneMoreField(MapSeq((n: u32) => Decimal(n), init), Decimal(last), init, last);
      LastSpelled(steps);
      assert steps == init + [last];
    }
  }

  lemma {:induction false} DedupAscending(steps: seq<u32>)
    requires Ascending(steps)
    ensures Dedup(steps) == steps
  {
    if steps != [] {
      var init, last := steps[..|steps| - 1], steps[|steps| - 1];
      assert Ascending(init);
      DedupAscending(init);
      assert init != [] ==> init[|init| - 1] == steps[|steps| - 2] < last;
      assert steps == init + [last];
    }
  }

  lemma SettledIsSettled(steps: seq<u32>)
    requires Ascending(steps)
    ensures SettledSteps(steps) == steps
  {
    StepOrder();
    SortBySorted(StepLe, steps);
    SortedUnique(StepLe, steps, SortBy(StepLe, steps));
    DedupAscending(steps);
  }

  /** A ladder survives being written out and parsed. */
  lemma SpelledReadsBack(steps: seq<u32>)
    requires steps != [] && Ascending(steps) && forall n :: n in steps ==> IsStep(n)
    ensures StepsOf(Spelled(steps)) == Some(steps)
  {
    SplitSpelled(steps);
    SpelledFields(steps);
    SettledIsSettled(steps);
  }

  // -------------------------------------------------------------------------
  // Climbing
  // -------------------------------------------------------------------------

  /** The first configured step above `weight`. */
  function NextStep(steps: seq<u32>, weight: u32): Option<u32> {
    if steps == [] then None
    else if steps[0] > weight then Some(steps[0])
    else NextStep(steps[1..], weight)
  }

  /** The rungs still above a weight. */
  function RungsAbove(steps: seq<u32>, weight: u32): nat {
    if steps == [] then 0 else (if steps[0] > weight then 1 else 0) + RungsAbove(steps[1..], weight)
  }

  /** On a ladder, the first step above is the least, and none means the top is reached. */
  lemma {:induction false} NextIsLeast(steps: seq<u32>, weight: u32)
    requires Ascending(steps)
    ensures NextStep(steps, weight).None? <==> forall s :: s in steps ==> s <= weight
    ensures NextStep(steps, weight).Some? ==>
              && NextStep(steps, weight).value in steps
              && NextStep(steps, weight).value > weight
              && forall s :: s in steps && s > weight ==> NextStep(steps, weight).value <= s
  {
    if steps != [] {
      NextIsLeast(steps[1..], weight);
      assert steps[0] in steps && forall s :: s in steps[1..] ==> steps[0] < s;
      assert forall s :: s in steps <==> s == steps[0] || s in steps[1..];
    }
  }

  lemma {:induction false} HigherHasFewer(steps: seq<u32>, a: u32, b: u32)
    requires a <= b
    ensures RungsAbove(steps, b) <= RungsAbove(steps, a)
    ensures (exists s :: s in steps && a < s <= b) ==> RungsAbove(steps, b) < RungsAbove(steps, a)
  {
    if steps != [] {
      HigherHasFewer(steps[1..], a, b);
      assert forall s :: s in steps <==> s == steps[0] || s in steps[1..];
    }
  }

  /** Each step climbed uses up a rung. */
  lemma ClimbingUsesARung(steps: seq<u32>, weight: u32)
    requires Ascending(steps) && NextStep(steps, weight).Some?
    ensures RungsAbove(steps, NextStep(steps, weight).value) < RungsAbove(steps, weight)
  {
    NextIsLeast(steps, weight);
    HigherHasFewer(steps, weight, NextStep(steps, weight).value);
  }

  predicate RolledBack(status: Option<string>) {
    status.Some? && STATUS_ROLLED_BACK <= status.value
  }

  // -------------------------------------------------------------------------
  // Intervals
  // -------------------------------------------------------------------------

  function Saturated(seconds: nat): u64 {
    if seconds < TWO_TO_64 then seconds else TWO_TO_64 - 1
  }

  /** So many of a unit; none at all is refused. */
  function InSeconds(number: Option<nat>, multiplier: nat): (seconds: Option<u64>)
    requires multiplier > 0
    ensures seconds.Some? ==> seconds.value > 0
  {
    match number
    case None => None
    case Some(n) =>
      if n == 0 then None
      else
        assert n * multiplier > 0;
        Some(Saturated(n * multiplier))
  }

  /** `30s`, `5m`, `1h` or bare seconds; never zero, and saturating. */
  function ParseDuration(raw: string): (seconds: Option<u64>)
    ensures seconds.Some? ==> seconds.value > 0
  {
    var text := Trim(raw);
    if text == "" then None
    else
      var unit := text[|text| - 1];
      var (number, multiplier: nat) :=
        if unit == 's' then (text[..|text| - 1], 1)
        else if unit == 'm' then (text[..|text| - 1], 60)
        else if unit == 'h' then (text[..|text| - 1], 3600)
        else (text, 1);
      InSeconds(ParseUnsigned(Trim(number), TWO_TO_64), multiplier)
  }

  datatype Unit = Bare | Seconds | Minutes | Hours

  function Suffix(u: Unit): string {
    match u case Bare => "" case Seconds => "s" case Minutes => "m" case Hours => "h"
  }

  function SecondsIn(u: Unit): (n: nat)
    ensures n > 0
  {
    match u case Bare => 1 case Seconds => 1 case Minutes => 60 case Hours => 3600
  }

  lemma ParsesDecimal(n: nat, bound: nat)
    ensures ParseUnsigned(Decimal(n), bound) == if n < bound then Some(n) else None
  {
    assert IsDigit(Decimal(n)[0]);
    DecimalReadsBack(n);
  }

  lemma TrimsToItself(s: string)
    requires s != "" && !IsWhitespace(s[0]) && !IsWhitespace(s[|s| - 1])
    ensures Trim(s) == s
  {
  }

  /** A number and its unit come apart at the last character. */
  lemma UnitEnds(d: string, u: Unit)
    requires d != "" && AllDigits(d)
    ensures var text := d + Suffix(u);
            && Trim(text) == text
            && (u.Bare? ==> text == d && IsDigit(text[|text| - 1]))
            && (!u.Bare? ==> text[..|text| - 1] == d && text[|text| - 1] == Suffix(u)[0])
  {
    var text := d + Suffix(u);
    assert IsDigit(d[0]) && IsDigit(d[|d| - 1]) && text[0] == d[0];
    TrimsToItself(text);
  }

  lemma UnitIsRead(d: string, u: Unit)
    requires d != "" && AllDigits(d) && Trim(d) == d
    ensures ParseDuration(d + Suffix(u)) == InSeconds(ParseUnsigned(d, TWO_TO_64), SecondsIn(u))
  {
    UnitEnds(d, u);
  }

  /** An interval written in any unit is that many seconds, the longest there is if more; zero and past 64 bits are refused. */
  lemma DurationReadsBack(n: nat, u: Unit)
    ensures ParseDuration(Decimal(n) + Suffix(u))
         == if n == 0 || n >= TWO_TO_64 then None
            else Some(Saturated(n * SecondsIn(u)))
  {
    DigitsAreOnlyDigits(n);
    ParsesDecimal(n, TWO_TO_64);
    UnitEnds(Decimal(n), u);
    UnitIsRead(Decimal(n), u);
  }

  /** Spaces around an interval do not matter. */
  lemma DurationIsTrimmed(raw: string)
    ensures ParseDuration(Trim(raw)) == ParseDuration(raw)
  {
    TrimEndEnds(TrimStart(raw));
    TrimStartStarts(raw);
    TrimmedStays(raw);
  }

  lemma {:induction false} TrimEndEnds(s: string)
    ensures TrimEnd(s) <= s && (TrimEnd(s) != "" ==> !IsWhitespace(TrimEnd(s)[|TrimEnd(s)| - 1]))
  {
    if s != "" && IsWhitespace(s[|s| - 1]) {
      TrimEndEnds(s[..|s| - 1]);
    }
  }

  lemma {:induction false} TrimStartStarts(s: string)
    ensures TrimStart(s) != "" ==> !IsWhitespace(TrimStart(s)[0])
  {
    if s != "" && IsWhitespace(s[0]) {
      TrimStartStarts(s[1..]);
    }
  }

  lemma TrimmedStays(s: string)
    ensures Trim(Trim(s)) == Trim(s)
  {
    TrimEndEnds(TrimStart(s));
    TrimStartStarts(s);
    var t := Trim(s);
    if t != "" {
      assert t[0] == TrimStart(s)[0];
      assert TrimStart(t) == t;
    }
  }
}
