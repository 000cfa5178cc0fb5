/**
 * The HTTP/1.1 head parser of the engine, over whole buffers. A byte is a
 * character below 256.
 */
module Codec {
  import opened Wrappers
  import opened TextOps

  const MAX_HEAD := 16 * 1024
  const MAX_HEADERS := 64

  datatype HeaderField = HeaderField(name: string, value: string)

  datatype Version = Http10 | Http11

  datatype Head = Head(method': string, target: string, version: Version, fields: seq<HeaderField>)

  datatype CodecError = TooLarge | TooManyHeaders | Malformed(what: string) | Unsupported(what: string)

  // -------------------------------------------------------------------------
  // Characters
  // -------------------------------------------------------------------------

  predicate IsOws(c: char) {
    c == ' ' || c == '\t'
  }

  function TrimOwsStart(s: string): string {
    if s != "" && IsOws(s[0]) then TrimOwsStart(s[1..]) else s
  }

  function TrimOwsEnd(s: string): string {
    if s != "" && IsOws(s[|s| - 1]) then TrimOwsEnd(s[..|s| - 1]) else s
  }

  function TrimOws(s: string): string {
    TrimOwsEnd(TrimOwsStart(s))
  }

  predicate IsTchar(c: char) {
    || '0' <= c <= '9' || 'a' <= c <= 'z' || 'A' <= c <= 'Z'
    || c in "!#$%&'*+-.^_`|~"
  }

  predicate IsToken(s: string) {
    s != "" && forall i :: 0 <= i < |s| ==> IsTchar(s[i])
  }

  predicate IsValueChar(c: char) {
    (c as int >= 0x20 || c == '\t') && c as int != 0x7f
  }

  predicate IsTarget(s: string) {
    s != "" && forall i :: 0 <= i < |s| ==> s[i] as int > 0x20 && s[i] as int != 0x7f
  }

  /** ASCII case does not count. */
  predicate SameName(a: string, b: string) {
    Lower(a) == Lower(b)
  }

  /** Some comma-separated part of the value is the token. */
  predicate HasToken(value: string, token: string) {
    var i := FirstIndex(',', value);
    SameName(TrimOws(value[..i]), token) || (i < |value| && HasToken(value[i + 1..], token))
  }

  // -------------------------------------------------------------------------
  // Parsing
  // -------------------------------------------------------------------------

  function Find(needle: string, s: string): Option<nat>
    requires needle != ""
    ensures Find(needle, s).Some? ==> Find(needle, s).value + |needle| <= |s|
  {
    if needle <= s then Some(0)
    else if s == "" then None
    else match Find(needle, s[1..]) case None => None case Some(i) => Some(i + 1)
  }

  /** The text up to the next line end, and what follows it. */
  function SplitLine(s: string): (r: (string, string))
    ensures s != "" ==> |r.1| < |s|
  {
    match Find("\r\n", s)
    case None => (s, "")
    case Some(i) => (s[..i], s[i + 2..])
  }

  function ParseVersion(token: string): Result<Version, CodecError> {
    if token == "HTTP/1.1" then Ok(Http11)
    else if token == "HTTP/1.0" then Ok(Http10)
    else if token == "" then Err(Malformed("version missing"))
    else Err(Unsupported("http version"))
  }

  function ParseRequestLine(line: string): Result<(string, string, Version), CodecError> {
    match SplitOnce(' ', line)
    case None => Err(Malformed("request line has too few parts"))
    case Some((method', rest)) =>
      match SplitOnce(' ', rest)
      case None => Err(Malformed("request line has too few parts"))
      case Some((target, version)) =>
        if !IsToken(method') then Err(Malformed("malformed method"))
        else if target == "" then Err(Malformed("request target missing"))
        else if !IsTarget(target) then Err(Malformed("malformed request target"))
        else
          match ParseVersion(version)
          case Err(e) => Err(e)
          case Ok(v) => Ok((method', target, v))
  }

  function ParseField(line: string): Result<HeaderField, CodecError>
    requires line != ""
  {
    if IsOws(line[0]) then Err(Malformed("obsolete line folding"))
    else
      match SplitOnce(':', line)
      case None => Err(Malformed("header line has no colon"))
      case Some((name, raw)) =>
        if !IsToken(name) then Err(Malformed("malformed header name"))
        else if exists i :: 0 <= i < |raw| && !IsValueChar(raw[i]) then
          Err(Malformed("header value contains a control byte"))
        else Ok(HeaderField(name, TrimOws(raw)))
  }

  function ParseFields(block: string, so: seq<HeaderField>): Result<seq<HeaderField>, CodecError>
    decreases |block|
  {
    if block == "" then Ok(so)
    else
      var (line, rest) := SplitLine(block);
      if line == "" then ParseFields(rest, so)
      else
        match ParseField(line)
        case Err(e) => Err(e)
        case Ok(f) => if |so| == MAX_HEADERS then Err(TooManyHeaders) else ParseFields(rest, so + [f])
  }

  function Named(fields: seq<HeaderField>, name: string): seq<HeaderField> {
    if fields == [] then []
    else
      var last := fields[|fields| - 1];
      Named(fields[..|fields| - 1], name) + if SameName(last.name, name) then [last] else []
  }

  /** A start line and fields, the terminator dropped. */
  function ParseBlock(block: string): Result<Option<Head>, CodecError> {
    var (line, rest) := SplitLine(block);
    match ParseRequestLine(line)
    case Err(e) => Err(e)
    case Ok((method', target, version)) =>
      match ParseFields(rest, [])
      case Err(e) => Err(e)
      case Ok(fields) =>
        if |Named(fields, "host")| > 1 then Err(Malformed("more than one Host header"))
        else Ok(Some(Head(method', target, version, fields)))
  }

  /** The head at the front of a buffer, when it is all there. */
  function ParseRequestHead(buf: string): Result<Option<Head>, CodecError> {
    match Find("\r\n\r\n", buf)
    case None => if |buf| > MAX_HEAD then Err(TooLarge) else Ok(None)
    case Some(i) => if i + 4 > MAX_HEAD then Err(TooLarge) else ParseBlock(buf[..i])
  }

  // -------------------------------------------------------------------------
  // Lines
  // -------------------------------------------------------------------------

  function FieldLine(f: HeaderField): string {
    f.name + ": " + f.value + "\r\n"
  }

  function FieldLines(fields: seq<HeaderField>): string {
    if fields == [] then "" else FieldLine(fields[0]) + FieldLines(fields[1..])
  }

  predicate Trimmed(v: string) {
    v == "" || (!IsOws(v[0]) && !IsOws(v[|v| - 1]))
  }

  predicate GoodValue(v: string) {
    Trimmed(v) && forall i :: 0 <= i < |v| ==> IsValueChar(v[i])
  }

  predicate GoodField(f: HeaderField) {
    IsToken(f.name) && GoodValue(f.value)
  }

  ghost predicate GoodFields(fields: seq<HeaderField>) {
    forall i :: 0 <= i < |fields| ==> GoodField(fields[i])
  }

  lemma TrimmedStays(v: string)
    requires Trimmed(v)
    ensures TrimOws(v) == v && TrimOws(" " + v) == v
  {
    assert (" " + v)[1..] == v;
    assert TrimOwsStart(" " + v) == TrimOwsStart(v) == v;
  }

  lemma {:induction false} FindPast(needle: string, a: string, b: string)
    requires needle != "" && needle[0] !in a
    ensures Find(needle, a + b) == match Find(needle, b) case None => None case Some(i) => Some(|a| + i)
  {
    if a == "" {
      assert a + b == b;
    } else {
      assert (a + b)[0] == a[0] && a[0] in a;
      assert (a + b)[1..] == a[1..] + b;
      FindPast(needle, a[1..], b);
    }
  }

  /** A line without a carriage return ends at the first line end. */
  lemma SplitLineOf(a: string, b: string)
    requires '\r' !in a
    ensures SplitLine(a + "\r\n" + b) == (a, b)
  {
    assert a + "\r\n" + b == a + ("\r\n" + b);
    FindPast("\r\n", a, "\r\n" + b);
    assert "\r\n" <= "\r\n" + b;
    var s := a + "\r\n" + b;
    assert s[..|a|] == a && s[|a| + 2..] == b;
  }

  lemma SplitLineLast(a: string)
    requires '\r' !in a
    ensures SplitLine(a) == (a, "")
  {
    FindPast("\r\n", a, "");
    assert a + "" == a;
    assert Find("\r\n", "") == None;
  }

  lemma TokenHasNo(name: string, c: char)
    requires IsToken(name) && !IsTchar(c)
    ensures c !in name
  {
  }

  lemma Separators()
    ensures !IsTchar(' ') && !IsTchar('\r') && !IsTchar(':') && !IsTchar('\t')
  {
  }

  lemma FieldSplits(f: HeaderField)
    requires ':' !in f.name
    ensures SplitOnce(':', f.name + ": " + f.value) == Some((f.name, " " + f.value))
  {
    assert f.name + ": " + f.value == f.name + [':'] + (" " + f.value);
    SplitOnceOfJoin(':', f.name, " " + f.value);
  }

  lemma GoodLine(f: HeaderField)
    requires GoodField(f)
    ensures '\r' !in f.name + ": " + f.value
    ensures ParseField(f.name + ": " + f.value) == Ok(f)
  {
    Separators();
    TokenHasNo(f.name, ':');
    TokenHasNo(f.name, '\r');
    FieldSplits(f);
    TrimmedStays(f.value);
    assert (f.name + ": " + f.value)[0] == f.name[0];
    assert f.name[0] in f.name && !IsOws(f.name[0]);
  }

  // -------------------------------------------------------------------------
  // Reading back
  // -------------------------------------------------------------------------

  /** Field lines but for the last line end, which belongs to the terminator. */
  function FieldBlock(fields: seq<HeaderField>): string
    requires fields != []
  {
    if |fields| == 1 then fields[0].name + ": " + fields[0].value
    else FieldLine(fields[0]) + FieldBlock(fields[1..])
  }

  lemma {:induction false} BlockThenEnd(fields: seq<HeaderField>)
    requires fields != []
    ensures FieldLines(fields) == FieldBlock(fields) + "\r\n"
  {
    if |fields| == 1 {
      assert fields[1..] == [];
      assert FieldLines(fields) == FieldLine(fields[0]) + "";
    } else {
      BlockThenEnd(fields[1..]);
      assert FieldLine(fields[0]) + (FieldBlock(fields[1..]) + "\r\n") == FieldLine(fields[0]) + FieldBlock(fields[1..]) + "\r\n";
    }
  }

  lemma OneFieldThenMore(f: HeaderField, rest: string, so: seq<HeaderField>)
    requires GoodField(f) && |so| <= MAX_HEADERS
    ensures ParseFields(FieldLine(f) + rest, so)
         == if |so| == MAX_HEADERS then Err(TooManyHeaders) else ParseFields(rest, so + [f])
  {
    var line := f.name + ": " + f.value;
    GoodLine(f);
    SplitLineOf(line, rest);
    assert FieldLine(f) + rest == line + "\r\n" + rest;
  }

  lemma LastField(f: HeaderField, so: seq<HeaderField>)
    requires GoodField(f) && |so| <= MAX_HEADERS
    ensures ParseFields(f.name + ": " + f.value, so)
         == if |so| == MAX_HEADERS then Err(TooManyHeaders) else Ok(so + [f])
  {
    GoodLine(f);
    SplitLineLast(f.name + ": " + f.value);
  }

  /** Reading one field off the front of a block. */
  lemma BlockStep(fields: seq<HeaderField>, so: seq<HeaderField>)
    requires |fields| > 1 && GoodField(fields[0]) && |so| <= MAX_HEADERS
    ensures ParseFields(FieldBlock(fields), so)
         == if |so| == MAX_HEADERS then Err(TooManyHeaders) else ParseFields(FieldBlock(fields[1..]), so + [fields[0]])
  {
    OneFieldThenMore(fields[0], FieldBlock(fields[1..]), so);
  }

  function Limited(so: seq<HeaderField>, fields: seq<HeaderField>): Result<seq<HeaderField>, CodecError> {
    if |so| + |fields| <= MAX_HEADERS then Ok(so + fields) else Err(TooManyHeaders)
  }

  lemma LimitedStep(so: seq<HeaderField>, fields: seq<HeaderField>)
    requires fields != [] && |so| < MAX_HEADERS
    ensures Limited(so + [fields[0]], fields[1..]) == Limited(so, fields)
  {
    assert so + [fields[0]] + fields[1..] == so + fields;
  }

  /** Good fields parse back in order, up to the limit on their number. */
  lemma {:induction false} FieldsReadBack(fields: seq<HeaderField>, so: seq<HeaderField>)
    requires fields != [] && GoodFields(fields) && |so| <= MAX_HEADERS
    ensures ParseFields(FieldBlock(fields), so) == Limited(so, fields)
    decreases |fields|
  {
    if |fields| == 1 {
      LastField(fields[0], so);
      assert fields == [fields[0]];
    } else {
      BlockStep(fields, so);
      if |so| < MAX_HEADERS {
        FieldsReadBack(fields[1..], so + [fields[0]]);
        LimitedStep(so, fields);
      }
    }
  }

  lemma BlockStarts(fields: seq<HeaderField>)
    requires fields != [] && GoodFields(fields)
    ensures FieldBlock(fields) != "" && FieldBlock(fields)[0] != '\r'
  {
    assert FieldBlock(fields)[0] == fields[0].name[0];
    assert IsTchar(fields[0].name[0]);
  }

  lemma NotHere(needle: string, s: string, i: nat)
    requires needle != "" && s != "" && i < |needle| && i < |s| && s[i] != needle[i]
    ensures Find(needle, s) == match Find(needle, s[1..]) case None => None case Some(j) => Some(j + 1)
  {
    assert !(needle <= s);
  }

  lemma PastLineEnd(rest: string)
    requires rest != "" && rest[0] != '\r'
    ensures Find("\r\n\r\n", "\r\n" + rest) == match Find("\r\n\r\n", rest) case None => None case Some(i) => Some(2 + i)
  {
    var s := "\r\n" + rest;
    assert s[2] == rest[0] && s[1..] == "\n" + rest && s[1..][1..] == rest;
    NotHere("\r\n\r\n", s, 2);
    NotHere("\r\n\r\n", s[1..], 0);
  }

  /** A line end followed by something else is not the end of the head. */
  lemma NotYet(line: string, rest: string)
    requires '\r' !in line && rest != "" && rest[0] != '\r'
    ensures Find("\r\n\r\n", line + "\r\n" + rest)
         == match Find("\r\n\r\n", rest) case None => None case Some(i) => Some(|line| + 2 + i)
  {
    assert line + "\r\n" + rest == line + ("\r\n" + rest);
    FindPast("\r\n\r\n", line, "\r\n" + rest);
    PastLineEnd(rest);
  }

  lemma EndAfter(line: string)
    requires '\r' !in line
    ensures Find("\r\n\r\n", line + "\r\n\r\n") == Some(|line|)
  {
    FindPast("\r\n\r\n", line, "\r\n\r\n");
  }

  lemma JoinFour(a: string, b: string, c: string, d: string)
    ensures a + b + c + d == a + b + (c + d)
  {
  }

  lemma EndLater(line: string, rest: string, n: nat)
    requires '\r' !in line && rest != "" && rest[0] != '\r'
    requires Find("\r\n\r\n", rest + "\r\n\r\n") == Some(n)
    ensures Find("\r\n\r\n", line + "\r\n" + rest + "\r\n\r\n") == Some(|line| + 2 + n)
  {
    JoinFour(line, "\r\n", rest, "\r\n\r\n");
    NotYet(line, rest + "\r\n\r\n");
  }

  lemma {:induction false} EndFound(fields: seq<HeaderField>)
    requires fields != [] && GoodFields(fields)
    ensures Find("\r\n\r\n", FieldBlock(fields) + "\r\n\r\n") == Some(|FieldBlock(fields)|)
    decreases |fields|
  {
    var line := fields[0].name + ": " + fields[0].value;
    GoodLine(fields[0]);
    if |fields| == 1 {
      EndAfter(line);
    } else {
      EndFound(fields[1..]);
      BlockStarts(fields[1..]);
      EndLater(line, FieldBlock(fields[1..]), |FieldBlock(fields[1..])|);
    }
  }

  function RequestLine(method': string, target: string): string {
    method' + " " + target + " HTTP/1.1"
  }

  lemma RequestLineSplits(method': string, target: string)
    requires ' ' !in method' && ' ' !in target
    ensures SplitOnce(' ', RequestLine(method', target)) == Some((method', target + " HTTP/1.1"))
    ensures SplitOnce(' ', target + " HTTP/1.1") == Some((target, "HTTP/1.1"))
  {
    assert RequestLine(method', target) == method' + [' '] + (target + " HTTP/1.1");
    SplitOnceOfJoin(' ', method', target + " HTTP/1.1");
    assert target + " HTTP/1.1" == target + [' '] + "HTTP/1.1";
    SplitOnceOfJoin(' ', target, "HTTP/1.1");
  }

  lemma RequestLineIsOneLine(method': string, target: string)
    requires '\r' !in method' && '\r' !in target
    ensures '\r' !in RequestLine(method', target)
  {
  }

  lemma RequestLineReadsBack(method': string, target: string)
    requires IsToken(method') && IsTarget(target)
    ensures '\r' !in RequestLine(method', target)
    ensures ParseRequestLine(RequestLine(method', target)) == Ok((method', target, Http11))
  {
    Separators();
    TokenHasNo(method', ' ');
    TokenHasNo(method', '\r');
    RequestLineIsOneLine(method', target);
    RequestLineSplits(method', target);
  }

  function Wire(method': string, target: string, fields: seq<HeaderField>): string {
    RequestLine(method', target) + "\r\n" + FieldLines(fields) + "\r\n"
  }

  lemma WireIs(line: string, block: string, lines: string)
    requires lines == block + "\r\n"
    ensures line + "\r\n" + lines + "\r\n" == line + "\r\n" + block + "\r\n\r\n"
  {
  }

  lemma WireText(method': string, target: string, fields: seq<HeaderField>)
    requires fields != []
    ensures Wire(method', target, fields) == RequestLine(method', target) + "\r\n" + FieldBlock(fields) + "\r\n\r\n"
  {
    BlockThenEnd(fields);
    WireIs(RequestLine(method', target), FieldBlock(fields), FieldLines(fields));
  }

  lemma EndOfWire(line: string, fields: seq<HeaderField>)
    requires '\r' !in line && fields != [] && GoodFields(fields)
    ensures Find("\r\n\r\n", line + "\r\n" + FieldBlock(fields) + "\r\n\r\n") == Some(|line| + 2 + |FieldBlock(fields)|)
  {
    BlockStarts(fields);
    EndFound(fields);
    EndLater(line, FieldBlock(fields), |FieldBlock(fields)|);
  }

  lemma BlockReadsBack(method': string, target: string, fields: seq<HeaderField>)
    requires IsToken(method') && IsTarget(target)
    requires fields != [] && GoodFields(fields) && |Named(fields, "host")| <= 1
    ensures ParseBlock(RequestLine(method', target) + "\r\n" + FieldBlock(fields))
         == if |fields| > MAX_HEADERS then Err(TooManyHeaders) else Ok(Some(Head(method', target, Http11, fields)))
  {
    RequestLineReadsBack(method', target);
    SplitLineOf(RequestLine(method', target), FieldBlock(fields));
    FieldsReadBack(fields, []);
    assert [] + fields == fields;
  }

  lemma PrefixIs(a: string, b: string)
    ensures (a + b)[..|a|] == a
  {
  }

  /**
   * What a good head written out reads back as: itself, unless it is over one
   * of the two limits, or carries two Hosts.
   */
  lemma WrittenReadsBack(method': string, target: string, fields: seq<HeaderField>)
    requires IsToken(method') && IsTarget(target)
    requires fields != [] && GoodFields(fields) && |Named(fields, "host")| <= 1
    ensures ParseRequestHead(Wire(method', target, fields))
            == if |Wire(method', target, fields)| > MAX_HEAD then Err(TooLarge)
               else if |fields| > MAX_HEADERS then Err(TooManyHeaders)
               else Ok(Some(Head(method', target, Http11, fields)))
  {
    WireText(method', target, fields);
    RequestLineReadsBack(method', target);
    EndOfWire(RequestLine(method', target), fields);
    PrefixIs(RequestLine(method', target) + "\r\n" + FieldBlock(fields), "\r\n\r\n");
    BlockReadsBack(method', target, fields);
  }

  // -------------------------------------------------------------------------
  // What parsing guarantees
  // -------------------------------------------------------------------------

  /** What the parser guarantees of a request head. */
  ghost predicate GoodHead(head: Head) {
    IsToken(head.method') && IsTarget(head.target) && GoodFields(head.fields) && |Named(head.fields, "host")| <= 1
  }

  lemma {:induction false} TrimStartIsSuffix(s: string)
    ensures |TrimOwsStart(s)| <= |s| && TrimOwsStart(s) == s[|s| - |TrimOwsStart(s)|..]
    ensures TrimOwsStart(s) != "" ==> !IsOws(TrimOwsStart(s)[0])
  {
    if s != "" && IsOws(s[0]) {
      TrimStartIsSuffix(s[1..]);
    }
  }

  lemma {:induction false} TrimEndIsPrefix(s: string)
    ensures TrimOwsEnd(s) <= s
    ensures TrimOwsEnd(s) != "" ==> !IsOws(TrimOwsEnd(s)[|TrimOwsEnd(s)| - 1])
  {
    if s != "" && IsOws(s[|s| - 1]) {
      TrimEndIsPrefix(s[..|s| - 1]);
    }
  }

  /** Trimming leaves a trimmed part of what was there. */
  lemma TrimTrims(s: string)
    ensures Trimmed(TrimOws(s)) && forall i :: 0 <= i < |TrimOws(s)| ==> TrimOws(s)[i] in s
    ensures Trimmed(s) ==> TrimOws(s) == s
  {
    TrimStartIsSuffix(s);
    TrimEndIsPrefix(TrimOwsStart(s));
  }

  lemma TrimmedIsGood(v: string)
    requires forall i :: 0 <= i < |v| ==> IsValueChar(v[i])
    ensures GoodValue(TrimOws(v))
  {
    TrimTrims(v);
  }

  lemma ParsedFieldIsGood(line: string)
    requires line != "" && ParseField(line).Ok?
    ensures GoodField(ParseField(line).value)
  {
    TrimmedIsGood(SplitOnce(':', line).value.1);
  }

  lemma {:induction false} ParsedFieldsAreGood(block: string, so: seq<HeaderField>)
    requires GoodFields(so) && |so| <= MAX_HEADERS && ParseFields(block, so).Ok?
    ensures GoodFields(ParseFields(block, so).value) && |ParseFields(block, so).value| <= MAX_HEADERS
    decreases |block|
  {
    if block != "" {
      var (line, rest) := SplitLine(block);
      if line == "" {
        ParsedFieldsAreGood(rest, so);
      } else {
        ParsedFieldIsGood(line);
        ParsedFieldsAreGood(rest, so + [ParseField(line).value]);
      }
    }
  }

  /** Whatever the parser lets in is a head a hop can write out again. */
  lemma ParsedIsGood(buf: string)
    requires ParseRequestHead(buf).Ok? && ParseRequestHead(buf).value.Some?
    ensures GoodHead(ParseRequestHead(buf).value.value)
    ensures |ParseRequestHead(buf).value.value.fields| <= MAX_HEADERS
  {
    var i := Find("\r\n\r\n", buf).value;
    ParsedFieldsAreGood(SplitLine(buf[..i]).1, []);
  }
}
