/** Service references: the backend names of the route table. */
module Config {
  import opened Wrappers
  import opened Machine
  import opened TextOps
  import opened Ordering

  datatype BackendPort = Number(n: i32) | Name(name: string)

  datatype ServiceRef = ServiceRef(namespace: string, name: string, port: BackendPort)

  datatype ServiceRefError = Shape(input: string) | Port(input: string, port: string)

  function PortText(p: BackendPort): string {
    match p
    case Number(n) => if n < 0 then "-" + Decimal(0 - n as int) else Decimal(n)
    case Name(s) => s
  }

  /** `namespace/name:port`, the name registered with the router. */
  function BackendName(r: ServiceRef): string {
    r.namespace + "/" + r.name + ":" + PortText(r.port)
  }

  /** An `i32` written in digits, or nothing when it does not fit. */
  function ParsePort(s: string): Option<BackendPort>
    requires s != ""
  {
    if IsDigit(s[0]) then
      if AllDigits(s) && DigitsValue(s) < 0x8000_0000 then Some(Number(DigitsValue(s))) else None
    else
      Some(Name(s))
  }

  function Parse(s: string): Result<ServiceRef, ServiceRefError> {
    match SplitOnce('/', s)
    case None => Err(Shape(s))
    case Some((namespace, rest)) =>
      match RSplitOnce(':', rest)
      case None => Err(Shape(s))
      case Some((name, port)) =>
        if namespace == "" || name == "" || port == "" then Err(Shape(s))
        else
          match ParsePort(port)
          case None => Err(Port(s, port))
          case Some(p) => Ok(ServiceRef(namespace, name, p))
  }

  /** What Kubernetes itself guarantees of a namespace, a Service and its port. */
  predicate WellFormed(r: ServiceRef) {
    && r.namespace != "" && '/' !in r.namespace
    && r.name != ""
    && match r.port
       case Number(n) => n >= 0
       case Name(p) => p != "" && ':' !in p && !IsDigit(p[0])
  }

  lemma DecimalHasNoColon(n: nat)
    ensures ':' !in Decimal(n)
  {
    var s := Decimal(n);
    forall i | 0 <= i < |s| ensures s[i] != ':' {
      assert IsDigit(s[i]);
    }
  }

  lemma PortTextReadsBack(p: BackendPort)
    requires PortText(p) != ""
    ensures ParsePort(PortText(p)) == Some(p) <==>
            match p case Number(n) => n >= 0 case Name(s) => !IsDigit(s[0])
  {
    match p
    case Number(n) =>
      if n >= 0 {
        DecimalReadsBack(n);
      } else {
        assert PortText(p)[0] == '-';
      }
    case Name(s) =>
  }

  /** A reference survives being rendered exactly when it is well formed. */
  lemma RenderThenParse(r: ServiceRef)
    ensures Parse(BackendName(r)) == Ok(r) <==> WellFormed(r)
  {
    if WellFormed(r) {
      WellFormedReadsBack(r);
    } else if Parse(BackendName(r)) == Ok(r) {
      ParsedIsWellFormed(BackendName(r));
    }
  }

  lemma WellFormedReadsBack(r: ServiceRef)
    requires WellFormed(r)
    ensures Parse(BackendName(r)) == Ok(r)
  {
    var port := PortText(r.port);
    var rest := r.name + ":" + port;
    assert BackendName(r) == r.namespace + ['/'] + rest;
    SplitOnceOfJoin('/', r.namespace, rest);
    if r.port.Number? {
      DecimalHasNoColon(r.port.n);
    }
    assert rest == r.name + [':'] + port;
    RSplitOnceOfJoin(':', r.name, port);
    PortTextReadsBack(r.port);
  }

  /** The port text a parsed reference was written with. */
  function PortSpelling(s: string): string
    requires Parse(s).Ok?
  {
    RSplitOnce(':', SplitOnce('/', s).value.1).value.1
  }

  lemma PrefixOf(namespace: string, name: string, port: string)
    ensures namespace + ['/'] + (name + [':'] + port) == (namespace + "/" + name + ":") + port
  {
  }

  lemma ParsedParts(s: string)
    requires Parse(s).Ok?
    ensures var r := Parse(s).value;
            && s == (r.namespace + "/" + r.name + ":") + PortSpelling(s)
            && PortSpelling(s) != "" && ParsePort(PortSpelling(s)) == Some(r.port)
            && '/' !in r.namespace && ':' !in PortSpelling(s) && r.namespace != "" && r.name != ""
  {
    var (namespace, rest) := SplitOnce('/', s).value;
    SplitOnceJoins('/', s);
    RSplitOnceJoins(':', rest);
    var (name, port) := RSplitOnce(':', rest).value;
    PrefixOf(namespace, name, port);
  }

  /** Whatever parses is well formed. */
  lemma ParsedIsWellFormed(s: string)
    requires Parse(s).Ok?
    ensures WellFormed(Parse(s).value)
  {
    ParsedParts(s);
  }

  lemma SamePrefix(head: string, a: string, b: string)
    ensures head + a == head + b <==> a == b
  {
    assert (head + a)[|head|..] == a && (head + b)[|head|..] == b;
  }

  /** Parsing then rendering is the identity but for redundant leading zeros. */
  lemma ParseThenRender(s: string)
    requires Parse(s).Ok?
    ensures BackendName(Parse(s).value) == s <==>
            (Parse(s).value.port.Number? ==> Canonical(PortSpelling(s)))
  {
    var r, port := Parse(s).value, PortSpelling(s);
    ParsedParts(s);
    SamePrefix(r.namespace + "/" + r.name + ":", port, PortText(r.port));
    if r.port.Number? {
      PrintsBack(port);
    }
  }

  /** Two well-formed references share a backend name only by being the same one. */
  lemma BackendNamesDistinct(a: ServiceRef, b: ServiceRef)
    requires WellFormed(a) && WellFormed(b)
    requires BackendName(a) == BackendName(b)
    ensures a == b
  {
    WellFormedReadsBack(a);
    WellFormedReadsBack(b);
  }

  /** Without the rule on port names, a name and a number can share one. */
  lemma MalformedNamesCanCollide()
    ensures exists a, b :: a != b && BackendName(a) == BackendName(b)
  {
    var a := ServiceRef("prod", "web", Number(8));
    var b := ServiceRef("prod", "web", Name("8"));
    assert Decimal(8) == "8";
    assert a != b && BackendName(a) == BackendName(b);
  }

  // -------------------------------------------------------------------------
  // Order
  // -------------------------------------------------------------------------

  /** The derived order on ports: numbers first. */
  predicate PortLe(a: BackendPort, b: BackendPort) {
    match (a, b)
    case (Number(m), Number(n)) => m <= n
    case (Number(_), Name(_)) => true
    case (Name(_), Number(_)) => false
    case (Name(s), Name(t)) => LexLe(s, t)
  }

  /** The derived order on references, which a `BTreeMap` iterates in. */
  predicate RefLe(a: ServiceRef, b: ServiceRef) {
    if a.namespace != b.namespace then LexLe(a.namespace, b.namespace)
    else if a.name != b.name then LexLe(a.name, b.name)
    else PortLe(a.port, b.port)
  }

  lemma PortTransitive(a: BackendPort, b: BackendPort, c: BackendPort)
    requires PortLe(a, b) && PortLe(b, c)
    ensures PortLe(a, c)
  {
    if a.Name? && c.Name? {
      LexTransitive(a.name, b.name, c.name);
    }
  }

  lemma RefTransitive(a: ServiceRef, b: ServiceRef, c: ServiceRef)
    requires RefLe(a, b) && RefLe(b, c)
    ensures RefLe(a, c)
  {
    LexTotal(a.namespace, a.namespace);
    LexTotal(c.namespace, c.namespace);
    LexTotal(a.name, a.name);
    LexTotal(c.name, c.name);
    if a.namespace != b.namespace || b.namespace != c.namespace {
      LexTransitive(a.namespace, b.namespace, c.namespace);
      if a.namespace == c.namespace {
        LexAntisymmetric(a.namespace, b.namespace);
      }
    } else if a.name != b.name || b.name != c.name {
      LexTransitive(a.name, b.name, c.name);
      if a.name == c.name {
        LexAntisymmetric(a.name, b.name);
      }
    } else {
      PortTransitive(a.port, b.port, c.port);
    }
  }

  lemma RefTotal(a: ServiceRef, b: ServiceRef)
    ensures RefLe(a, b) || RefLe(b, a)
    ensures RefLe(a, b) && RefLe(b, a) ==> a == b
  {
    LexTotal(a.namespace, b.namespace);
    LexTotal(a.name, b.name);
    if RefLe(a, b) && RefLe(b, a) {
      if a.namespace != b.namespace {
        LexAntisymmetric(a.namespace, b.namespace);
      } else if a.name != b.name {
        LexAntisymmetric(a.name, b.name);
      } else {
        PortAntisymmetric(a.port, b.port);
      }
    } else {
      PortTotal(a.port, b.port);
    }
  }

  lemma PortTotal(a: BackendPort, b: BackendPort)
    ensures PortLe(a, b) || PortLe(b, a)
  {
    if a.Name? && b.Name? {
      LexTotal(a.name, b.name);
    }
  }

  lemma PortAntisymmetric(a: BackendPort, b: BackendPort)
    requires PortLe(a, b) && PortLe(b, a)
    ensures a == b
  {
    if a.Name? && b.Name? {
      LexAntisymmetric(a.name, b.name);
    }
  }

  lemma RefOrder()
    ensures TotalPreorder(RefLe)
    ensures forall a, b :: RefLe(a, b) && RefLe(b, a) ==> a == b
  {
    forall a, b ensures RefLe(a, b) || RefLe(b, a) { RefTotal(a, b); }
    forall a, b | RefLe(a, b) && RefLe(b, a) ensures a == b { RefTotal(a, b); }
    forall a, b, c | RefLe(a, b) && RefLe(b, c) ensures RefLe(a, c) { RefTransitive(a, b, c); }
  }
}
