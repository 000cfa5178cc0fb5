/** What a proxy hop does to the head passing through it. */
module Headers {
  import opened Wrappers
  import opened Machine
  import opened Ordering
  import opened TextOps
  import opened Codec

  const HOP_BY_HOP := ["keep-alive", "proxy-connection", "proxy-authenticate", "proxy-authorization",
                       "te", "trailer", "transfer-encoding", "upgrade"]

  const SELF_WRITTEN := ["x-forwarded-for", "x-real-ip", "x-forwarded-proto", "x-forwarded-host", "x-request-id"]

  /** This hop: the client and endpoint as they print, the scheme, and a fresh request id. */
  datatype Hop = Hop(client: string, scheme: string, endpoint: string, freshId: string)

  /** How the message goes on: chunked or not, closing or not, upgrading or not. */
  datatype Onward = Onward(chunked: bool, close: bool, upgrade: Option<string>)

  predicate IsHopByHop(name: string) {
    Lower(name) in HOP_BY_HOP
  }

  predicate IsSelfWritten(name: string) {
    Lower(name) in SELF_WRITTEN
  }

  /** Some `Connection` line, not just the first, lists the name. */
  predicate ConnectionLists(fields: seq<HeaderField>, name: string) {
    exists f :: f in Named(fields, "connection") && HasToken(f.value, name)
  }

  predicate IsForwardable(fields: seq<HeaderField>, name: string) {
    && !SameName(name, "connection") && !IsHopByHop(name) && !IsSelfWritten(name)
    && !ConnectionLists(fields, name)
  }

  function ForwardedOf(all: seq<HeaderField>, fields: seq<HeaderField>): seq<HeaderField> {
    if fields == [] then []
    else
      var last := fields[|fields| - 1];
      ForwardedOf(all, fields[..|fields| - 1]) + if IsForwardable(all, last.name) then [last] else []
  }

  function Forwarded(fields: seq<HeaderField>): seq<HeaderField> {
    ForwardedOf(fields, fields)
  }

  function First(fields: seq<HeaderField>, name: string): Option<string> {
    var named := Named(fields, name);
    if named == [] then None else Some(named[0].value)
  }

  // -------------------------------------------------------------------------
  // What this hop writes
  // -------------------------------------------------------------------------

  /** The non-empty inbound trails, each followed by a comma. */
  function Trails(named: seq<HeaderField>): string {
    if named == [] then ""
    else
      var v := TrimOws(named[|named| - 1].value);
      Trails(named[..|named| - 1]) + if v == "" then "" else v + ", "
  }

  function ForwardedFor(fields: seq<HeaderField>, client: string): string {
    Trails(Named(fields, "x-forwarded-for")) + client
  }

  /** The inbound id when there is a non-empty one, the first line only; else a fresh one. */
  function RequestId(fields: seq<HeaderField>, freshId: string): string {
    match First(fields, "x-request-id")
    case None => freshId
    case Some(v) => if TrimOws(v) == "" then freshId else TrimOws(v)
  }

  function HostFields(fields: seq<HeaderField>, endpoint: string): seq<HeaderField> {
    if Named(fields, "host") == [] then [HeaderField("Host", endpoint)] else []
  }

  function ForwardedHost(fields: seq<HeaderField>): seq<HeaderField> {
    match First(fields, "host") case None => [] case Some(v) => [HeaderField("X-Forwarded-Host", v)]
  }

  function OnwardFields(o: Onward): seq<HeaderField> {
    (if o.chunked then [HeaderField("Transfer-Encoding", "chunked")] else []) + ConnectionFields(o)
  }

  function ConnectionFields(o: Onward): seq<HeaderField> {
    match o.upgrade
    case Some(p) => [HeaderField("Connection", "upgrade"), HeaderField("Upgrade", p)]
    case None => if o.close then [HeaderField("Connection", "close")] else []
  }

  function ClientFields(fields: seq<HeaderField>, hop: Hop): seq<HeaderField> {
    [HeaderField("X-Forwarded-For", ForwardedFor(fields, hop.client)),
     HeaderField("X-Real-IP", hop.client), HeaderField("X-Forwarded-Proto", hop.scheme)]
  }

  function HopFields(fields: seq<HeaderField>, hop: Hop, o: Onward): seq<HeaderField> {
    HostFields(fields, hop.endpoint) + ClientFields(fields, hop) + ForwardedHost(fields)
    + [HeaderField("X-Request-Id", RequestId(fields, hop.freshId))] + OnwardFields(o)
  }

  /** The fields sent upstream: what is forwarded, in order, then this hop's own. */
  function UpstreamFields(fields: seq<HeaderField>, hop: Hop, o: Onward): seq<HeaderField> {
    Forwarded(fields) + HopFields(fields, hop, o)
  }

  function UpstreamHead(head: Head, hop: Hop, o: Onward): string {
    Wire(head.method', head.target, UpstreamFields(head.fields, hop, o))
  }

  /** The inbound id itself, for when it is longer than the buffer. */
  function LongId(fields: seq<HeaderField>): string {
    match First(fields, "x-request-id") case None => "" case Some(v) => TrimOws(v)
  }

  // -------------------------------------------------------------------------
  // Writing it
  // -------------------------------------------------------------------------

  lemma {:induction false} FieldLinesConcat(a: seq<HeaderField>, b: seq<HeaderField>)
    ensures FieldLines(a + b) == FieldLines(a) + FieldLines(b)
  {
    if a == [] {
      assert a + b == b;
    } else {
      assert (a + b)[1..] == a[1..] + b;
      FieldLinesConcat(a[1..], b);
      ConcatAssociative(FieldLine(a[0]), FieldLines(a[1..]), FieldLines(b));
    }
  }

  lemma OneMoreLine(so: string, fields: seq<HeaderField>, f: HeaderField)
    ensures so + FieldLines(fields) + FieldLine(f) == so + FieldLines(fields + [f])
  {
    FieldLinesConcat(fields, [f]);
    assert [f][1..] == [];
    assert FieldLines([f]) == FieldLine(f) + "";
  }

  lemma OneMoreNamed(fields: seq<HeaderField>, i: nat, name: string)
    requires i < |fields|
    ensures Named(fields[..i + 1], name)
         == Named(fields[..i], name) + if SameName(fields[i].name, name) then [fields[i]] else []
    ensures ForwardedOf(fields, fields[..i + 1])
         == ForwardedOf(fields, fields[..i]) + if IsForwardable(fields, fields[i].name) then [fields[i]] else []
    ensures !IsForwardable(fields, fields[i].name) ==> ForwardedOf(fields, fields[..i + 1]) == ForwardedOf(fields, fields[..i])
  {
    assert fields[..i + 1][..i] == fields[..i];
  }

  /** The request head under construction. */
  class HeadWriter {
    var out: string

    constructor ()
      ensures out == ""
    {
      out := "";
    }

    method Field(name: string, value: string, ghost so: string, ghost fields: seq<HeaderField>)
      requires out == so + FieldLines(fields)
      modifies this
      ensures out == so + FieldLines(fields + [HeaderField(name, value)])
    {
      OneMoreLine(so, fields, HeaderField(name, value));
      out := out + (name + ": " + value + "\r\n");
    }

    /** Copies one field if it crosses the hop. */
    method CopyOne(fields: seq<HeaderField>, i: nat, ghost so: string)
      requires i < |fields| && out == so + FieldLines(ForwardedOf(fields, fields[..i]))
      modifies this
      ensures out == so + FieldLines(ForwardedOf(fields, fields[..i + 1]))
    {
      OneMoreNamed(fields, i, "host");
      if IsForwardable(fields, fields[i].name) {
        Field(fields[i].name, fields[i].value, so, ForwardedOf(fields, fields[..i]));
        assert HeaderField(fields[i].name, fields[i].value) == fields[i];
      }
    }

    /** Copies what crosses the hop; says whether a Host was seen at all. */
    method CopyForwarded(fields: seq<HeaderField>, ghost so: string) returns (hostSeen: bool)
      requires out == so
      modifies this
      ensures out == so + FieldLines(Forwarded(fields))
      ensures hostSeen <==> Named(fields, "host") != []
    {
      hostSeen := false;
      NothingYet(so, fields);
      for i := 0 to |fields|
        invariant out == so + FieldLines(ForwardedOf(fields, fields[..i]))
        invariant hostSeen <==> Named(fields[..i], "host") != []
      {
        OneMoreNamed(fields, i, "host");
        if SameName(fields[i].name, "host") {
          hostSeen := true;
        }
        CopyOne(fields, i, so);
      }
      assert fields[..|fields|] == fields;
    }

    /** Every inbound trail, then the client. */
    method WriteForwardedFor(fields: seq<HeaderField>, client: string, ghost so: string, ghost done: seq<HeaderField>)
      requires out == so + FieldLines(done)
      modifies this
      ensures out == so + FieldLines(done + [HeaderField("X-Forwarded-For", ForwardedFor(fields, client))])
    {
      var trails := JoinTrails(Named(fields, "x-forwarded-for"));
      OneMoreLine(so, done, HeaderField("X-Forwarded-For", ForwardedFor(fields, client)));
      TrailLine(trails, client);
      out := out + ("X-Forwarded-For: " + trails + client + "\r\n");
    }

    method WriteRequestId(fields: seq<HeaderField>, freshId: string, ghost so: string, ghost done: seq<HeaderField>)
      requires out == so + FieldLines(done) && |freshId| == 32
      modifies this
      ensures out == so + FieldLines(done + [HeaderField("X-Request-Id", RequestId(fields, freshId))])
    {
      var buffer, len := IdInto(fields, freshId);
      if len > 32 {
        Field("X-Request-Id", LongId(fields), so, done);
      } else {
        Field("X-Request-Id", buffer, so, done);
      }
    }

    method WriteUpgrade(protocol: string, ghost so: string, ghost done: seq<HeaderField>)
      requires out == so + FieldLines(done)
      modifies this
      ensures out == so + FieldLines(done + [HeaderField("Connection", "upgrade"), HeaderField("Upgrade", protocol)])
    {
      Field("Connection", "upgrade", so, done);
      Field("Upgrade", protocol, so, done + [HeaderField("Connection", "upgrade")]);
      assert done + [HeaderField("Connection", "upgrade")] + [HeaderField("Upgrade", protocol)]
          == done + [HeaderField("Connection", "upgrade"), HeaderField("Upgrade", protocol)];
    }

    method WriteOnward(o: Onward, ghost so: string, ghost done: seq<HeaderField>)
      requires out == so + FieldLines(done)
      modifies this
      ensures out == so + FieldLines(done + OnwardFields(o))
    {
      ghost var framing := if o.chunked then [HeaderField("Transfer-Encoding", "chunked")] else [];
      NoMore(done);
      if o.chunked {
        Field("Transfer-Encoding", "chunked", so, done);
      }
      NoMore(done + framing);
      if o.upgrade.Some? {
        WriteUpgrade(o.upgrade.value, so, done + framing);
      } else if o.close {
        Field("Connection", "close", so, done + framing);
      }
      ConcatAssociative(done, framing, ConnectionFields(o));
    }

    method WriteHost(fields: seq<HeaderField>, endpoint: string, hostSeen: bool, ghost so: string, ghost done: seq<HeaderField>)
      requires out == so + FieldLines(done) && (hostSeen <==> Named(fields, "host") != [])
      modifies this
      ensures out == so + FieldLines(done + HostFields(fields, endpoint))
    {
      assert done + [] == done;
      if !hostSeen {
        Field("Host", endpoint, so, done);
      }
    }

    method WriteClient(fields: seq<HeaderField>, hop: Hop, ghost so: string, ghost done: seq<HeaderField>)
      requires out == so + FieldLines(done)
      modifies this
      ensures out == so + FieldLines(done + ClientFields(fields, hop))
    {
      ghost var trail := HeaderField("X-Forwarded-For", ForwardedFor(fields, hop.client));
      ghost var real', proto := HeaderField("X-Real-IP", hop.client), HeaderField("X-Forwarded-Proto", hop.scheme);
      WriteForwardedFor(fields, hop.client, so, done);
      Field("X-Real-IP", hop.client, so, done + [trail]);
      Field("X-Forwarded-Proto", hop.scheme, so, done + [trail] + [real']);
      assert done + [trail] + [real'] + [proto] == done + [trail, real', proto];
    }

    method WriteForwardedHost(fields: seq<HeaderField>, ghost so: string, ghost done: seq<HeaderField>)
      requires out == so + FieldLines(done)
      modifies this
      ensures out == so + FieldLines(done + ForwardedHost(fields))
    {
      assert done + [] == done;
      var host := First(fields, "host");
      if host.Some? {
        Field("X-Forwarded-Host", host.value, so, done);
      }
    }

    method WriteHopFields(fields: seq<HeaderField>, hop: Hop, o: Onward, hostSeen: bool,
                          ghost so: string, ghost done: seq<HeaderField>)
      requires out == so + FieldLines(done) && (hostSeen <==> Named(fields, "host") != [])
      requires |hop.freshId| == 32
      modifies this
      ensures out == so + FieldLines(done + HopFields(fields, hop, o))
    {
      ghost var a, b, c := HostFields(fields, hop.endpoint), ClientFields(fields, hop), ForwardedHost(fields);
      ghost var d := [HeaderField("X-Request-Id", RequestId(fields, hop.freshId))];
      WriteHost(fields, hop.endpoint, hostSeen, so, done);
      WriteClient(fields, hop, so, done + a);
      WriteForwardedHost(fields, so, done + a + b);
      WriteRequestId(fields, hop.freshId, so, done + a + b + c);
      WriteOnward(o, so, done + a + b + c + d);
      FieldGroups(done, a, b, c, d, OnwardFields(o));
    }

    /** Appends the request head to send upstream. */
    method WriteUpstreamRequest(head: Head, hop: Hop, o: Onward)
      requires |hop.freshId| == 32
      modifies this
      ensures out == old(out) + UpstreamHead(head, hop, o)
    {
      ghost var before := out;
      var line := RequestLine(head.method', head.target) + "\r\n";
      out := out + line;
      ghost var so := out;
      var hostSeen := CopyForwarded(head.fields, so);
      WriteHopFields(head.fields, hop, o, hostSeen, so, Forwarded(head.fields));
      HeadParts(before, line, FieldLines(UpstreamFields(head.fields, hop, o)));
      out := out + "\r\n";
    }
  }

  lemma HeadParts(before: string, line: string, lines: string)
    ensures before + line + lines + "\r\n" == before + (line + lines + "\r\n")
  {
  }

  lemma TrailLine(trails: string, client: string)
    ensures "X-Forwarded-For: " + trails + client + "\r\n" == FieldLine(HeaderField("X-Forwarded-For", trails + client))
  {
  }

  lemma NoMore(done: seq<HeaderField>)
    ensures done + [] == done
  {
  }

  lemma NothingYet(so: string, fields: seq<HeaderField>)
    ensures so == so + FieldLines(ForwardedOf(fields, fields[..0])) && Named(fields[..0], "host") == []
  {
    assert fields[..0] == [];
    assert so + "" == so;
  }

  lemma FieldGroups(done: seq<HeaderField>, a: seq<HeaderField>, b: seq<HeaderField>, c: seq<HeaderField>,
                    d: seq<HeaderField>, e: seq<HeaderField>)
    ensures done + a + b + c + d + e == done + (a + b + c + d + e)
  {
    ConcatAssociative(done, a, b);
    ConcatAssociative(done, a + b, c);
    ConcatAssociative(done, a + b + c, d);
    ConcatAssociative(done, a + b + c + d, e);
  }

  method JoinTrails(named: seq<HeaderField>) returns (trails: string)
    ensures trails == Trails(named)
  {
    trails := "";
    for i := 0 to |named|
      invariant trails == Trails(named[..i])
    {
      assert named[..i + 1][..i] == named[..i];
      var value := TrimOws(named[i].value);
      if value != "" {
        trails := trails + (value + ", ");
      }
    }
    assert named[..|named|] == named;
  }

  /** What fits of the id in 32 bytes, and how long it really is. */
  method IdInto(fields: seq<HeaderField>, freshId: string) returns (buffer: string, len: nat)
    requires |freshId| == 32
    ensures len == |RequestId(fields, freshId)|
    ensures buffer == RequestId(fields, freshId)[..if len < 32 then len else 32]
    ensures len <= 32 ==> buffer == RequestId(fields, freshId)
    ensures len > 32 ==> RequestId(fields, freshId) == LongId(fields)
  {
    var existing := First(fields, "x-request-id");
    if existing.Some? {
      var id := TrimOws(existing.value);
      if id != "" {
        return id[..if |id| < 32 then |id| else 32], |id|;
      }
    }
    return freshId, 32;
  }

  // -------------------------------------------------------------------------
  // What crosses
  // -------------------------------------------------------------------------

  lemma {:induction false} ForwardedIsKept(all: seq<HeaderField>, fields: seq<HeaderField>)
    ensures ForwardedOf(all, fields) == Keep((f: HeaderField) => IsForwardable(all, f.name), fields)
  {
    if fields != [] {
      ForwardedIsKept(all, fields[..|fields| - 1]);
    }
  }

  /**
   * Exactly the forwardable fields cross, in order: none that is hop-by-hop,
   * written by this hop, or named on any Connection line; and every other one.
   */
  lemma OnlyForwardableCross(fields: seq<HeaderField>, f: HeaderField)
    ensures f in Forwarded(fields) <==>
              && f in fields && !SameName(f.name, "connection") && !IsHopByHop(f.name) && !IsSelfWritten(f.name)
              && (forall c :: c in fields && SameName(c.name, "connection") ==> !HasToken(c.value, f.name))
    ensures Forwarded(fields) == Keep((g: HeaderField) => IsForwardable(fields, g.name), fields)
  {
    ForwardedIsKept(fields, fields);
    NamedMembers(fields, "connection");
  }

  lemma {:induction false} NamedMembers(fields: seq<HeaderField>, name: string)
    ensures forall f :: f in Named(fields, name) <==> f in fields && SameName(f.name, name)
  {
    if fields != [] {
      NamedMembers(fields[..|fields| - 1], name);
    }
  }

  lemma {:induction false} NamedConcat(a: seq<HeaderField>, b: seq<HeaderField>, name: string)
    ensures Named(a + b, name) == Named(a, name) + Named(b, name)
  {
    if b == [] {
      assert a + b == a;
    } else {
      var init, last := b[..|b| - 1], b[|b| - 1];
      NamedConcat(a, init, name);
      assert (a + b)[..|a + b| - 1] == a + init && (a + b)[|a + b| - 1] == last;
    }
  }

  lemma OneNamed(f: HeaderField, name: string)
    ensures Named([f], name) == if SameName(f.name, name) then [f] else []
  {
    assert [f][..0] == [];
    assert Named([], name) == [];
  }

  lemma NoneNamed(fields: seq<HeaderField>, name: string)
    requires forall f :: f in fields ==> !SameName(f.name, name)
    ensures Named(fields, name) == []
  {
    NamedMembers(fields, name);
    NoMembers(Named(fields, name));
  }

  lemma SameLetters(a: string, b: string)
    requires |a| == |b| && forall i :: 0 <= i < |a| ==> LowerChar(a[i]) == LowerChar(b[i])
    ensures SameName(a, b)
  {
  }

  lemma OwnNames()
    ensures SameName("Host", "host")
    ensures SameName("X-Forwarded-For", "x-forwarded-for")
    ensures SameName("X-Request-Id", "x-request-id")
  {
    SameLetters("Host", "host");
    SameLetters("X-Forwarded-For", "x-forwarded-for");
    SameLetters("X-Request-Id", "x-request-id");
  }

  lemma NotNamed(fields: seq<HeaderField>, name: string)
    requires forall f :: f in fields ==> |f.name| != |name|
    ensures Named(fields, name) == []
  {
    forall f | f in fields ensures !SameName(f.name, name) {
      assert |Lower(f.name)| != |Lower(name)|;
    }
    NoneNamed(fields, name);
  }

  /** This hop's own fields of a name it writes: none but the one. */
  lemma HopFieldsNamed(fields: seq<HeaderField>, hop: Hop, o: Onward)
    ensures Named(HopFields(fields, hop, o), "x-forwarded-for")
         == [HeaderField("X-Forwarded-For", ForwardedFor(fields, hop.client))]
    ensures Named(HopFields(fields, hop, o), "x-request-id")
         == [HeaderField("X-Request-Id", RequestId(fields, hop.freshId))]
    ensures Named(HopFields(fields, hop, o), "host") == HostFields(fields, hop.endpoint)
  {
    HopTrail(fields, hop, o);
    HopId(fields, hop, o);
    HopHost(fields, hop, o);
  }

  lemma HopTrail(fields: seq<HeaderField>, hop: Hop, o: Onward)
    ensures Named(HopFields(fields, hop, o), "x-forwarded-for")
         == [HeaderField("X-Forwarded-For", ForwardedFor(fields, hop.client))]
  {
    NamedInGroups(fields, hop, o, "x-forwarded-for");
    HostNamed(fields, hop.endpoint);
    ClientNamed(fields, hop);
    OthersNamed(fields, o, "x-forwarded-for");
    IdNamed(RequestId(fields, hop.freshId));
  }

  lemma HopId(fields: seq<HeaderField>, hop: Hop, o: Onward)
    ensures Named(HopFields(fields, hop, o), "x-request-id")
         == [HeaderField("X-Request-Id", RequestId(fields, hop.freshId))]
  {
    NamedInGroups(fields, hop, o, "x-request-id");
    HostNamed(fields, hop.endpoint);
    ClientNamed(fields, hop);
    OthersNamed(fields, o, "x-request-id");
    IdNamed(RequestId(fields, hop.freshId));
  }

  lemma HopHost(fields: seq<HeaderField>, hop: Hop, o: Onward)
    ensures Named(HopFields(fields, hop, o), "host") == HostFields(fields, hop.endpoint)
  {
    NamedInGroups(fields, hop, o, "host");
    HostNamed(fields, hop.endpoint);
    ClientNamed(fields, hop);
    OthersNamed(fields, o, "host");
    IdNamed(RequestId(fields, hop.freshId));
  }

  /** A name is looked up group by group. */
  lemma NamedInGroups(fields: seq<HeaderField>, hop: Hop, o: Onward, name: string)
    ensures Named(HopFields(fields, hop, o), name)
         == Named(HostFields(fields, hop.endpoint), name) + Named(ClientFields(fields, hop), name)
            + Named(ForwardedHost(fields), name)
            + Named([HeaderField("X-Request-Id", RequestId(fields, hop.freshId))], name) + Named(OnwardFields(o), name)
  {
    var a, b, c := HostFields(fields, hop.endpoint), ClientFields(fields, hop), ForwardedHost(fields);
    var d := [HeaderField("X-Request-Id", RequestId(fields, hop.freshId))];
    NamedConcat(a, b, name);
    NamedConcat(a + b, c, name);
    NamedConcat(a + b + c, d, name);
    NamedConcat(a + b + c + d, OnwardFields(o), name);
  }

  lemma TrailNamed(trail: HeaderField, rest: seq<HeaderField>)
    requires trail.name == "X-Forwarded-For" && forall f :: f in rest ==> |f.name| != 15
    ensures Named([trail] + rest, "x-forwarded-for") == [trail]
  {
    NamedConcat([trail], rest, "x-forwarded-for");
    OneNamed(trail, "x-forwarded-for");
    OwnNames();
    NotNamed(rest, "x-forwarded-for");
  }

  lemma ClientNamed(fields: seq<HeaderField>, hop: Hop)
    ensures Named(ClientFields(fields, hop), "x-forwarded-for")
         == [HeaderField("X-Forwarded-For", ForwardedFor(fields, hop.client))]
    ensures Named(ClientFields(fields, hop), "x-request-id") == []
    ensures Named(ClientFields(fields, hop), "host") == []
  {
    var trail := HeaderField("X-Forwarded-For", ForwardedFor(fields, hop.client));
    var rest := [HeaderField("X-Real-IP", hop.client), HeaderField("X-Forwarded-Proto", hop.scheme)];
    assert ClientFields(fields, hop) == [trail] + rest;
    TrailNamed(trail, rest);
    NotNamed([trail] + rest, "x-request-id");
    NotNamed([trail] + rest, "host");
  }

  lemma HostNamed(fields: seq<HeaderField>, endpoint: string)
    ensures Named(HostFields(fields, endpoint), "x-forwarded-for") == []
    ensures Named(HostFields(fields, endpoint), "x-request-id") == []
    ensures Named(HostFields(fields, endpoint), "host") == HostFields(fields, endpoint)
  {
    OwnNames();
    OneNamed(HeaderField("Host", endpoint), "host");
    NotNamed(HostFields(fields, endpoint), "x-forwarded-for");
    NotNamed(HostFields(fields, endpoint), "x-request-id");
  }

  lemma ForwardedHostLength(fields: seq<HeaderField>)
    ensures forall f :: f in ForwardedHost(fields) ==> |f.name| == 16
  {
  }

  lemma ConnectionLengths(o: Onward)
    ensures forall f :: f in ConnectionFields(o) ==> |f.name| == 10 || |f.name| == 7
  {
  }

  lemma OnwardLengths(o: Onward)
    ensures forall f :: f in OnwardFields(o) ==> |f.name| == 17 || |f.name| == 10 || |f.name| == 7
  {
    ConnectionLengths(o);
  }

  lemma LengthsDiffer(fields: seq<HeaderField>, name: string)
    requires |name| == 15 || |name| == 12 || |name| == 4
    requires forall f :: f in fields ==> |f.name| == 17 || |f.name| == 16 || |f.name| == 10 || |f.name| == 7
    ensures Named(fields, name) == []
  {
    NotNamed(fields, name);
  }

  lemma OthersNamed(fields: seq<HeaderField>, o: Onward, name: string)
    requires |name| == 15 || |name| == 12 || |name| == 4
    ensures Named(ForwardedHost(fields), name) == [] && Named(OnwardFields(o), name) == []
  {
    ForwardedHostLength(fields);
    LengthsDiffer(ForwardedHost(fields), name);
    OnwardLengths(o);
    LengthsDiffer(OnwardFields(o), name);
  }

  lemma IdNamed(id: string)
    ensures var f := HeaderField("X-Request-Id", id);
            && Named([f], "x-forwarded-for") == [] && Named([f], "host") == [] && Named([f], "x-request-id") == [f]
  {
    OwnNames();
    OneNamed(HeaderField("X-Request-Id", id), "x-request-id");
    NotNamed([HeaderField("X-Request-Id", id)], "x-forwarded-for");
    NotNamed([HeaderField("X-Request-Id", id)], "host");
  }

  lemma OwnNameStops(fields: seq<HeaderField>, name: string)
    requires name in SELF_WRITTEN && Lower(name) == name
    ensures Named(Forwarded(fields), name) == []
  {
    forall f | f in Forwarded(fields) ensures !SameName(f.name, name) {
      OnlyForwardableCross(fields, f);
    }
    NoneNamed(Forwarded(fields), name);
  }

  /** Nothing written by this hop is copied from the request as well. */
  lemma OwnNamesDoNotCross(fields: seq<HeaderField>)
    ensures Named(Forwarded(fields), "x-forwarded-for") == [] && Named(Forwarded(fields), "x-request-id") == []
  {
    LowerTwice("x-forwarded-for");
    LowerTwice("x-request-id");
    assert SELF_WRITTEN[0] == "x-forwarded-for" && SELF_WRITTEN[4] == "x-request-id";
    OwnNameStops(fields, "x-forwarded-for");
    OwnNameStops(fields, "x-request-id");
  }

  lemma LowerTwice(name: string)
    requires forall i :: 0 <= i < |name| ==> LowerChar(name[i]) == name[i]
    ensures Lower(name) == name
  {
  }

  /** One X-Forwarded-For goes upstream, with every inbound trail and the client; one request id. */
  lemma OneTrailOneId(fields: seq<HeaderField>, hop: Hop, o: Onward)
    ensures Named(UpstreamFields(fields, hop, o), "x-forwarded-for")
         == [HeaderField("X-Forwarded-For", ForwardedFor(fields, hop.client))]
    ensures Named(UpstreamFields(fields, hop, o), "x-request-id")
         == [HeaderField("X-Request-Id", RequestId(fields, hop.freshId))]
  {
    OwnNamesDoNotCross(fields);
    HopFieldsNamed(fields, hop, o);
    NamedConcat(Forwarded(fields), HopFields(fields, hop, o), "x-forwarded-for");
    NamedConcat(Forwarded(fields), HopFields(fields, hop, o), "x-request-id");
  }

  // -------------------------------------------------------------------------
  // Readable again
  // -------------------------------------------------------------------------

  /** Addresses, scheme and id print as header values; none is empty. */
  predicate GoodHop(hop: Hop) {
    && hop.client != "" && GoodValue(hop.client) && GoodValue(hop.scheme) && GoodValue(hop.endpoint)
    && hop.freshId != "" && GoodValue(hop.freshId)
  }

  predicate GoodOnward(o: Onward) {
    o.upgrade.Some? ==> GoodValue(o.upgrade.value)
  }

  lemma {:induction false} TrailsAreGood(named: seq<HeaderField>)
    requires GoodFields(named)
    ensures forall i :: 0 <= i < |Trails(named)| ==> IsValueChar(Trails(named)[i])
    ensures Trails(named) != "" ==> !IsOws(Trails(named)[0])
  {
    if named != [] {
      TrailsAreGood(named[..|named| - 1]);
      TrimTrims(named[|named| - 1].value);
    }
  }

  lemma NamedIsGood(fields: seq<HeaderField>, name: string)
    requires GoodFields(fields)
    ensures GoodFields(Named(fields, name))
  {
    NamedMembers(fields, name);
    forall i | 0 <= i < |Named(fields, name)| ensures GoodField(Named(fields, name)[i]) {
      assert Named(fields, name)[i] in Named(fields, name);
    }
  }

  lemma ForwardedForIsGood(fields: seq<HeaderField>, client: string)
    requires GoodFields(fields) && client != "" && GoodValue(client)
    ensures ForwardedFor(fields, client) != "" && GoodValue(ForwardedFor(fields, client))
  {
    NamedIsGood(fields, "x-forwarded-for");
    TrailsAreGood(Named(fields, "x-forwarded-for"));
    var t := Trails(Named(fields, "x-forwarded-for"));
    var v := t + client;
    assert v[|v| - 1] == client[|client| - 1];
    assert v[0] == if t == "" then client[0] else t[0];
  }

  lemma FirstIsGood(fields: seq<HeaderField>, name: string)
    requires GoodFields(fields)
    ensures First(fields, name).Some? ==> GoodValue(First(fields, name).value)
  {
    NamedIsGood(fields, name);
  }

  lemma RequestIdIsGood(fields: seq<HeaderField>, freshId: string)
    requires GoodFields(fields) && freshId != "" && GoodValue(freshId)
    ensures RequestId(fields, freshId) != "" && GoodValue(RequestId(fields, freshId))
  {
    FirstIsGood(fields, "x-request-id");
    if First(fields, "x-request-id").Some? {
      TrimmedIsGood(First(fields, "x-request-id").value);
    }
  }

  lemma GoodConcat(a: seq<HeaderField>, b: seq<HeaderField>)
    requires GoodFields(a) && GoodFields(b)
    ensures GoodFields(a + b)
  {
  }

  lemma ForwardedIsGood(fields: seq<HeaderField>)
    requires GoodFields(fields)
    ensures GoodFields(Forwarded(fields))
  {
    ForwardedIsKept(fields, fields);
    forall i | 0 <= i < |Forwarded(fields)| ensures GoodField(Forwarded(fields)[i]) {
      assert Forwarded(fields)[i] in Forwarded(fields);
    }
  }

  predicate IsPlain(c: char) {
    'a' <= c <= 'z' || 'A' <= c <= 'Z' || c == '-'
  }

  lemma PlainToken(s: string)
    requires s != "" && forall i :: 0 <= i < |s| ==> IsPlain(s[i])
    ensures IsToken(s)
  {
    assert "!#$%&'*+-.^_`|~"[8] == '-';
  }

  lemma ClientNamesAreTokens()
    ensures IsToken("Host") && IsToken("X-Forwarded-For") && IsToken("X-Real-IP") && IsToken("X-Forwarded-Proto")
  {
    PlainToken("Host");
    PlainToken("X-Forwarded-For");
    PlainToken("X-Real-IP");
    PlainToken("X-Forwarded-Proto");
  }

  lemma OtherNamesAreTokens()
    ensures IsToken("X-Forwarded-Host") && IsToken("X-Request-Id")
    ensures IsToken("Transfer-Encoding") && IsToken("Connection") && IsToken("Upgrade")
  {
    PlainToken("X-Forwarded-Host");
    PlainToken("X-Request-Id");
    PlainToken("Transfer-Encoding");
    PlainToken("Connection");
    PlainToken("Upgrade");
  }

  lemma WordsAreValues()
    ensures GoodValue("chunked") && GoodValue("upgrade") && GoodValue("close")
  {
  }

  lemma OneGood(name: string, value: string)
    requires IsToken(name) && GoodValue(value)
    ensures GoodFields([HeaderField(name, value)])
  {
  }

  lemma ClientFieldsAreGood(fields: seq<HeaderField>, hop: Hop)
    requires GoodFields(fields) && GoodHop(hop)
    ensures GoodFields(HostFields(fields, hop.endpoint) + ClientFields(fields, hop))
  {
    ForwardedForIsGood(fields, hop.client);
    ClientNamesAreTokens();
    OneGood("Host", hop.endpoint);
    OneGood("X-Forwarded-For", ForwardedFor(fields, hop.client));
    OneGood("X-Real-IP", hop.client);
    OneGood("X-Forwarded-Proto", hop.scheme);
    assert ClientFields(fields, hop) == [HeaderField("X-Forwarded-For", ForwardedFor(fields, hop.client))]
                                        + [HeaderField("X-Real-IP", hop.client)] + [HeaderField("X-Forwarded-Proto", hop.scheme)];
    GoodConcat(HostFields(fields, hop.endpoint), ClientFields(fields, hop));
  }

  lemma IdFieldsAreGood(fields: seq<HeaderField>, hop: Hop)
    requires GoodFields(fields) && GoodHop(hop)
    ensures GoodFields(ForwardedHost(fields))
    ensures GoodFields([HeaderField("X-Request-Id", RequestId(fields, hop.freshId))])
  {
    FirstIsGood(fields, "host");
    RequestIdIsGood(fields, hop.freshId);
    OtherNamesAreTokens();
  }

  lemma OnwardFieldsAreGood(o: Onward)
    requires GoodOnward(o)
    ensures GoodFields(OnwardFields(o))
  {
    OtherNamesAreTokens();
    WordsAreValues();
    OneGood("Transfer-Encoding", "chunked");
    OneGood("Connection", "close");
    OneGood("Connection", "upgrade");
    if o.upgrade.Some? {
      OneGood("Upgrade", o.upgrade.value);
      assert [HeaderField("Connection", "upgrade"), HeaderField("Upgrade", o.upgrade.value)]
          == [HeaderField("Connection", "upgrade")] + [HeaderField("Upgrade", o.upgrade.value)];
    }
  }

  lemma HopFieldsAreGood(fields: seq<HeaderField>, hop: Hop, o: Onward)
    requires GoodFields(fields) && GoodHop(hop) && GoodOnward(o)
    ensures GoodFields(HopFields(fields, hop, o))
  {
    ClientFieldsAreGood(fields, hop);
    IdFieldsAreGood(fields, hop);
    OnwardFieldsAreGood(o);
    var ab, c := HostFields(fields, hop.endpoint) + ClientFields(fields, hop), ForwardedHost(fields);
    var d := [HeaderField("X-Request-Id", RequestId(fields, hop.freshId))];
    GoodConcat(ab, c);
    GoodConcat(ab + c, d);
    GoodConcat(ab + c + d, OnwardFields(o));
  }

  /**
   * At most one Host goes upstream. None goes exactly when the client sent one
   * and a Connection line names it: then it is stripped and not replaced.
   */
  lemma HostUpstream(fields: seq<HeaderField>, hop: Hop, o: Onward)
    requires |Named(fields, "host")| <= 1
    ensures |Named(UpstreamFields(fields, hop, o), "host")| <= 1
    ensures Named(UpstreamFields(fields, hop, o), "host") == []
            <==> Named(fields, "host") != [] && ConnectionLists(fields, "host")
  {
    HopFieldsNamed(fields, hop, o);
    NamedConcat(Forwarded(fields), HopFields(fields, hop, o), "host");
    HostForwarded(fields);
  }

  lemma {:induction false} TokenIgnoresCase(value: string, a: string, b: string)
    requires SameName(a, b)
    ensures HasToken(value, a) <==> HasToken(value, b)
    decreases |value|
  {
    var i := FirstIndex(',', value);
    if i < |value| {
      TokenIgnoresCase(value[i + 1..], a, b);
    }
  }

  lemma HostCrosses(fields: seq<HeaderField>, f: HeaderField)
    requires SameName(f.name, "host")
    ensures IsForwardable(fields, f.name) <==> !ConnectionLists(fields, "host")
  {
    forall c ensures HasToken(c, f.name) <==> HasToken(c, "host") {
      TokenIgnoresCase(c, f.name, "host");
    }
    assert |Lower(f.name)| == |Lower("host")| == 4;
    assert forall n :: n in HOP_BY_HOP ==> |n| != 4;
    assert forall n :: n in SELF_WRITTEN ==> |n| != 4;
    assert |Lower("connection")| == 10;
  }

  lemma {:induction false} NamedForwarded(all: seq<HeaderField>, fields: seq<HeaderField>)
    ensures Named(ForwardedOf(all, fields), "host") == if ConnectionLists(all, "host") then [] else Named(fields, "host")
  {
    if fields != [] {
      var init, last := fields[..|fields| - 1], fields[|fields| - 1];
      NamedForwarded(all, init);
      var tail := if IsForwardable(all, last.name) then [last] else [];
      NamedConcat(ForwardedOf(all, init), tail, "host");
      OneNamed(last, "host");
      if SameName(last.name, "host") {
        HostCrosses(all, last);
      }
    }
  }

  lemma HostForwarded(fields: seq<HeaderField>)
    ensures Named(Forwarded(fields), "host") == if ConnectionLists(fields, "host") then [] else Named(fields, "host")
  {
    NamedForwarded(fields, fields);
  }

  /**
   * The head written upstream reads back, by this engine's own parser, as the
   * same method and target, the forwarded fields in order, then this hop's:
   * exactly when it fits the parser's two limits, which adding fields can
   * exceed even for a head that came in under them.
   */
  lemma UpstreamReadsBack(head: Head, hop: Hop, o: Onward)
    requires GoodHead(head) && GoodHop(hop) && GoodOnward(o)
    ensures var wire, fields := UpstreamHead(head, hop, o), UpstreamFields(head.fields, hop, o);
            ParseRequestHead(wire)
            == if |wire| > MAX_HEAD then Err(TooLarge)
               else if |fields| > MAX_HEADERS then Err(TooManyHeaders)
               else Ok(Some(Head(head.method', head.target, Http11, fields)))
  {
    ForwardedIsGood(head.fields);
    HopFieldsAreGood(head.fields, hop, o);
    GoodConcat(Forwarded(head.fields), HopFields(head.fields, hop, o));
    HostUpstream(head.fields, hop, o);
    WrittenReadsBack(head.method', head.target, UpstreamFields(head.fields, hop, o));
  }

  /** Adding to a head: five fields whatever came in, and up to three for how it goes on. */
  lemma UpstreamCount(fields: seq<HeaderField>, hop: Hop, o: Onward)
    ensures |UpstreamFields(fields, hop, o)|
         == |Keep((f: HeaderField) => IsForwardable(fields, f.name), fields)| + 5
            + (if o.chunked then 1 else 0) + (if o.upgrade.Some? then 2 else if o.close then 1 else 0)
  {
    ForwardedIsKept(fields, fields);
    assert First(fields, "host").Some? <==> HostFields(fields, hop.endpoint) == [];
  }

  /** A field's line: its name and value, a colon, a space and a line end. */
  function LinesLength(fields: seq<HeaderField>): nat {
    if fields == [] then 0 else |fields[0].name| + |fields[0].value| + 4 + LinesLength(fields[1..])
  }

  lemma {:induction false} LinesAreLong(fields: seq<HeaderField>)
    ensures |FieldLines(fields)| == LinesLength(fields)
  {
    if fields != [] {
      LinesAreLong(fields[1..]);
    }
  }

  lemma {:induction false} LinesLengthConcat(a: seq<HeaderField>, b: seq<HeaderField>)
    ensures LinesLength(a + b) == LinesLength(a) + LinesLength(b)
  {
    if a == [] {
      assert a + b == b;
    } else {
      assert (a + b)[1..] == a[1..] + b;
      LinesLengthConcat(a[1..], b);
    }
  }

  lemma OneLine(f: HeaderField)
    ensures LinesLength([f]) == |f.name| + |f.value| + 4
  {
    assert [f][1..] == [] && LinesLength([f][1..]) == 0;
  }

  /** The non-empty inbound trails, each with a comma and a space. */
  function TrailsLength(named: seq<HeaderField>): nat {
    if named == [] then 0
    else
      var v := TrimOws(named[|named| - 1].value);
      TrailsLength(named[..|named| - 1]) + if v == "" then 0 else |v| + 2
  }

  lemma {:induction false} TrailsAreLong(named: seq<HeaderField>)
    ensures |Trails(named)| == TrailsLength(named)
  {
    if named != [] {
      TrailsAreLong(named[..|named| - 1]);
    }
  }

  /** What this hop says of where the request came from. */
  function HopLength(fields: seq<HeaderField>, hop: Hop): nat {
    (match First(fields, "host") case None => 8 + |hop.endpoint| case Some(v) => 20 + |v|)
    + (19 + TrailsLength(Named(fields, "x-forwarded-for")) + |hop.client|)
    + (13 + |hop.client|) + (21 + |hop.scheme|) + (16 + |RequestId(fields, hop.freshId)|)
  }

  function OnwardLength(o: Onward): nat {
    (if o.chunked then 28 else 0) + match o.upgrade case Some(p) => 32 + |p| case None => if o.close then 19 else 0
  }

  lemma OnwardIsLong(o: Onward)
    ensures LinesLength(OnwardFields(o)) == OnwardLength(o)
  {
    OneLine(HeaderField("Transfer-Encoding", "chunked"));
    OneLine(HeaderField("Connection", "close"));
    LinesLengthConcat(if o.chunked then [HeaderField("Transfer-Encoding", "chunked")] else [], ConnectionFields(o));
    if o.upgrade.Some? {
      var a, b := HeaderField("Connection", "upgrade"), HeaderField("Upgrade", o.upgrade.value);
      OneLine(a);
      OneLine(b);
      LinesLengthConcat([a], [b]);
      assert ConnectionFields(o) == [a] + [b];
    }
  }

  lemma ClientIsLong(fields: seq<HeaderField>, hop: Hop)
    ensures LinesLength(ClientFields(fields, hop))
         == 19 + TrailsLength(Named(fields, "x-forwarded-for")) + |hop.client| + (13 + |hop.client|) + (21 + |hop.scheme|)
  {
    TrailsAreLong(Named(fields, "x-forwarded-for"));
    var a := HeaderField("X-Forwarded-For", ForwardedFor(fields, hop.client));
    var b, c := HeaderField("X-Real-IP", hop.client), HeaderField("X-Forwarded-Proto", hop.scheme);
    OneLine(a);
    OneLine(b);
    OneLine(c);
    LinesLengthConcat([a], [b]);
    LinesLengthConcat([a] + [b], [c]);
    assert ClientFields(fields, hop) == [a] + [b] + [c];
  }

  /** One of the two says the host the request was for. */
  lemma HostIsLong(fields: seq<HeaderField>, hop: Hop)
    ensures LinesLength(HostFields(fields, hop.endpoint)) + LinesLength(ForwardedHost(fields))
         == match First(fields, "host") case None => 8 + |hop.endpoint| case Some(v) => 20 + |v|
  {
    OneLine(HeaderField("Host", hop.endpoint));
    if First(fields, "host").Some? {
      OneLine(HeaderField("X-Forwarded-Host", First(fields, "host").value));
    }
  }

  lemma HopIsLong(fields: seq<HeaderField>, hop: Hop, o: Onward)
    ensures LinesLength(HopFields(fields, hop, o)) == HopLength(fields, hop) + OnwardLength(o)
  {
    var a, b, c := HostFields(fields, hop.endpoint), ClientFields(fields, hop), ForwardedHost(fields);
    var id := HeaderField("X-Request-Id", RequestId(fields, hop.freshId));
    HostIsLong(fields, hop);
    ClientIsLong(fields, hop);
    OneLine(id);
    OnwardIsLong(o);
    LinesLengthConcat(a, b);
    LinesLengthConcat(a + b, c);
    LinesLengthConcat(a + b + c, [id]);
    LinesLengthConcat(a + b + c + [id], OnwardFields(o));
  }

  /** How long the head sent upstream is, from the one that came in, the hop, and how it goes on. */
  lemma UpstreamSize(head: Head, hop: Hop, o: Onward)
    ensures |UpstreamHead(head, hop, o)|
         == |head.method'| + |head.target| + 14
            + LinesLength(Keep((f: HeaderField) => IsForwardable(head.fields, f.name), head.fields))
            + HopLength(head.fields, hop) + OnwardLength(o)
  {
    ForwardedIsKept(head.fields, head.fields);
    HopIsLong(head.fields, hop, o);
    LinesLengthConcat(Forwarded(head.fields), HopFields(head.fields, hop, o));
    LinesAreLong(UpstreamFields(head.fields, hop, o));
  }

  function Copies(n: nat, f: HeaderField): seq<HeaderField> {
    seq(n, _ => f)
  }

  lemma {:induction false} CopiesLength(n: nat, f: HeaderField)
    ensures |FieldLines(Copies(n, f))| == n * |FieldLine(f)|
  {
    if n != 0 {
      assert Copies(n, f)[1..] == Copies(n - 1, f);
      CopiesLength(n - 1, f);
    }
  }

  lemma ShortNameIsForwardable(fields: seq<HeaderField>, name: string)
    requires |name| == 1 && Named(fields, "connection") == []
    ensures IsForwardable(fields, name)
  {
    assert |Lower(name)| == 1 && |Lower("connection")| == 10;
    assert forall x :: x in HOP_BY_HOP ==> |x| != 1;
    assert forall x :: x in SELF_WRITTEN ==> |x| != 1;
  }

  lemma PlainFieldsCross(n: nat, f: HeaderField)
    requires |f.name| == 1
    ensures Forwarded(Copies(n, f)) == Copies(n, f) && Named(Copies(n, f), "host") == []
  {
    var fields := Copies(n, f);
    NotNamed(fields, "host");
    NotNamed(fields, "connection");
    ShortNameIsForwardable(fields, f.name);
    ForwardedIsKept(fields, fields);
    KeepAll((g: HeaderField) => IsForwardable(fields, g.name), fields);
  }

  lemma {:induction false} KeepAll<T(!new)>(p: T -> bool, s: seq<T>)
    requires forall x :: x in s ==> p(x)
    ensures Keep(p, s) == s
  {
    if s != [] {
      KeepAll(p, s[..|s| - 1]);
      assert s[|s| - 1] in s;
    }
  }

  const PLAIN := HeaderField("a", "b")

  lemma PlainHeadIsGood(n: nat)
    ensures IsToken("GET") && IsTarget("/") && GoodFields(Copies(n, PLAIN))
    ensures |Wire("GET", "/", Copies(n, PLAIN))| == 18 + 6 * n
  {
    PlainToken("GET");
    PlainToken("a");
    assert GoodField(PLAIN);
    CopiesLength(n, PLAIN);
    assert |FieldLine(PLAIN)| == 6;
    assert |RequestLine("GET", "/")| == 14;
  }

  /** A head this engine's parser accepts and, forwarded, refuses: sixty-four fields, and the next hop's five. */
  lemma AcceptedThenRefused(hop: Hop, o: Onward)
    requires GoodHop(hop) && GoodOnward(o)
    ensures var head := Head("GET", "/", Http11, Copies(MAX_HEADERS, PLAIN));
            && ParseRequestHead(Wire(head.method', head.target, head.fields)) == Ok(Some(head))
            && ParseRequestHead(UpstreamHead(head, hop, o)).Err?
  {
    var fields := Copies(MAX_HEADERS, PLAIN);
    PlainHeadIsGood(MAX_HEADERS);
    PlainFieldsCross(MAX_HEADERS, PLAIN);
    WrittenReadsBack("GET", "/", fields);
    UpstreamReadsBack(Head("GET", "/", Http11, fields), hop, o);
    assert |UpstreamFields(fields, hop, o)| > MAX_HEADERS by {
      UpstreamCount(fields, hop, o);
      ForwardedIsKept(fields, fields);
    }
  }

  const HOST := HeaderField("Host", "shop.test")
  const NAMES_HOST := HeaderField("Connection", "host")

  lemma OneHost()
    ensures Named([HOST, NAMES_HOST], "host") == [HOST]
  {
    assert [HOST, NAMES_HOST] == [HOST] + [NAMES_HOST];
    OwnNames();
    NamedConcat([HOST], [NAMES_HOST], "host");
    OneNamed(HOST, "host");
    NotNamed([NAMES_HOST], "host");
  }

  lemma HostIsListed()
    ensures ConnectionLists([HOST, NAMES_HOST], "host")
  {
    NamedMembers([HOST, NAMES_HOST], "connection");
    SameLetters("Connection", "connection");
    WholeValue("host");
    assert NAMES_HOST in [HOST, NAMES_HOST];
  }

  /** A request with a Host that goes upstream without one, whatever the hop. */
  lemma HostStripped(hop: Hop, o: Onward)
    ensures Named(UpstreamFields([HOST, NAMES_HOST], hop, o), "host") == []
  {
    OneHost();
    HostIsListed();
    HostUpstream([HOST, NAMES_HOST], hop, o);
  }

  lemma WholeValue(token: string)
    requires ',' !in token && Trimmed(token)
    ensures HasToken(token, token)
  {
    TrimTrims(token);
    assert token[..|token|] == token;
  }

  // -------------------------------------------------------------------------
  // Two hops
  // -------------------------------------------------------------------------

  lemma OneTrail(trail: string, client: string, named: seq<HeaderField>)
    requires named == [HeaderField("X-Forwarded-For", trail)] && trail != "" && Trimmed(trail)
    ensures Trails(named) + client == trail + ", " + client
  {
    TrimTrims(trail);
    assert named[..0] == [];
    assert Trails([]) == "";
  }

  /** A second hop appends to the trail the first one sent, and keeps its request id. */
  lemma TwoHopsAppend(fields: seq<HeaderField>, first: Hop, o: Onward, second: Hop)
    requires GoodFields(fields) && GoodHop(first)
    ensures var between := UpstreamFields(fields, first, o);
            && ForwardedFor(between, second.client) == ForwardedFor(fields, first.client) + ", " + second.client
            && RequestId(between, second.freshId) == RequestId(fields, first.freshId)
  {
    OneTrailOneId(fields, first, o);
    ForwardedForIsGood(fields, first.client);
    OneTrail(ForwardedFor(fields, first.client), second.client, Named(UpstreamFields(fields, first, o), "x-forwarded-for"));
    RequestIdIsGood(fields, first.freshId);
    TrimTrims(RequestId(fields, first.freshId));
  }
}
