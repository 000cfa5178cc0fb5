/**
 * The digest stream of a whole plan. Its sections follow one another with no
 * counts between them, so what separates them is what the names look like.
 */
module PlanStreams {
  import opened Wrappers
  import opened Machine
  import opened Ordering
  import opened TextOps
  import opened Config
  import opened Objects
  import opened Planning
  import opened Endpoints
  import opened Backends
  import opened Certificates
  import opened Promotions
  import opened Digests
  import opened Translate
  import opened PlanBytes

  // -------------------------------------------------------------------------
  // The sections
  // -------------------------------------------------------------------------

  predicate Short(fields: seq<Field>) {
    forall f :: f in fields ==>
      && (f.Text? ==> |f.text| < TEBIBYTE)
      && (f.OptText? && f.opt.Some? ==> |f.opt.value| < TEBIBYTE)
  }

  lemma ShortIsBounded(fields: seq<Field>)
    requires Short(fields)
    ensures BoundedFields(fields)
  {
  }

  lemma ShortParts(a: seq<Field>, b: seq<Field>)
    requires Short(a + b)
    ensures Short(a) && Short(b)
  {
    assert forall f :: f in a || f in b ==> f in a + b;
  }

  lemma LastMapped<A, B>(f: A -> B, s: seq<A>)
    requires s != []
    ensures MapSeq(f, s) == MapSeq(f, s[..|s| - 1]) + [f(s[|s| - 1])]
  {
  }

  /** One more item on both sides. */
  lemma OneMoreJoins(fields: seq<Field>, items: seq<seq<byte>>, last: seq<Field>)
    requires Stream(fields) == Join(items)
    ensures Stream(fields + last) == Join(items + [Stream(last)])
  {
    StreamConcat(fields, last);
    JoinOne(items, Stream(last));
  }

  function BackendItems(show: AddressPrinter, lb: LbPolicy, bs: seq<Registered>): seq<seq<byte>> {
    MapSeq((b: Registered) => Stream(BackendFields(show, lb, b)), bs)
  }

  lemma LastBackendItem(show: AddressPrinter, lb: LbPolicy, bs: seq<Registered>)
    requires bs != []
    ensures BackendItems(show, lb, bs) == BackendItems(show, lb, bs[..|bs| - 1]) + [Stream(BackendFields(show, lb, bs[|bs| - 1]))]
  {
    LastMapped((b: Registered) => Stream(BackendFields(show, lb, b)), bs);
  }

  lemma {:induction false} BackendsJoin(show: AddressPrinter, lb: LbPolicy, bs: seq<Registered>)
    ensures Stream(BackendsFields(show, lb, bs)) == Join(BackendItems(show, lb, bs))
  {
    if bs != [] {
      var init, last := bs[..|bs| - 1], bs[|bs| - 1];
      BackendsJoin(show, lb, init);
      OneMoreJoins(BackendsFields(show, lb, init), BackendItems(show, lb, init), BackendFields(show, lb, last));
      LastBackendItem(show, lb, bs);
    }
  }

  function RouteItems(routes: Routes, keys: seq<RouteKey>): seq<seq<byte>>
    requires forall k :: k in keys ==> k in routes
  {
    MapSeq((k: RouteKey) => if k in routes then Stream(RouteFields(routes[k])) else [], keys)
  }

  lemma LastRouteItem(routes: Routes, keys: seq<RouteKey>)
    requires keys != [] && forall k :: k in keys ==> k in routes
    ensures RouteItems(routes, keys) == RouteItems(routes, keys[..|keys| - 1]) + [Stream(RouteFields(routes[keys[|keys| - 1]]))]
  {
    LastMapped((k: RouteKey) => if k in routes then Stream(RouteFields(routes[k])) else [], keys);
  }

  lemma {:induction false} RoutesJoin(routes: Routes, keys: seq<RouteKey>)
    requires forall k :: k in keys ==> k in routes
    ensures Stream(RoutesFields(routes, keys)) == Join(RouteItems(routes, keys))
  {
    if keys != [] {
      var init, last := keys[..|keys| - 1], keys[|keys| - 1];
      RoutesJoin(routes, init);
      OneMoreJoins(RoutesFields(routes, init), RouteItems(routes, init), RouteFields(routes[last]));
      LastRouteItem(routes, keys);
    }
  }

  function HostFields(sni: Sni, h: string): seq<Field>
    requires h in sni
  {
    [Text(Utf8(h)), Word(sni[h].handleId)]
  }

  function HostItems(sni: Sni, hosts: seq<string>): seq<seq<byte>>
    requires forall h :: h in hosts ==> h in sni
  {
    MapSeq((h: string) => if h in sni then Stream(HostFields(sni, h)) else [], hosts)
  }

  lemma LastHostItem(sni: Sni, hosts: seq<string>)
    requires hosts != [] && forall h :: h in hosts ==> h in sni
    ensures HostItems(sni, hosts) == HostItems(sni, hosts[..|hosts| - 1]) + [Stream(HostFields(sni, hosts[|hosts| - 1]))]
  {
    LastMapped((h: string) => if h in sni then Stream(HostFields(sni, h)) else [], hosts);
  }

  lemma {:induction false} HostsJoin(sni: Sni, hosts: seq<string>)
    requires forall h :: h in hosts ==> h in sni
    ensures Stream(SniFields(sni, hosts)) == Join(HostItems(sni, hosts))
  {
    if hosts != [] {
      var init, last := hosts[..|hosts| - 1], hosts[|hosts| - 1];
      HostsJoin(sni, init);
      OneMoreJoins(SniFields(sni, init), HostItems(sni, init), HostFields(sni, last));
      LastHostItem(sni, hosts);
    }
  }

  function ReportedPlace(r: PromotionRoute): seq<Field> {
    [Text(Utf8(r.host)), Text(Utf8(r.path)), Tag(PathTypeRank(r.pathType))]
  }

  function PlaceItems(routes: seq<PromotionRoute>): seq<seq<byte>> {
    MapSeq((r: PromotionRoute) => Stream(ReportedPlace(r)), routes)
  }

  lemma LastPlaceItem(routes: seq<PromotionRoute>)
    requires routes != []
    ensures PlaceItems(routes) == PlaceItems(routes[..|routes| - 1]) + [Stream(ReportedPlace(routes[|routes| - 1]))]
  {
    LastMapped((r: PromotionRoute) => Stream(ReportedPlace(r)), routes);
  }

  lemma {:induction false} PlacesJoin(routes: seq<PromotionRoute>)
    ensures Stream(RouteListFields(routes)) == Join(PlaceItems(routes))
  {
    if routes != [] {
      var init, last := routes[..|routes| - 1], routes[|routes| - 1];
      PlacesJoin(init);
      OneMoreJoins(RouteListFields(init), PlaceItems(init), ReportedPlace(last));
      LastPlaceItem(routes);
    }
  }

  // -------------------------------------------------------------------------
  // Names as the API server checks them
  // -------------------------------------------------------------------------

  lemma {:induction false} PlainBytes(s: string, b: byte)
    requires b in Utf8(s) && b < 0x80
    ensures b as char in s
  {
    var first := Utf8Char(s[0]);
    if b in first {
      assert first == [s[0] as int];
    } else {
      PlainBytes(s[1..], b);
    }
  }

  lemma {:induction false} PlainChars(s: string, c: char)
    requires c in s && c as int < 0x80
    ensures c as int in Utf8(s)
  {
    if c == s[0] {
      assert Utf8Char(c)[0] == c as int;
    } else {
      PlainChars(s[1..], c);
    }
  }

  lemma {:induction false} Utf8Grows(s: string)
    ensures |Utf8(s)| >= |s|
  {
    if s != [] {
      Utf8Grows(s[1..]);
    }
  }

  lemma FirstByte(s: string)
    requires s != []
    ensures Utf8(s) != [] && (Utf8(s)[0] == SLASH <==> s[0] == '/')
  {
    assert Utf8(s)[0] == Utf8Char(s[0])[0];
  }

  predicate PlainName(s: string) {
    s != "" && '\0' !in s
  }

  predicate PlainPath(s: string) {
    PlainName(s) && s[0] == '/'
  }

  predicate PlainHost(s: string) {
    s != "" && forall c :: c in s ==> c > ' ' && c != '/'
  }

  predicate PlainKey(k: ObjectKey) {
    && PlainName(k.namespace) && PlainName(k.name) && '/' !in k.namespace
    && |Utf8(KeyText(k))| < 0x1_0000
  }

  lemma NameIsPlain(s: string)
    requires PlainName(s) && |Utf8(s)| < TEBIBYTE
    ensures NameBytes(Utf8(s))
  {
    FirstByte(s);
    forall i | 0 <= i < |Utf8(s)| ensures Utf8(s)[i] != 0 {
      if Utf8(s)[i] < 0x80 {
        PlainBytes(s, Utf8(s)[i]);
      }
    }
  }

  lemma PathIsPlain(s: string)
    requires PlainPath(s) && |Utf8(s)| < TEBIBYTE
    ensures PathBytes(Utf8(s))
  {
    NameIsPlain(s);
    FirstByte(s);
  }

  lemma HostIsPlain(s: string)
    requires PlainHost(s) && |Utf8(s)| < TEBIBYTE
    ensures HostBytes(Utf8(s))
  {
    FirstByte(s);
    forall i | 0 <= i < |Utf8(s)| ensures Utf8(s)[i] > 0x20 && Utf8(s)[i] != SLASH {
      if Utf8(s)[i] < 0x80 {
        PlainBytes(s, Utf8(s)[i]);
      }
    }
  }

  lemma KeyIsPlain(k: ObjectKey)
    requires PlainKey(k)
    ensures KeyBytes(Utf8(KeyText(k)))
  {
    var s := KeyText(k);
    assert s[0] == k.namespace[0] && s[|k.namespace|] == '/';
    NameIsPlain(s);
    FirstByte(s);
    Utf8Grows(s);
    PlainChars(s, '/');
  }

  // -------------------------------------------------------------------------
  // Backends
  // -------------------------------------------------------------------------

  predicate PlainBackend(show: AddressPrinter, lb: LbPolicy, b: Registered) {
    PlainName(b.name) && |b.endpoints| < TWO_TO_64 && Short(BackendFields(show, lb, b))
  }

  lemma {:induction false} EndpointShapes(show: AddressPrinter, a: seq<Address>, b: seq<Address>)
    requires |a| == |b| && BoundedFields(EndpointFields(show, a)) && BoundedFields(EndpointFields(show, b))
    ensures SameShapes(EndpointFields(show, a), EndpointFields(show, b))
  {
    if a != [] {
      var p, q := EndpointFields(show, a[..|a| - 1]), EndpointFields(show, b[..|b| - 1]);
      var x := [Text(Utf8(show(a[|a| - 1]))), Word(1)];
      var y := [Text(Utf8(show(b[|b| - 1]))), Word(1)];
      BoundedParts(p, x);
      BoundedParts(q, y);
      EndpointShapes(show, a[..|a| - 1], b[..|b| - 1]);
      BoundedAt(x, 0);
      BoundedAt(y, 0);
      ShapesJoin(p, q, x, y);
    }
  }

  function BackendHead(lb: LbPolicy, b: Registered): seq<Field> {
    [Text(Utf8(b.name)), Tag(LbTag(lb)), Tag(ProtocolTag(b.protocol)), Word(|b.endpoints| % TWO_TO_64)]
  }

  lemma HeadThenRest(h: seq<Field>, g: seq<Field>, e: seq<Field>, f: seq<Field>, x: seq<byte>, y: seq<byte>)
    requires SameShapes(h, g) && (h == g ==> SameShapes(e, f))
    requires Stream(h + e) + x == Stream(g + f) + y
    ensures h == g && e == f && x == y
  {
    StreamConcat(h, e);
    StreamConcat(g, f);
    ConcatAssociative(Stream(h), Stream(e), x);
    ConcatAssociative(Stream(g), Stream(f), y);
    StreamPrefixFree(h, g, Stream(e) + x, Stream(f) + y);
    StreamPrefixFree(e, f, x, y);
  }

  lemma BackendShapes(show: AddressPrinter, lb: LbPolicy, a: Registered, b: Registered)
    requires PlainBackend(show, lb, a) && PlainBackend(show, lb, b)
    ensures SameShapes(BackendHead(lb, a), BackendHead(lb, b))
    ensures BackendHead(lb, a) == BackendHead(lb, b) ==>
              SameShapes(EndpointFields(show, a.endpoints), EndpointFields(show, b.endpoints))
  {
    var h, g := BackendHead(lb, a), BackendHead(lb, b);
    ShortParts(h, EndpointFields(show, a.endpoints));
    ShortParts(g, EndpointFields(show, b.endpoints));
    FourShapes(h, g);
    if h == g {
      assert h[3] == g[3];
      EndpointShapes(show, a.endpoints, b.endpoints);
    }
  }

  /** A backend's bytes say how many endpoints follow, so they say where it ends. */
  lemma BackendReadsBack(show: AddressPrinter, lb: LbPolicy, a: Registered, b: Registered, x: seq<byte>, y: seq<byte>)
    requires PlainBackend(show, lb, a) && PlainBackend(show, lb, b)
    requires Stream(BackendFields(show, lb, a)) + x == Stream(BackendFields(show, lb, b)) + y
    ensures BackendFields(show, lb, a) == BackendFields(show, lb, b) && x == y
  {
    BackendShapes(show, lb, a, b);
    HeadThenRest(BackendHead(lb, a), BackendHead(lb, b), EndpointFields(show, a.endpoints), EndpointFields(show, b.endpoints), x, y);
  }

  lemma BackendIsItsOwn(show: AddressPrinter, lb: LbPolicy, a: Registered, b: Registered)
    requires PlainBackend(show, lb, a) && PlainBackend(show, lb, b)
    requires Stream(BackendFields(show, lb, a)) <= Stream(BackendFields(show, lb, b))
    ensures BackendFields(show, lb, a) == BackendFields(show, lb, b)
  {
    var u := Resumes(Stream(BackendFields(show, lb, a)), Stream(BackendFields(show, lb, b)));
    assert Stream(BackendFields(show, lb, b)) + [] == Stream(BackendFields(show, lb, b));
    BackendReadsBack(show, lb, a, b, u, []);
  }

  predicate PlainBackends(show: AddressPrinter, lb: LbPolicy, bs: seq<Registered>) {
    forall b :: b in bs ==> PlainBackend(show, lb, b)
  }

  lemma BackendItemsPrefixFree(show: AddressPrinter, lb: LbPolicy, a: seq<Registered>, b: seq<Registered>)
    requires PlainBackends(show, lb, a) && PlainBackends(show, lb, b)
    ensures PrefixFree(BackendItems(show, lb, a), BackendItems(show, lb, b))
  {
    var xs, ys := BackendItems(show, lb, a), BackendItems(show, lb, b);
    forall x, y | x in xs && y in ys && (x <= y || y <= x) ensures x == y {
      var i :| 0 <= i < |xs| && xs[i] == x;
      var j :| 0 <= j < |ys| && ys[j] == y;
      assert a[i] in a && b[j] in b;
      if x <= y {
        BackendIsItsOwn(show, lb, a[i], b[j]);
      } else {
        BackendIsItsOwn(show, lb, b[j], a[i]);
      }
    }
  }

  lemma FirstCode(fields: seq<Field>, z: seq<byte>)
    requires fields != [] && Stream(fields) <= z
    ensures fields[0].Code() <= z
  {
    assert fields[0].Code() <= Stream(fields);
  }

  lemma BackendItemsApart(show: AddressPrinter, lb: LbPolicy, bs: seq<Registered>, x: seq<byte>, o: Option<seq<byte>>, t: seq<byte>)
    requires PlainBackends(show, lb, bs)
    requires (o.Some? ==> |o.value| < TEBIBYTE) && (SniTail(t) || PathTail(t))
    ensures Apart(BackendItems(show, lb, bs), x, OptTextCode(o) + t)
  {
    var items, y := BackendItems(show, lb, bs), OptTextCode(o) + t;
    forall item | item in items ensures !(item <= y) {
      var i :| 0 <= i < |items| && items[i] == item;
      var fields := BackendFields(show, lb, bs[i]);
      assert bs[i] in bs && fields[0] == Text(Utf8(bs[i].name)) && fields[0] in fields;
      NameIsPlain(bs[i].name);
      NameIsNoChoice(Utf8(bs[i].name), o, t);
      if item <= y {
        FirstCode(fields, y);
      }
    }
    ApartByItem(items, x, y);
  }

  /** The digested fields of each backend, in order. */
  ghost predicate SameBackends(show: AddressPrinter, lb: LbPolicy, a: seq<Registered>, b: seq<Registered>) {
    |a| == |b| && forall i :: 0 <= i < |a| ==> BackendFields(show, lb, a[i]) == BackendFields(show, lb, b[i])
  }

  lemma SameBackendItems(show: AddressPrinter, lb: LbPolicy, a: seq<Registered>, b: seq<Registered>)
    requires PlainBackends(show, lb, a) && PlainBackends(show, lb, b)
    requires BackendItems(show, lb, a) == BackendItems(show, lb, b)
    ensures SameBackends(show, lb, a, b)
  {
    forall i | 0 <= i < |a| ensures BackendFields(show, lb, a[i]) == BackendFields(show, lb, b[i]) {
      assert BackendItems(show, lb, a)[i] == BackendItems(show, lb, b)[i];
      assert a[i] in a && b[i] in b;
      BackendIsItsOwn(show, lb, a[i], b[i]);
    }
  }

  // -------------------------------------------------------------------------
  // Routes
  // -------------------------------------------------------------------------

  predicate PlainRoute(p: RoutePlan) {
    PlainPath(p.key.path) && Short(RouteFields(p))
  }

  lemma RouteIsItsOwn(a: RoutePlan, b: RoutePlan)
    requires PlainRoute(a) && PlainRoute(b)
    requires Stream(RouteFields(a)) <= Stream(RouteFields(b))
    ensures RouteFields(a) == RouteFields(b)
  {
    var u := Resumes(Stream(RouteFields(a)), Stream(RouteFields(b)));
    assert Stream(RouteFields(b)) + [] == Stream(RouteFields(b));
    ShortIsBounded(RouteFields(a));
    ShortIsBounded(RouteFields(b));
    RouteReadsBack(a, b, u, []);
  }

  ghost predicate PlainRoutes(routes: Routes, keys: seq<RouteKey>) {
    forall k :: k in keys ==> k in routes && PlainRoute(routes[k])
  }

  lemma RouteItemsPrefixFree(r: Routes, keys: seq<RouteKey>, q: Routes, others: seq<RouteKey>)
    requires PlainRoutes(r, keys) && PlainRoutes(q, others)
    ensures PrefixFree(RouteItems(r, keys), RouteItems(q, others))
  {
    var xs, ys := RouteItems(r, keys), RouteItems(q, others);
    forall x, y | x in xs && y in ys && (x <= y || y <= x) ensures x == y {
      var i :| 0 <= i < |xs| && xs[i] == x;
      var j :| 0 <= j < |ys| && ys[j] == y;
      assert keys[i] in keys && others[j] in others;
      if x <= y {
        RouteIsItsOwn(r[keys[i]], q[others[j]]);
      } else {
        RouteIsItsOwn(q[others[j]], r[keys[i]]);
      }
    }
  }

  /** A route's bytes, its place spelled out. */
  lemma RouteSpelled(p: RoutePlan, z: seq<byte>) returns (rest: seq<byte>)
    ensures Stream(RouteFields(p)) + z
         == OptTextCode(OptBytes(p.key.host))
            + Spelled(Utf8(p.key.path), PathTypeRank(p.key.pathType), Utf8(BackendName(p.backend)), rest)
    ensures rest == Stream(CanaryFields(p.canary) + MirrorFields(p.mirror)) + z
  {
    var a, b, c, d := OptText(OptBytes(p.key.host)), Text(Utf8(p.key.path)), Tag(PathTypeRank(p.key.pathType)),
                      Text(Utf8(BackendName(p.backend)));
    var extra := CanaryFields(p.canary) + MirrorFields(p.mirror);
    assert RouteFields(p) == [a, b, c, d] + extra;
    StreamConcat([a, b, c, d], extra);
    FourCodes(a, b, c, d);
    rest := Stream(extra) + z;
    RegroupFive(a.Code(), b.Code(), c.Code(), d.Code(), Stream(extra), z);
  }

  lemma FourCodes(a: Field, b: Field, c: Field, d: Field)
    ensures Stream([a, b, c, d]) == a.Code() + (b.Code() + (c.Code() + d.Code()))
  {
    assert [a, b, c, d][1..] == [b, c, d] && [b, c, d][1..] == [c, d] && [c, d][1..] == [d] && [d][1..] == [];
    assert Stream([d]) == d.Code();
    assert Stream([c, d]) == c.Code() + Stream([d]);
    assert Stream([b, c, d]) == b.Code() + Stream([c, d]);
  }

  lemma RegroupFive(a: seq<byte>, b: seq<byte>, c: seq<byte>, d: seq<byte>, e: seq<byte>, z: seq<byte>)
    ensures a + (b + (c + d)) + e + z == a + (b + (c + (d + (e + z))))
  {
  }

  lemma RouteIsNoDefault(o: Option<seq<byte>>, path: seq<byte>, rank: byte, backend: seq<byte>, rest: seq<byte>,
                         d: Option<seq<byte>>, z: seq<byte>)
    requires PathBytes(path) && |backend| < TEBIBYTE && Fits(o) && Fits(d) && SniTail(z)
    ensures OptTextCode(o) + (Spelled(path, rank, backend, rest)) != OptTextCode(d) + z
  {
    var x := Spelled(path, rank, backend, rest);
    PathIsNoTail(path, rank, backend, rest, z);
    if OptTextCode(o) + x == OptTextCode(d) + z {
      OptTextPrefixFree(o, d, x, z);
    }
  }

  lemma PlainRouteBytes(p: RoutePlan)
    requires PlainRoute(p)
    ensures PathBytes(Utf8(p.key.path)) && Fits(OptBytes(p.key.host))
    ensures OptBytes(p.key.host).Some? ==> |OptBytes(p.key.host).value| < TEBIBYTE
    ensures |Utf8(BackendName(p.backend))| < TEBIBYTE
  {
    var fields := RouteFields(p);
    assert fields[0] == OptText(OptBytes(p.key.host)) && fields[1] == Text(Utf8(p.key.path));
    assert fields[3] == Text(Utf8(BackendName(p.backend)));
    assert fields[0] in fields && fields[1] in fields && fields[3] in fields;
    PathIsPlain(p.key.path);
  }

  lemma RouteItemsApart(r: Routes, keys: seq<RouteKey>, x: seq<byte>, d: Option<seq<byte>>, z: seq<byte>)
    requires PlainRoutes(r, keys) && Fits(d) && SniTail(z)
    ensures Apart(RouteItems(r, keys), x, OptTextCode(d) + z)
  {
    var items := RouteItems(r, keys);
    forall i | 0 <= i < |items| ensures Join(items[i..]) + x != OptTextCode(d) + z {
      assert keys[i] in keys;
      var p, more := r[keys[i]], Join(items[i..][1..]) + x;
      ConcatAssociative(items[i], Join(items[i..][1..]), x);
      var rest := RouteSpelled(p, more);
      PlainRouteBytes(p);
      RouteIsNoDefault(OptBytes(p.key.host), Utf8(p.key.path), PathTypeRank(p.key.pathType), Utf8(BackendName(p.backend)), rest, d, z);
    }
  }

  /** The same keys, and the same digested fields under each. */
  ghost predicate SameRoutes(r: Routes, keys: seq<RouteKey>, q: Routes, others: seq<RouteKey>)
    requires PlainRoutes(r, keys) && PlainRoutes(q, others)
  {
    |keys| == |others| && forall i :: 0 <= i < |keys| ==> RouteFields(r[keys[i]]) == RouteFields(q[others[i]])
  }

  lemma SameRouteItems(r: Routes, keys: seq<RouteKey>, q: Routes, others: seq<RouteKey>)
    requires PlainRoutes(r, keys) && PlainRoutes(q, others)
    requires RouteItems(r, keys) == RouteItems(q, others)
    ensures SameRoutes(r, keys, q, others)
  {
    forall i | 0 <= i < |keys| ensures RouteFields(r[keys[i]]) == RouteFields(q[others[i]]) {
      assert RouteItems(r, keys)[i] == RouteItems(q, others)[i];
      RouteIsItsOwn(r[keys[i]], q[others[i]]);
    }
  }

  // -------------------------------------------------------------------------
  // Certificates
  // -------------------------------------------------------------------------

  predicate PlainHosts(hosts: seq<string>) {
    forall h :: h in hosts ==> PlainHost(h) && |Utf8(h)| < TEBIBYTE
  }

  lemma HostCode(sni: Sni, h: string)
    requires h in sni
    ensures Stream(HostFields(sni, h)) == TextCode(Utf8(h)) + WordCode(sni[h].handleId)
  {
    var fields := HostFields(sni, h);
    assert fields[1..] == [Word(sni[h].handleId)] && fields[1..][1..] == [];
    assert Stream(fields[1..]) == WordCode(sni[h].handleId) + Stream([]);
  }

  lemma HostIsItsOwn(s: Sni, h: string, t: Sni, g: string)
    requires h in s && g in t && |Utf8(h)| < TEBIBYTE && |Utf8(g)| < TEBIBYTE
    requires Stream(HostFields(s, h)) <= Stream(HostFields(t, g))
    ensures h == g && s[h].handleId == t[g].handleId
  {
    var a, b := HostFields(s, h), HostFields(t, g);
    var u := Resumes(Stream(a), Stream(b));
    assert Stream(b) + [] == Stream(b);
    StreamPrefixFree(a, b, u, []);
    assert a[0] == b[0] && a[1] == b[1];
    Utf8Injective(h, g);
  }

  ghost predicate HostsIn(sni: Sni, hosts: seq<string>) {
    forall h :: h in hosts ==> h in sni
  }

  lemma HostItemsPrefixFree(s: Sni, hosts: seq<string>, t: Sni, others: seq<string>)
    requires HostsIn(s, hosts) && HostsIn(t, others) && PlainHosts(hosts) && PlainHosts(others)
    ensures PrefixFree(HostItems(s, hosts), HostItems(t, others))
  {
    var xs, ys := HostItems(s, hosts), HostItems(t, others);
    forall x, y | x in xs && y in ys && (x <= y || y <= x) ensures x == y {
      var i :| 0 <= i < |xs| && xs[i] == x;
      var j :| 0 <= j < |ys| && ys[j] == y;
      assert hosts[i] in hosts && others[j] in others;
      if x <= y {
        HostIsItsOwn(s, hosts[i], t, others[j]);
      } else {
        HostIsItsOwn(t, others[j], s, hosts[i]);
      }
    }
  }

  lemma HostsTail(sni: Sni, hosts: seq<string>, x: seq<byte>)
    requires HostsIn(sni, hosts) && PlainHosts(hosts) && CertTail(x)
    ensures SniTail(Join(HostItems(sni, hosts)) + x)
  {
    var items := HostItems(sni, hosts);
    if hosts == [] {
      assert Join(items) + x == x;
    } else {
      assert hosts[0] in hosts;
      HostIsPlain(hosts[0]);
      HostCode(sni, hosts[0]);
      var z := Join(items) + x;
      assert TextCode(Utf8(hosts[0])) <= items[0] <= Join(items) <= z;
    }
  }

  lemma HostApart(sni: Sni, h: string, more: seq<string>, x: seq<byte>, y: seq<byte>)
    requires h in sni && HostsIn(sni, more) && PlainHosts([h]) && PlainHosts(more) && CertTail(x) && CertTail(y)
    ensures Stream(HostFields(sni, h)) + Join(HostItems(sni, more)) + x != y
  {
    var rest := Join(HostItems(sni, more)) + x;
    assert h in [h];
    HostsTail(sni, more, x);
    ZeroEarly(rest);
    HostCode(sni, h);
    HostIsPlain(h);
    ConcatAssociative(Stream(HostFields(sni, h)), Join(HostItems(sni, more)), x);
    HostIsNoTarget(Utf8(h), WordCode(sni[h].handleId), rest, y);
  }

  lemma LaterHosts(sni: Sni, hosts: seq<string>, i: nat)
    requires HostsIn(sni, hosts) && i < |hosts|
    ensures HostsIn(sni, hosts[i + 1..]) && HostItems(sni, hosts)[i + 1..] == HostItems(sni, hosts[i + 1..])
  {
    var items, more := HostItems(sni, hosts), hosts[i + 1..];
    assert forall j :: 0 <= j < |more| ==> more[j] == hosts[i + 1 + j];
  }

  lemma HostItemsApart(sni: Sni, hosts: seq<string>, x: seq<byte>, y: seq<byte>)
    requires HostsIn(sni, hosts) && PlainHosts(hosts) && CertTail(x) && CertTail(y)
    ensures Apart(HostItems(sni, hosts), x, y)
  {
    var items := HostItems(sni, hosts);
    forall i | 0 <= i < |items| ensures Join(items[i..]) + x != y {
      var h, more := hosts[i], hosts[i + 1..];
      assert h in hosts && forall g :: g in more ==> g in hosts;
      LaterHosts(sni, hosts, i);
      assert items[i..][1..] == items[i + 1..];
      HostApart(sni, h, more, x, y);
    }
  }

  lemma SameHostItems(s: Sni, hosts: seq<string>, t: Sni, others: seq<string>)
    requires HostsIn(s, hosts) && HostsIn(t, others) && PlainHosts(hosts) && PlainHosts(others)
    requires HostItems(s, hosts) == HostItems(t, others)
    ensures hosts == others && forall h :: h in hosts ==> s[h].handleId == t[h].handleId
  {
    forall i | 0 <= i < |hosts| ensures hosts[i] == others[i] && s[hosts[i]].handleId == t[hosts[i]].handleId {
      assert HostItems(s, hosts)[i] == HostItems(t, others)[i];
      HostIsItsOwn(s, hosts[i], t, others[i]);
    }
  }

  function DefaultCode(default: Option<u64>): seq<byte> {
    match default case None => [] case Some(id) => WordCode(id)
  }

  lemma DefaultTail(default: Option<u64>, x: seq<byte>)
    requires TargetTail(x)
    ensures CertTail(DefaultCode(default) + x)
  {
    var z := DefaultCode(default) + x;
    if default.None? {
      assert z == x;
    } else {
      assert z[8..] == x;
    }
  }

  lemma DefaultReadsBack(a: Option<u64>, b: Option<u64>, x: seq<byte>, y: seq<byte>)
    requires TargetTail(x) && TargetTail(y)
    requires DefaultCode(a) + x == DefaultCode(b) + y
    ensures a == b && x == y
  {
    assert [] + x == x && [] + y == y;
    if a.Some? && b.Some? {
      WordPrefixFree(a.value, b.value, x, y);
    } else if a.Some? {
      HandleIsNoTarget(WordCode(a.value), x, y);
    } else if b.Some? {
      HandleIsNoTarget(WordCode(b.value), y, x);
    }
  }

  // -------------------------------------------------------------------------
  // Promotion targets
  // -------------------------------------------------------------------------

  predicate PlainPlace(r: PromotionRoute) {
    PlainHost(r.host) && Short(ReportedPlace(r))
  }

  predicate PlainTarget(show: RealPrinter, t: PromotionTarget) {
    && PlainKey(t.ingress) && Short(PolicyFields(show, t))
    && forall r :: r in t.routes ==> PlainPlace(r)
  }

  predicate PlainTargets(show: RealPrinter, ts: seq<PromotionTarget>) {
    forall t :: t in ts ==> PlainTarget(show, t)
  }

  lemma PlaceIsItsOwn(a: PromotionRoute, b: PromotionRoute)
    requires PlainPlace(a) && PlainPlace(b) && Stream(ReportedPlace(a)) <= Stream(ReportedPlace(b))
    ensures a == b
  {
    var f, g := ReportedPlace(a), ReportedPlace(b);
    var u := Resumes(Stream(f), Stream(g));
    assert Stream(g) + [] == Stream(g);
    assert f[0] in f && f[1] in f && g[0] in g && g[1] in g;
    StreamPrefixFree(f, g, u, []);
    assert f[0] == g[0] && f[1] == g[1] && f[2] == g[2];
    Utf8Injective(a.host, b.host);
    Utf8Injective(a.path, b.path);
  }

  predicate PlainPlaces(routes: seq<PromotionRoute>) {
    forall r :: r in routes ==> PlainPlace(r)
  }

  lemma PlaceItemsPrefixFree(a: seq<PromotionRoute>, b: seq<PromotionRoute>)
    requires PlainPlaces(a) && PlainPlaces(b)
    ensures PrefixFree(PlaceItems(a), PlaceItems(b))
  {
    var xs, ys := PlaceItems(a), PlaceItems(b);
    forall x, y | x in xs && y in ys && (x <= y || y <= x) ensures x == y {
      var i :| 0 <= i < |xs| && xs[i] == x;
      var j :| 0 <= j < |ys| && ys[j] == y;
      assert a[i] in a && b[j] in b;
      if x <= y {
        PlaceIsItsOwn(a[i], b[j]);
      } else {
        PlaceIsItsOwn(b[j], a[i]);
      }
    }
  }

  /** The next target's name holds a slash, which no host does. */
  lemma PlaceItemsApart(routes: seq<PromotionRoute>, x: seq<byte>, y: seq<byte>)
    requires PlainPlaces(routes) && TargetTail(y)
    ensures Apart(PlaceItems(routes), x, y)
  {
    var items := PlaceItems(routes);
    forall item | item in items ensures !(item <= y) {
      var i :| 0 <= i < |items| && items[i] == item;
      var fields := ReportedPlace(routes[i]);
      assert routes[i] in routes && fields[0] in fields;
      HostIsPlain(routes[i].host);
      assert fields[0].Code() <= item;
      if y != [] {
        var k := TargetTailCase(y);
        DifferentTexts(Utf8(routes[i].host), k, y);
      }
    }
    ApartByItem(items, x, y);
  }

  lemma SamePlaceItems(a: seq<PromotionRoute>, b: seq<PromotionRoute>)
    requires PlainPlaces(a) && PlainPlaces(b) && PlaceItems(a) == PlaceItems(b)
    ensures a == b
  {
    assert |a| == |PlaceItems(a)| == |PlaceItems(b)| == |b|;
    forall i | 0 <= i < |a| ensures a[i] == b[i] {
      assert PlaceItems(a)[i] == PlaceItems(b)[i];
      assert a[i] in a && b[i] in b;
      PlaceIsItsOwn(a[i], b[i]);
    }
  }

  function TargetBytes(show: RealPrinter, ts: seq<PromotionTarget>): seq<byte> {
    Stream(TargetsFields(show, ts))
  }

  /** The first target's bytes: its policy, its routes, then the other targets. */
  lemma FirstTarget(show: RealPrinter, ts: seq<PromotionTarget>)
    requires ts != []
    ensures TargetBytes(show, ts)
         == Stream(PolicyFields(show, ts[0])) + (Join(PlaceItems(ts[0].routes)) + TargetBytes(show, ts[1..]))
  {
    var t, more := ts[0], ts[1..];
    assert ts == [t] + more;
    TargetsFieldsConcat(show, [t], more);
    OneTargetFields(show, [], t);
    assert [] + [t] == [t] && TargetsFields(show, []) + TargetFields(show, t) == TargetFields(show, t);
    StreamConcat(TargetFields(show, t), TargetsFields(show, more));
    StreamConcat(PolicyFields(show, t), RouteListFields(t.routes));
    PlacesJoin(t.routes);
    ConcatAssociative(Stream(PolicyFields(show, t)), Join(PlaceItems(t.routes)), TargetBytes(show, more));
  }

  lemma TargetsTail(show: RealPrinter, ts: seq<PromotionTarget>)
    requires PlainTargets(show, ts)
    ensures TargetTail(TargetBytes(show, ts)) && (ts != [] ==> TargetBytes(show, ts) != [])
  {
    if ts != [] {
      FirstTarget(show, ts);
      assert ts[0] in ts;
      KeyIsPlain(ts[0].ingress);
      var fields := PolicyFields(show, ts[0]);
      assert fields[0].Code() <= Stream(fields) <= TargetBytes(show, ts);
      assert fields[0].Code() == TextCode(Utf8(KeyText(ts[0].ingress)));
    }
  }

  lemma PolicyShapes(show: RealPrinter, a: PromotionTarget, b: PromotionTarget)
    requires Short(PolicyFields(show, a)) && Short(PolicyFields(show, b))
    ensures SameShapes(PolicyFields(show, a), PolicyFields(show, b))
  {
    var f, g := PolicyFields(show, a), PolicyFields(show, b);
    forall i | 0 <= i < 8 ensures f[i].SameShape(g[i]) && f[i].Bounded() && g[i].Bounded() {
      assert f[i] in f && g[i] in g;
    }
  }

  /** The same routes, and the same digested policy, target by target. */
  ghost predicate SameTargets(show: RealPrinter, a: seq<PromotionTarget>, b: seq<PromotionTarget>) {
    && |a| == |b|
    && forall i :: 0 <= i < |a| ==> a[i].routes == b[i].routes && PolicyFields(show, a[i]) == PolicyFields(show, b[i])
  }

  lemma OneTargetReadsBack(show: RealPrinter, a: PromotionTarget, b: PromotionTarget, x: seq<byte>, y: seq<byte>)
    requires PlainTarget(show, a) && PlainTarget(show, b) && TargetTail(x) && TargetTail(y)
    requires Stream(PolicyFields(show, a)) + (Join(PlaceItems(a.routes)) + x)
          == Stream(PolicyFields(show, b)) + (Join(PlaceItems(b.routes)) + y)
    ensures a.routes == b.routes && PolicyFields(show, a) == PolicyFields(show, b) && x == y
  {
    var p, q := Join(PlaceItems(a.routes)) + x, Join(PlaceItems(b.routes)) + y;
    PolicyShapes(show, a, b);
    StreamPrefixFree(PolicyFields(show, a), PolicyFields(show, b), p, q);
    PlaceItemsPrefixFree(a.routes, b.routes);
    PlaceItemsApart(a.routes, x, y);
    PlaceItemsApart(b.routes, y, x);
    ListsReadBack(PlaceItems(a.routes), PlaceItems(b.routes), x, y);
    SamePlaceItems(a.routes, b.routes);
  }

  lemma FirstTargetReadsBack(show: RealPrinter, a: seq<PromotionTarget>, b: seq<PromotionTarget>)
    requires a != [] && b != [] && PlainTargets(show, a) && PlainTargets(show, b)
    requires TargetBytes(show, a) == TargetBytes(show, b)
    ensures a[0].routes == b[0].routes && PolicyFields(show, a[0]) == PolicyFields(show, b[0])
    ensures PlainTargets(show, a[1..]) && PlainTargets(show, b[1..])
    ensures TargetBytes(show, a[1..]) == TargetBytes(show, b[1..])
  {
    FirstTarget(show, a);
    FirstTarget(show, b);
    assert a[0] in a && b[0] in b;
    assert forall t :: (t in a[1..] ==> t in a) && (t in b[1..] ==> t in b);
    TargetsTail(show, a[1..]);
    TargetsTail(show, b[1..]);
    OneTargetReadsBack(show, a[0], b[0], TargetBytes(show, a[1..]), TargetBytes(show, b[1..]));
  }

  lemma MoreTargets(show: RealPrinter, a: seq<PromotionTarget>, b: seq<PromotionTarget>)
    requires a != [] && b != [] && SameTargets(show, a[1..], b[1..])
    requires a[0].routes == b[0].routes && PolicyFields(show, a[0]) == PolicyFields(show, b[0])
    ensures SameTargets(show, a, b)
  {
    forall i | 0 <= i < |a| ensures a[i].routes == b[i].routes && PolicyFields(show, a[i]) == PolicyFields(show, b[i]) {
      if i > 0 {
        assert a[i] == a[1..][i - 1] && b[i] == b[1..][i - 1];
      }
    }
  }

  lemma {:induction false} TargetsReadBack(show: RealPrinter, a: seq<PromotionTarget>, b: seq<PromotionTarget>)
    requires PlainTargets(show, a) && PlainTargets(show, b)
    requires TargetBytes(show, a) == TargetBytes(show, b)
    ensures SameTargets(show, a, b)
  {
    if a == [] || b == [] {
      TargetsTail(show, a);
      TargetsTail(show, b);
    } else {
      FirstTargetReadsBack(show, a, b);
      TargetsReadBack(show, a[1..], b[1..]);
      MoreTargets(show, a, b);
    }
  }

  lemma {:induction false} TargetsAgree(show: RealPrinter, a: seq<PromotionTarget>, b: seq<PromotionTarget>)
    requires SameTargets(show, a, b)
    ensures TargetsFields(show, a) == TargetsFields(show, b)
  {
    if a != [] {
      TargetsAgree(show, a[..|a| - 1], b[..|b| - 1]);
    }
  }

  // -------------------------------------------------------------------------
  // The whole plan
  // -------------------------------------------------------------------------

  /** What a plan's digest is the hash of. */
  ghost function PlanStream(fmt: Formats, lb: LbPolicy, p: Plan): seq<byte> {
    Stream(BackendsFields(fmt.showAddress, lb, p.backends) + FieldsAfterBackends(fmt, p))
  }

  ghost function HostOrder(p: CertPlan): (hosts: seq<string>)
    ensures HostsIn(p.sni, hosts)
  {
    SortedSet(LexLe, p.sni.Keys)
  }

  function DefaultText(default: Option<ServiceRef>): Option<seq<byte>> {
    DefaultField(default).opt
  }

  lemma DefaultFieldCode(default: Option<ServiceRef>)
    ensures DefaultField(default) == OptText(DefaultText(default)) && DefaultField(default).Code() == OptTextCode(DefaultText(default))
  {
  }

  ghost function BytesAfterRoutes(fmt: Formats, p: Plan): seq<byte> {
    Join(HostItems(p.certs.sni, HostOrder(p.certs))) + (DefaultCode(p.certs.defaultCert) + TargetBytes(fmt.showReal, p.targets))
  }

  ghost function BytesAfterBackends(fmt: Formats, p: Plan): seq<byte> {
    Join(RouteItems(p.routes, RouteOrderOf(p.routes))) + (OptTextCode(DefaultText(p.defaultBackend)) + BytesAfterRoutes(fmt, p))
  }

  function DefaultFields(default: Option<u64>): seq<Field> {
    match default case None => [] case Some(id) => [Word(id)]
  }

  lemma DefaultFieldsCode(default: Option<u64>)
    ensures Stream(DefaultFields(default)) == DefaultCode(default)
  {
    if default.Some? {
      OneMoreCode([], Word(default.value));
      assert [] + [Word(default.value)] == DefaultFields(default) && Stream([]) + WordCode(default.value) == WordCode(default.value);
    }
  }

  lemma CertBytes(p: CertPlan)
    ensures Stream(CertFields(p)) == Join(HostItems(p.sni, HostOrder(p))) + DefaultCode(p.defaultCert)
  {
    HostsJoin(p.sni, HostOrder(p));
    DefaultFieldsCode(p.defaultCert);
    StreamConcat(SniFields(p.sni, HostOrder(p)), DefaultFields(p.defaultCert));
    assert CertFields(p) == SniFields(p.sni, HostOrder(p)) + DefaultFields(p.defaultCert);
  }

  lemma OneMoreCode(a: seq<Field>, b: Field)
    ensures Stream(a + [b]) == Stream(a) + b.Code()
  {
    StreamConcat(a, [b]);
    assert [b][1..] == [];
    assert Stream([b]) == b.Code() + Stream([b][1..]);
  }

  lemma StreamOfFour(a: seq<Field>, b: Field, c: seq<Field>, d: seq<Field>)
    ensures Stream(a + [b] + c + d) == Stream(a) + (b.Code() + (Stream(c) + Stream(d)))
  {
    calc {
      Stream(a + [b] + c + d);
      { StreamConcat(a + [b] + c, d); }
      Stream(a + [b] + c) + Stream(d);
      { StreamConcat(a + [b], c); }
      Stream(a + [b]) + Stream(c) + Stream(d);
      { OneMoreCode(a, b); }
      Stream(a) + b.Code() + Stream(c) + Stream(d);
      { RegroupFour(Stream(a), b.Code(), Stream(c), Stream(d)); }
      Stream(a) + (b.Code() + (Stream(c) + Stream(d)));
    }
  }

  lemma RegroupFour(a: seq<byte>, b: seq<byte>, c: seq<byte>, d: seq<byte>)
    ensures a + b + c + d == a + (b + (c + d))
  {
  }

  lemma RestSplits(fmt: Formats, p: Plan)
    ensures Stream(FieldsAfterBackends(fmt, p)) == BytesAfterBackends(fmt, p)
  {
    var routes, certs, targets := RoutesFields(p.routes, RouteOrderOf(p.routes)), CertFields(p.certs),
                                  TargetsFields(fmt.showReal, p.targets);
    DefaultFieldCode(p.defaultBackend);
    StreamOfFour(routes, DefaultField(p.defaultBackend), certs, targets);
    RoutesJoin(p.routes, RouteOrderOf(p.routes));
    CertBytes(p.certs);
    ConcatAssociative(Join(HostItems(p.certs.sni, HostOrder(p.certs))), DefaultCode(p.certs.defaultCert), Stream(targets));
  }

  lemma PlanSplits(fmt: Formats, lb: LbPolicy, p: Plan)
    ensures PlanStream(fmt, lb, p) == Join(BackendItems(fmt.showAddress, lb, p.backends)) + BytesAfterBackends(fmt, p)
  {
    StreamConcat(BackendsFields(fmt.showAddress, lb, p.backends), FieldsAfterBackends(fmt, p));
    BackendsJoin(fmt.showAddress, lb, p.backends);
    RestSplits(fmt, p);
  }

  /**
   * Objects named as the API server lets them be named: paths start with a
   * slash, hosts hold none, an Ingress has a namespace and a name, and nothing
   * holds a NUL or a tebibyte of text.
   */
  ghost predicate PlainPlan(fmt: Formats, lb: LbPolicy, p: Plan) {
    && PlainBackends(fmt.showAddress, lb, p.backends)
    && PlainRouting(p.routes)
    && (p.defaultBackend.Some? ==> |Utf8(BackendName(p.defaultBackend.value))| < TEBIBYTE)
    && (forall h :: h in p.certs.sni ==> PlainHost(h) && |Utf8(h)| < TEBIBYTE)
    && PlainTargets(fmt.showReal, p.targets)
  }

  lemma AfterRoutesTail(fmt: Formats, lb: LbPolicy, p: Plan)
    requires PlainPlan(fmt, lb, p)
    ensures TargetTail(TargetBytes(fmt.showReal, p.targets))
    ensures CertTail(DefaultCode(p.certs.defaultCert) + TargetBytes(fmt.showReal, p.targets))
    ensures PlainHosts(HostOrder(p.certs)) && SniTail(BytesAfterRoutes(fmt, p))
  {
    TargetsTail(fmt.showReal, p.targets);
    DefaultTail(p.certs.defaultCert, TargetBytes(fmt.showReal, p.targets));
    HostsTail(p.certs.sni, HostOrder(p.certs), DefaultCode(p.certs.defaultCert) + TargetBytes(fmt.showReal, p.targets));
  }

  ghost predicate SameCerts(a: CertPlan, b: CertPlan) {
    && a.sni.Keys == b.sni.Keys && (forall h :: h in a.sni ==> a.sni[h].handleId == b.sni[h].handleId)
    && a.defaultCert == b.defaultCert
  }

  lemma HostsReadBack(s: Sni, hosts: seq<string>, t: Sni, others: seq<string>, x: seq<byte>, y: seq<byte>)
    requires HostsIn(s, hosts) && HostsIn(t, others) && PlainHosts(hosts) && PlainHosts(others) && CertTail(x) && CertTail(y)
    requires Join(HostItems(s, hosts)) + x == Join(HostItems(t, others)) + y
    ensures hosts == others && (forall h :: h in hosts ==> s[h].handleId == t[h].handleId) && x == y
  {
    HostItemsPrefixFree(s, hosts, t, others);
    HostItemsApart(s, hosts, x, y);
    HostItemsApart(t, others, y, x);
    ListsReadBack(HostItems(s, hosts), HostItems(t, others), x, y);
    SameHostItems(s, hosts, t, others);
  }

  lemma SameOrderSameCerts(a: CertPlan, b: CertPlan)
    requires HostOrder(a) == HostOrder(b) && a.defaultCert == b.defaultCert
    requires forall h :: h in HostOrder(a) ==> a.sni[h].handleId == b.sni[h].handleId
    ensures SameCerts(a, b)
  {
    assert forall h :: (h in a.sni <==> h in HostOrder(a)) && (h in b.sni <==> h in HostOrder(b));
  }

  lemma AfterRoutesReadsBack(fmt: Formats, lb: LbPolicy, a: Plan, b: Plan)
    requires PlainPlan(fmt, lb, a) && PlainPlan(fmt, lb, b)
    requires BytesAfterRoutes(fmt, a) == BytesAfterRoutes(fmt, b)
    ensures SameCerts(a.certs, b.certs) && SameTargets(fmt.showReal, a.targets, b.targets)
  {
    var u, v := TargetBytes(fmt.showReal, a.targets), TargetBytes(fmt.showReal, b.targets);
    AfterRoutesTail(fmt, lb, a);
    AfterRoutesTail(fmt, lb, b);
    HostsReadBack(a.certs.sni, HostOrder(a.certs), b.certs.sni, HostOrder(b.certs),
                  DefaultCode(a.certs.defaultCert) + u, DefaultCode(b.certs.defaultCert) + v);
    DefaultReadsBack(a.certs.defaultCert, b.certs.defaultCert, u, v);
    SameOrderSameCerts(a.certs, b.certs);
    TargetsReadBack(fmt.showReal, a.targets, b.targets);
  }

  /** The same keys, and the same digested fields under each. */
  ghost predicate SameRouting(a: Routes, b: Routes) {
    a.Keys == b.Keys && forall k :: k in a ==> RouteFields(a[k]) == RouteFields(b[k])
  }

  lemma KeyReadsBack(a: RoutePlan, b: RoutePlan)
    requires RouteFields(a) == RouteFields(b)
    ensures a.key == b.key
  {
    var f, g := RouteFields(a), RouteFields(b);
    assert f[0] == OptText(OptBytes(a.key.host)) && g[0] == OptText(OptBytes(b.key.host));
    assert f[1] == Text(Utf8(a.key.path)) && g[1] == Text(Utf8(b.key.path));
    assert f[2] == Tag(PathTypeRank(a.key.pathType)) && g[2] == Tag(PathTypeRank(b.key.pathType));
    OptBytesInjective(a.key.host, b.key.host);
    Utf8Injective(a.key.path, b.key.path);
  }

  lemma KeysReadBack(a: Routes, keys: seq<RouteKey>, b: Routes, others: seq<RouteKey>)
    requires (forall k :: k in a ==> a[k].key == k) && (forall k :: k in b ==> b[k].key == k)
    requires PlainRoutes(a, keys) && PlainRoutes(b, others) && SameRoutes(a, keys, b, others)
    ensures keys == others && forall k :: k in keys ==> RouteFields(a[k]) == RouteFields(b[k])
  {
    forall i | 0 <= i < |keys| ensures keys[i] == others[i] {
      KeyReadsBack(a[keys[i]], b[others[i]]);
    }
  }

  lemma SameOrderSameKeys(a: Routes, b: Routes)
    requires RouteOrderOf(a) == RouteOrderOf(b)
    ensures a.Keys == b.Keys && forall k :: k in a ==> k in RouteOrderOf(a)
  {
    assert forall k :: (k in a <==> k in RouteOrderOf(a)) && (k in b <==> k in RouteOrderOf(b));
  }

  lemma DefaultBounded(fmt: Formats, lb: LbPolicy, p: Plan)
    requires PlainPlan(fmt, lb, p)
    ensures Fits(DefaultText(p.defaultBackend))
    ensures var o := DefaultText(p.defaultBackend); o.Some? ==> |o.value| < TEBIBYTE
  {
  }

  lemma RoutesReadBack(a: Routes, keys: seq<RouteKey>, b: Routes, others: seq<RouteKey>,
                       d: Option<seq<byte>>, e: Option<seq<byte>>, u: seq<byte>, v: seq<byte>)
    requires PlainRoutes(a, keys) && PlainRoutes(b, others) && Fits(d) && Fits(e) && SniTail(u) && SniTail(v)
    requires Join(RouteItems(a, keys)) + (OptTextCode(d) + u) == Join(RouteItems(b, others)) + (OptTextCode(e) + v)
    ensures SameRoutes(a, keys, b, others) && d == e && u == v
  {
    RouteItemsPrefixFree(a, keys, b, others);
    RouteItemsApart(a, keys, OptTextCode(d) + u, e, v);
    RouteItemsApart(b, others, OptTextCode(e) + v, d, u);
    ListsReadBack(RouteItems(a, keys), RouteItems(b, others), OptTextCode(d) + u, OptTextCode(e) + v);
    SameRouteItems(a, keys, b, others);
    OptTextPrefixFree(d, e, u, v);
  }

  /** Each route is filed under its own key. */
  ghost predicate PlainRouting(routes: Routes) {
    forall k :: k in routes ==> routes[k].key == k && PlainRoute(routes[k])
  }

  lemma OrderIsPlain(routes: Routes)
    requires PlainRouting(routes)
    ensures PlainRoutes(routes, RouteOrderOf(routes)) && forall k :: k in routes ==> routes[k].key == k
  {
  }

  lemma RoutingReadsBack(a: Routes, b: Routes, d: Option<seq<byte>>, e: Option<seq<byte>>, u: seq<byte>, v: seq<byte>)
    requires PlainRouting(a) && PlainRouting(b) && Fits(d) && Fits(e) && SniTail(u) && SniTail(v)
    requires Join(RouteItems(a, RouteOrderOf(a))) + (OptTextCode(d) + u) == Join(RouteItems(b, RouteOrderOf(b))) + (OptTextCode(e) + v)
    ensures SameRouting(a, b) && d == e && u == v
  {
    OrderIsPlain(a);
    OrderIsPlain(b);
    RoutesReadBack(a, RouteOrderOf(a), b, RouteOrderOf(b), d, e, u, v);
    KeysReadBack(a, RouteOrderOf(a), b, RouteOrderOf(b));
    SameOrderSameKeys(a, b);
  }

  lemma AfterBackendsReadsBack(fmt: Formats, lb: LbPolicy, a: Plan, b: Plan)
    requires PlainPlan(fmt, lb, a) && PlainPlan(fmt, lb, b)
    requires BytesAfterBackends(fmt, a) == BytesAfterBackends(fmt, b)
    ensures SameRouting(a.routes, b.routes) && DefaultField(a.defaultBackend) == DefaultField(b.defaultBackend)
    ensures BytesAfterRoutes(fmt, a) == BytesAfterRoutes(fmt, b)
  {
    AfterRoutesTail(fmt, lb, a);
    AfterRoutesTail(fmt, lb, b);
    DefaultBounded(fmt, lb, a);
    DefaultBounded(fmt, lb, b);
    DefaultFieldCode(a.defaultBackend);
    DefaultFieldCode(b.defaultBackend);
    RoutingReadsBack(a.routes, b.routes, DefaultText(a.defaultBackend), DefaultText(b.defaultBackend),
                     BytesAfterRoutes(fmt, a), BytesAfterRoutes(fmt, b));
  }

  /** After the backends come a route's host and path, or the default backend and what follows it. */
  lemma RoutesTail(routes: Routes, keys: seq<RouteKey>, d: Option<seq<byte>>, u: seq<byte>) returns (o: Option<seq<byte>>, t: seq<byte>)
    requires PlainRoutes(routes, keys) && (d.Some? ==> |d.value| < TEBIBYTE) && SniTail(u)
    ensures Join(RouteItems(routes, keys)) + (OptTextCode(d) + u) == OptTextCode(o) + t
    ensures (o.Some? ==> |o.value| < TEBIBYTE) && (SniTail(t) || PathTail(t))
  {
    var items, rest := RouteItems(routes, keys), OptTextCode(d) + u;
    if keys == [] {
      assert Join(items) + rest == rest;
      o, t := d, u;
    } else {
      var first := routes[keys[0]];
      assert keys[0] in keys;
      ConcatAssociative(items[0], Join(items[1..]), rest);
      var more := RouteSpelled(first, Join(items[1..]) + rest);
      PlainRouteBytes(first);
      o := OptBytes(first.key.host);
      t := Spelled(Utf8(first.key.path), PathTypeRank(first.key.pathType), Utf8(BackendName(first.backend)), more);
      assert TextCode(Utf8(first.key.path)) <= t;
    }
  }

  lemma AfterBackendsTail(fmt: Formats, lb: LbPolicy, p: Plan) returns (o: Option<seq<byte>>, t: seq<byte>)
    requires PlainPlan(fmt, lb, p)
    ensures BytesAfterBackends(fmt, p) == OptTextCode(o) + t
    ensures (o.Some? ==> |o.value| < TEBIBYTE) && (SniTail(t) || PathTail(t))
  {
    AfterRoutesTail(fmt, lb, p);
    DefaultBounded(fmt, lb, p);
    OrderIsPlain(p.routes);
    o, t := RoutesTail(p.routes, RouteOrderOf(p.routes), DefaultText(p.defaultBackend), BytesAfterRoutes(fmt, p));
  }

  lemma BackendsReadBack(fmt: Formats, lb: LbPolicy, a: Plan, b: Plan)
    requires PlainPlan(fmt, lb, a) && PlainPlan(fmt, lb, b)
    requires PlanStream(fmt, lb, a) == PlanStream(fmt, lb, b)
    ensures SameBackends(fmt.showAddress, lb, a.backends, b.backends)
    ensures BytesAfterBackends(fmt, a) == BytesAfterBackends(fmt, b)
  {
    PlanSplits(fmt, lb, a);
    PlanSplits(fmt, lb, b);
    var xs, ys := BackendItems(fmt.showAddress, lb, a.backends), BackendItems(fmt.showAddress, lb, b.backends);
    var x, y := BytesAfterBackends(fmt, a), BytesAfterBackends(fmt, b);
    var o, t := AfterBackendsTail(fmt, lb, b);
    BackendItemsApart(fmt.showAddress, lb, a.backends, x, o, t);
    o, t := AfterBackendsTail(fmt, lb, a);
    BackendItemsApart(fmt.showAddress, lb, b.backends, y, o, t);
    BackendItemsPrefixFree(fmt.showAddress, lb, a.backends, b.backends);
    ListsReadBack(xs, ys, x, y);
    SameBackendItems(fmt.showAddress, lb, a.backends, b.backends);
  }

  /** Everything the digest is meant to cover agrees, section by section. */
  ghost predicate SameContent(fmt: Formats, lb: LbPolicy, a: Plan, b: Plan) {
    && SameBackends(fmt.showAddress, lb, a.backends, b.backends)
    && SameRouting(a.routes, b.routes)
    && DefaultField(a.defaultBackend) == DefaultField(b.defaultBackend)
    && SameCerts(a.certs, b.certs)
    && SameTargets(fmt.showReal, a.targets, b.targets)
  }

  lemma {:induction false} BackendsAgree(show: AddressPrinter, lb: LbPolicy, a: seq<Registered>, b: seq<Registered>)
    requires SameBackends(show, lb, a, b)
    ensures BackendsFields(show, lb, a) == BackendsFields(show, lb, b)
  {
    if a != [] {
      BackendsAgree(show, lb, a[..|a| - 1], b[..|b| - 1]);
    }
  }

  lemma {:induction false} RoutesAgree(a: Routes, b: Routes, keys: seq<RouteKey>)
    requires SameRouting(a, b) && forall k :: k in keys ==> k in a
    ensures RoutesFields(a, keys) == RoutesFields(b, keys)
  {
    if keys != [] {
      RoutesAgree(a, b, keys[..|keys| - 1]);
    }
  }

  lemma {:induction false} HostsAgree(s: Sni, t: Sni, hosts: seq<string>)
    requires forall h :: h in hosts ==> h in s && h in t && s[h].handleId == t[h].handleId
    ensures SniFields(s, hosts) == SniFields(t, hosts)
  {
    if hosts != [] {
      HostsAgree(s, t, hosts[..|hosts| - 1]);
    }
  }

  lemma RoutingAgrees(a: Routes, b: Routes)
    requires SameRouting(a, b)
    ensures RoutesFields(a, RouteOrderOf(a)) == RoutesFields(b, RouteOrderOf(b))
  {
    assert RouteOrderOf(a) == RouteOrderOf(b);
    RoutesAgree(a, b, RouteOrderOf(a));
  }

  lemma CertsAgree(a: CertPlan, b: CertPlan)
    requires SameCerts(a, b)
    ensures CertFields(a) == CertFields(b)
  {
    assert HostOrder(a) == HostOrder(b);
    HostsAgree(a.sni, b.sni, HostOrder(a));
  }

  lemma ContentAgrees(fmt: Formats, lb: LbPolicy, a: Plan, b: Plan)
    requires SameContent(fmt, lb, a, b)
    ensures PlanStream(fmt, lb, a) == PlanStream(fmt, lb, b)
  {
    BackendsAgree(fmt.showAddress, lb, a.backends, b.backends);
    RoutingAgrees(a.routes, b.routes);
    CertsAgree(a.certs, b.certs);
    TargetsAgree(fmt.showReal, a.targets, b.targets);
  }

  /**
   * Two plans over objects named as the API server lets them be named share a
   * digest stream exactly when all that is digested agrees: however many
   * backends, routes, certificates and targets either has, no section can be
   * read as part of another.
   */
  lemma PlanReadsBack(fmt: Formats, lb: LbPolicy, a: Plan, b: Plan)
    requires PlainPlan(fmt, lb, a) && PlainPlan(fmt, lb, b)
    ensures PlanStream(fmt, lb, a) == PlanStream(fmt, lb, b) <==> SameContent(fmt, lb, a, b)
    ensures DigestOf(fmt, lb, a) == Fnv(FNV_OFFSET, PlanStream(fmt, lb, a))
  {
    if PlanStream(fmt, lb, a) == PlanStream(fmt, lb, b) {
      BackendsReadBack(fmt, lb, a, b);
      AfterBackendsReadsBack(fmt, lb, a, b);
      AfterRoutesReadsBack(fmt, lb, a, b);
    }
    if SameContent(fmt, lb, a, b) {
      ContentAgrees(fmt, lb, a, b);
    }
  }

  // -------------------------------------------------------------------------
  // Why the names matter
  // -------------------------------------------------------------------------

  const NOBODY := ObjectKey("", "")
  const ROOT := RouteKey(None, "/", Exact)
  const UNNAMED := ServiceRef("", "s", Name("p"))
  const ONE_ROUTE: Routes := map[ROOT := RoutePlan(ROOT, UNNAMED, NOBODY, Http1, None, None)]
  // A certificate for a host spelled as that route's path, and a default certificate.
  const ONE_HOST: Sni := map["/" := Holder(0x400, NOBODY)]
  const HANDLE: u64 := 0x70_3a73_2f00

  function Routed(backends: seq<Registered>): Plan {
    Plan([], ONE_ROUTE, None, backends, CertPlan(map[], map[], None), [])
  }

  function Certified(backends: seq<Registered>): Plan {
    Plan([], map[], None, backends, CertPlan(ONE_HOST, map[], Some(HANDLE)), [])
  }

  lemma WordBytes(v: nat)
    ensures WordCode(v) == [v % 256, v / 256 % 256, v / 0x1_0000 % 256, v / 0x100_0000 % 256, v / 0x1_0000_0000 % 256,
                            v / 0x100_0000_0000 % 256, v / 0x1_0000_0000_0000 % 256, v / 0x100_0000_0000_0000 % 256]
  {
    var w1, w2, w3 := v / 256, v / 0x1_0000, v / 0x100_0000;
    var w4, w5, w6, w7 := v / 0x1_0000_0000, v / 0x100_0000_0000, v / 0x1_0000_0000_0000, v / 0x100_0000_0000_0000;
    assert w2 == w1 / 256 && w3 == w2 / 256 && w4 == w3 / 256 && w5 == w4 / 256 && w6 == w5 / 256 && w7 == w6 / 256;
    assert LeBytes(w7, 1) == [w7 % 256] + LeBytes(w7 / 256, 0);
    assert LeBytes(w6, 2) == [w6 % 256] + LeBytes(w7, 1);
    assert LeBytes(w5, 3) == [w5 % 256] + LeBytes(w6, 2);
    assert LeBytes(w4, 4) == [w4 % 256] + LeBytes(w5, 3);
    assert LeBytes(w3, 5) == [w3 % 256] + LeBytes(w4, 4);
    assert LeBytes(w2, 6) == [w2 % 256] + LeBytes(w3, 5);
    assert LeBytes(w1, 7) == [w1 % 256] + LeBytes(w2, 6);
    assert LeBytes(v, 8) == [v % 256] + LeBytes(w1, 7);
  }

  lemma Utf8OfRoot()
    ensures Utf8("/") == [0x2F]
  {
    assert Utf8("/") == Utf8Char('/') + Utf8("/"[1..]);
  }

  lemma Utf8OfName()
    ensures Utf8(BackendName(UNNAMED)) == NAME_BYTES
  {
    var s := "/s:p";
    assert BackendName(UNNAMED) == s;
    assert s[1..] == "s:p" && s[1..][1..] == ":p" && s[1..][1..][1..] == "p" && s[1..][1..][1..][1..] == "";
    assert Utf8("p") == [0x70];
    assert Utf8(":p") == [0x3A] + Utf8("p");
    assert Utf8("s:p") == [0x73] + Utf8(":p");
    assert Utf8(s) == [0x2F] + Utf8("s:p");
  }

  lemma OneRouteInOrder()
    ensures RouteOrderOf(ONE_ROUTE) == [ROOT]
  {
    var keys := RouteOrderOf(ONE_ROUTE);
    assert |ONE_ROUTE| == 1;
    assert keys[0] in ONE_ROUTE;
  }

  lemma NoRoutesInOrder()
    ensures RouteOrderOf(map[]) == []
  {
  }

  lemma OneHostInOrder(p: CertPlan)
    requires p.sni == ONE_HOST
    ensures HostOrder(p) == ["/"]
  {
    var hosts := HostOrder(p);
    assert |p.sni.Keys| == |p.sni| == 1;
    assert hosts[0] in p.sni.Keys;
  }

  /** The bytes both plans leave behind their backends. */
  function SharedBytes(): seq<byte> {
    [0] + (TextCode([0x2F]) + (WordCode(0x400) + WordCode(HANDLE)))
  }

  lemma JoinSingle(item: seq<byte>)
    ensures Join([item]) == item
  {
    JoinOne([], item);
    assert [] + [item] == [item];
  }

  lemma TwoAbsent(z: seq<byte>)
    ensures Stream([Tag(0), Tag(0)]) + z == [0, 0] + z
  {
    OneMoreCode([Tag(0)], Tag(0));
    OneMoreCode([], Tag(0));
    assert [] + [Tag(0)] == [Tag(0)] && [Tag(0)] + [Tag(0)] == [Tag(0), Tag(0)];
  }

  const ZEROS: seq<byte> := [0, 0, 0, 0, 0, 0]
  const NAME_BYTES: seq<byte> := [0x2F, 0x73, 0x3A, 0x70]

  lemma WordOfFour()
    ensures WordCode(4) == [4] + ZEROS + [0]
  {
    WordBytes(4);
  }

  lemma WordOfHost()
    ensures WordCode(0x400) == [0] + [4] + ZEROS
  {
    WordBytes(0x400);
  }

  lemma WordOfHandle()
    ensures WordCode(HANDLE) == [0] + NAME_BYTES + [0, 0, 0]
  {
    WordBytes(HANDLE);
  }

  /** A path type and a name of four bytes, against two handles. */
  lemma TwoHandles()
    ensures [0] + (TextCode(NAME_BYTES) + [0, 0, 0]) == WordCode(0x400) + WordCode(HANDLE)
  {
    WordOfFour();
    WordOfHost();
    WordOfHandle();
    Shifted([0], [4], ZEROS, [0], NAME_BYTES, [0, 0, 0]);
  }

  lemma Shifted(a: seq<byte>, b: seq<byte>, c: seq<byte>, d: seq<byte>, e: seq<byte>, f: seq<byte>)
    ensures a + ((b + c + d + e) + f) == (a + b + c) + (d + e + f)
  {
  }

  lemma SpelledRoute()
    ensures [0] + Spelled([0x2F], 0, NAME_BYTES, [0, 0, 0]) == SharedBytes()
  {
    TwoHandles();
  }

  lemma RouteBytes()
    ensures Stream(RouteFields(ONE_ROUTE[ROOT])) + [0] == SharedBytes()
  {
    var route := ONE_ROUTE[ROOT];
    var rest := RouteSpelled(route, [0]);
    TwoAbsent([0]);
    assert CanaryFields(route.canary) + MirrorFields(route.mirror) == [Tag(0), Tag(0)];
    assert rest == [0, 0, 0];
    Utf8OfRoot();
    Utf8OfName();
    SpelledRoute();
  }

  lemma RoutedBytes(fmt: Formats, backends: seq<Registered>)
    ensures BytesAfterBackends(fmt, Routed(backends)) == SharedBytes()
  {
    var p := Routed(backends);
    OneRouteInOrder();
    assert HostOrder(p.certs) == [];
    assert BytesAfterRoutes(fmt, p) == [];
    assert RouteItems(ONE_ROUTE, [ROOT]) == [Stream(RouteFields(ONE_ROUTE[ROOT]))];
    JoinSingle(Stream(RouteFields(ONE_ROUTE[ROOT])));
    assert OptTextCode(DefaultText(p.defaultBackend)) + [] == [0];
    RouteBytes();
  }

  lemma CertifiedBytes(fmt: Formats, backends: seq<Registered>)
    ensures BytesAfterBackends(fmt, Certified(backends)) == SharedBytes()
  {
    var p := Certified(backends);
    NoRoutesInOrder();
    assert Join(RouteItems(p.routes, RouteOrderOf(p.routes))) == [];
    OneHostInOrder(p.certs);
    assert HostItems(p.certs.sni, ["/"]) == [Stream(HostFields(ONE_HOST, "/"))];
    JoinSingle(Stream(HostFields(ONE_HOST, "/")));
    HostCode(ONE_HOST, "/");
    Utf8OfRoot();
    assert WordCode(HANDLE) + [] == WordCode(HANDLE);
    ConcatAssociative(TextCode([0x2F]), WordCode(0x400), WordCode(HANDLE));
    assert BytesAfterRoutes(fmt, p) == TextCode([0x2F]) + (WordCode(0x400) + WordCode(HANDLE));
    assert [] + SharedBytes() == SharedBytes();
  }

  /**
   * Without those rules sections can be confused, whatever backends come first:
   * a route's entry reads as a certificate host spelled like its path and a
   * default certificate.
   */
  lemma PlansCanCollide(fmt: Formats, lb: LbPolicy, backends: seq<Registered>)
    ensures PlanStream(fmt, lb, Routed(backends)) == PlanStream(fmt, lb, Certified(backends))
    ensures !SameContent(fmt, lb, Routed(backends), Certified(backends))
  {
    var a, b := Routed(backends), Certified(backends);
    PlanSplits(fmt, lb, a);
    PlanSplits(fmt, lb, b);
    RoutedBytes(fmt, backends);
    CertifiedBytes(fmt, backends);
    assert ROOT in a.routes.Keys && ROOT !in b.routes.Keys;
  }
}
