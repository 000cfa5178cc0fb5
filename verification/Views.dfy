/** What a comparison looks at in a compiled table. */
module Views {
  import opened Wrappers
  import opened Machine
  import opened Ordering
  import opened TextOps
  import opened Config
  import opened Objects
  import opened Planning
  import opened Backends
  import opened Certificates
  import opened Router
  import opened Assembly
  import D = Diff

  function TypeName(t: PathType): string {
    match t
    case Exact => "Exact"
    case Prefix => "Prefix"
    case ImplementationSpecific => "ImplementationSpecific"
  }

  function RouteIdOf(slot: RouteHost, rule: PathRule): D.RouteId {
    (Displayed(slot), rule.path, TypeName(rule.pathType))
  }

  function NameOf(t: RouteTable, id: nat): string {
    if id < |t.backends| then t.backends[id].name else ""
  }

  function HostTail(host: Option<string>): string {
    match host case None => ")" case Some(h) => ", host " + h + ")"
  }

  /** How a mirror is reported. */
  function MirrorText(target: string, percent: nat, host: Option<string>): string {
    target + " " + ("(" + Decimal(percent) + "%" + HostTail(host))
  }

  function MirrorShown(t: RouteTable, rule: PathRule): Option<string> {
    match rule.mirror
    case None => None
    case Some(m) => Some(MirrorText(NameOf(t, m.backend), m.percent, m.host))
  }

  function ShownTarget(t: RouteTable, rule: PathRule): D.RouteTarget {
    if rule.backend < |t.backends| then
      var b := t.backends[rule.backend];
      D.RouteTarget(b.name, |b.endpoints|, b.protocol, MirrorShown(t, rule))
    else D.RouteTarget("", 0, Http1, MirrorShown(t, rule))
  }

  // -------------------------------------------------------------------------
  // The view
  // -------------------------------------------------------------------------

  /** Every host prints as no other does, and holds no path twice under one type. */
  ghost predicate Unambiguous(t: RouteTable) {
    && (forall slot :: slot in t.hosts || slot in t.sni ==> StoredSlot(slot))
    && (forall slot :: slot in t.hosts ==> DistinctRules(t.hosts[slot]))
  }

  lemma SameId(t: RouteTable, a: RouteHost, i: nat, b: RouteHost, j: nat)
    requires Unambiguous(t) && a in t.hosts && b in t.hosts && i < |t.hosts[a]| && j < |t.hosts[b]|
    requires RouteIdOf(a, t.hosts[a][i]) == RouteIdOf(b, t.hosts[b][j])
    ensures a == b && i == j
  {
    SlotsPrintApart(a, b);
  }

  ghost function RouteIds(t: RouteTable): set<D.RouteId> {
    set slot, i | slot in t.hosts && 0 <= i < |t.hosts[slot]| :: RouteIdOf(slot, t.hosts[slot][i])
  }

  ghost function RoutesOf(t: RouteTable): (m: map<D.RouteId, D.RouteTarget>)
    requires Unambiguous(t)
    ensures forall slot, i :: slot in t.hosts && 0 <= i < |t.hosts[slot]| ==>
              && RouteIdOf(slot, t.hosts[slot][i]) in m
              && m[RouteIdOf(slot, t.hosts[slot][i])] == ShownTarget(t, t.hosts[slot][i])
    ensures m.Keys == RouteIds(t)
  {
    forall a, i: nat, b, j: nat | a in t.hosts && b in t.hosts && i < |t.hosts[a]| && j < |t.hosts[b]|
                                  && RouteIdOf(a, t.hosts[a][i]) == RouteIdOf(b, t.hosts[b][j])
      ensures a == b && i == j
    {
      SameId(t, a, i, b, j);
    }
    map slot, i | slot in t.hosts && 0 <= i < |t.hosts[slot]| :: RouteIdOf(slot, t.hosts[slot][i]) := ShownTarget(t, t.hosts[slot][i])
  }

  lemma RuleInView(t: RouteTable, slot: RouteHost, rule: PathRule)
    requires Unambiguous(t) && rule in RulesAt(t.hosts, slot)
    ensures RouteIdOf(slot, rule) in RoutesOf(t) && RoutesOf(t)[RouteIdOf(slot, rule)] == ShownTarget(t, rule)
  {
    var i :| 0 <= i < |t.hosts[slot]| && t.hosts[slot][i] == rule;
  }

  function ShownHosts(t: RouteTable): set<string> {
    set slot | slot in t.hosts :: Displayed(slot)
  }

  function CertsOf(t: RouteTable): map<string, u64>
    requires forall a, b :: a in t.sni && b in t.sni && Displayed(a) == Displayed(b) ==> a == b
  {
    map slot | slot in t.sni :: Displayed(slot) := t.sni[slot]
  }

  /** What a table looks like to a comparison. */
  ghost function TableView(t: RouteTable): D.View
    requires Unambiguous(t)
  {
    forall a, b | a in t.sni && b in t.sni ensures Displayed(a) == Displayed(b) ==> a == b { SlotsPrintApart(a, b); }
    D.View(RoutesOf(t), ShownHosts(t), CertsOf(t), match t.defaultBackend case None => None case Some(id) => Some(NameOf(t, id)))
  }

  // -------------------------------------------------------------------------
  // The view of a compiled plan
  // -------------------------------------------------------------------------

  lemma {:induction false} FiledSlotsAreStored(sni: Sni, hosts: seq<string>)
    requires forall h :: h in hosts ==> h in sni
    ensures forall slot :: slot in FileAll(sni, hosts) ==> StoredSlot(slot)
  {
    if hosts != [] {
      FiledSlotsAreStored(sni, hosts[..|hosts| - 1]);
      var h := hosts[|hosts| - 1];
      if NormalizeConfigHost(h).Ok? {
        SlotIsStored(Some(h));
      }
    }
  }

  lemma RuleHostIsStored(pats: Patterns, backends: seq<Registered>, routes: Routes, slot: RouteHost, rule: PathRule)
    requires Served(pats, backends, routes, slot, rule)
    ensures StoredSlot(slot)
  {
    var k :| k in routes && ServedBy(pats, backends, routes[k], slot, rule);
    ServedByItsBackend(pats, backends, routes[k], slot, rule);
    SlotIsStored(routes[k].key.host);
  }

  lemma HostsAreStored(pats: Patterns, generation: u64, backends: seq<Registered>, routes: Routes,
                       default: Option<ServiceRef>, certs: CertPlan, slot: RouteHost)
    requires NormalRoutes(routes) && Closed(backends, routes, default)
    requires TableOf(pats, generation, backends, routes, default, certs).Ok?
    requires slot in TableOf(pats, generation, backends, routes, default, certs).value.hosts
    ensures StoredSlot(slot)
  {
    var rule := SomeRule(pats, generation, backends, routes, default, certs, slot);
    TableServesThePlan(pats, generation, backends, routes, default, certs, slot, rule);
    RuleHostIsStored(pats, backends, routes, slot, rule);
  }

  /** A compiled table never loses a route to another that prints alike. */
  lemma CompiledIsUnambiguous(pats: Patterns, generation: u64, backends: seq<Registered>, routes: Routes,
                              default: Option<ServiceRef>, certs: CertPlan)
    requires NormalRoutes(routes) && Closed(backends, routes, default)
    ensures TableOf(pats, generation, backends, routes, default, certs).Ok?
    ensures Unambiguous(TableOf(pats, generation, backends, routes, default, certs).value)
  {
    BuildSucceeds(pats, generation, backends, routes, default, certs);
    var t := TableOf(pats, generation, backends, routes, default, certs).value;
    BuiltFromRules(pats, generation, backends, routes, default, certs);
    forall slot | slot in t.hosts ensures StoredSlot(slot) {
      HostsAreStored(pats, generation, backends, routes, default, certs, slot);
    }
    FiledSlotsAreStored(certs.sni, SortedSet(LexLe, certs.sni.Keys));
    PlacesAreDistinct(pats, routes, RouteOrderOf(routes));
    DraftsResolve(pats, backends, routes, default);
    HostsHoldNoPathTwice(backends, Drafts(pats, routes, RouteOrderOf(routes)));
    forall slot | slot in t.hosts ensures DistinctRules(t.hosts[slot]) {
      SortedIsDistinct(RulesAt(Rules(backends, Drafts(pats, routes, RouteOrderOf(routes))).value, slot));
    }
  }

  function ReportedHost(host: Option<string>): string {
    match host case None => "*" case Some(h) => h
  }

  /** How a planned route is reported. */
  function ReportedAs(k: RouteKey): D.RouteId {
    (ReportedHost(k.host), k.path, TypeName(k.pathType))
  }

  /** A served route is reported under its own key: the host as the Ingress wrote it, normalised. */
  lemma ServedIsReported(pats: Patterns, backends: seq<Registered>, p: RoutePlan, slot: RouteHost, rule: PathRule)
    requires ServedBy(pats, backends, p, slot, rule) && NormalKey(p.key)
    ensures RouteIdOf(slot, rule) == ReportedAs(p.key)
  {
    ServedByItsBackend(pats, backends, p, slot, rule);
    if p.key.host.Some? {
      SlotShowsHost(p.key.host.value);
    }
  }

  lemma ShownHost(host: Option<string>)
    requires (host.Some? ==> NormalHost(host.value)) && SlotOf(host).Ok?
    ensures ReportedHost(host) == Displayed(SlotOf(host).value) && StoredSlot(SlotOf(host).value)
  {
    SlotIsStored(host);
    if host.Some? {
      SlotShowsHost(host.value);
    }
  }

  lemma TypesApart(a: PathType, b: PathType)
    ensures TypeName(a) == TypeName(b) <==> a == b
  {
    assert |TypeName(Exact)| == 5 && |TypeName(Prefix)| == 6 && |TypeName(ImplementationSpecific)| == 22;
  }

  lemma ReportsApart(a: RouteKey, b: RouteKey)
    requires NormalKey(a) && NormalKey(b) && SlotOf(a.host).Ok? && SlotOf(b.host).Ok?
    ensures ReportedAs(a) == ReportedAs(b) <==> a == b
  {
    ShownHost(a.host);
    ShownHost(b.host);
    SlotsPrintApart(SlotOf(a.host).value, SlotOf(b.host).value);
    SlotsDiffer(a.host, b.host);
    TypesApart(a.pathType, b.pathType);
  }

  /** The view shows a planned route exactly when the router took it, sending where the plan says. */
  lemma PlanIsInView(pats: Patterns, generation: u64, backends: seq<Registered>, routes: Routes,
                     default: Option<ServiceRef>, certs: CertPlan, k: RouteKey)
    requires NormalRoutes(routes) && Closed(backends, routes, default) && k in routes && SlotOf(k.host).Ok?
    ensures TableOf(pats, generation, backends, routes, default, certs).Ok?
    ensures var t := TableOf(pats, generation, backends, routes, default, certs).value;
            && Unambiguous(t)
            && (ReportedAs(k) in TableView(t).routes <==> Accepted(pats, routes[k]).Some?)
            && (Accepted(pats, routes[k]).Some? ==>
                  SendsAsPlanned(pats, backends, routes[k], TableView(t).routes[ReportedAs(k)]))
  {
    CompiledIsUnambiguous(pats, generation, backends, routes, default, certs);
    var t := TableOf(pats, generation, backends, routes, default, certs).value;
    if Accepted(pats, routes[k]).Some? {
      var slot, rule := AcceptedIsFiled(pats, generation, backends, routes, default, certs, k);
      RuleInView(t, slot, rule);
      ServedTarget(pats, t, routes[k], slot, rule);
    }
    if ReportedAs(k) in RouteIds(t) {
      var slot, i :| slot in t.hosts && 0 <= i < |t.hosts[slot]| && RouteIdOf(slot, t.hosts[slot][i]) == ReportedAs(k);
      assert t.hosts[slot][i] in RulesAt(t.hosts, slot);
      ReportIsAccepted(pats, generation, backends, routes, default, certs, k, slot, t.hosts[slot][i]);
    }
  }

  lemma ReportIsAccepted(pats: Patterns, generation: u64, backends: seq<Registered>, routes: Routes,
                         default: Option<ServiceRef>, certs: CertPlan, k: RouteKey, slot: RouteHost, rule: PathRule)
    requires NormalRoutes(routes) && Closed(backends, routes, default) && k in routes && SlotOf(k.host).Ok?
    requires TableOf(pats, generation, backends, routes, default, certs).Ok?
    requires rule in RulesAt(TableOf(pats, generation, backends, routes, default, certs).value.hosts, slot)
    requires RouteIdOf(slot, rule) == ReportedAs(k)
    ensures Accepted(pats, routes[k]).Some?
  {
    TableServesThePlan(pats, generation, backends, routes, default, certs, slot, rule);
    var j :| j in routes && ServedBy(pats, backends, routes[j], slot, rule);
    ServedIsReported(pats, backends, routes[j], slot, rule);
    ServedByItsBackend(pats, backends, routes[j], slot, rule);
    ReportsApart(j, k);
  }

  /** An accepted route's rule is in the table, under the route's own name. */
  lemma AcceptedIsFiled(pats: Patterns, generation: u64, backends: seq<Registered>, routes: Routes,
                        default: Option<ServiceRef>, certs: CertPlan, k: RouteKey) returns (slot: RouteHost, rule: PathRule)
    requires NormalRoutes(routes) && Closed(backends, routes, default) && k in routes && Accepted(pats, routes[k]).Some?
    requires TableOf(pats, generation, backends, routes, default, certs).Ok?
    ensures ServedBy(pats, backends, routes[k], slot, rule) && RouteIdOf(slot, rule) == ReportedAs(k)
    ensures rule in RulesAt(TableOf(pats, generation, backends, routes, default, certs).value.hosts, slot)
  {
    RouteResolves(pats, backends, routes, default, k);
    slot := Accepted(pats, routes[k]).value.slot;
    rule := ResolveDraft(backends, Accepted(pats, routes[k]).value).value;
    assert ServedBy(pats, backends, routes[k], slot, rule);
    TableServesThePlan(pats, generation, backends, routes, default, certs, slot, rule);
    ServedIsReported(pats, backends, routes[k], slot, rule);
  }

  lemma ServedTarget(pats: Patterns, t: RouteTable, p: RoutePlan, slot: RouteHost, rule: PathRule)
    requires ServedBy(pats, t.backends, p, slot, rule)
    ensures SendsAsPlanned(pats, t.backends, p, ShownTarget(t, rule))
  {
    DraftMeans(pats, p);
  }

  /** The target is the planned backend's, as registered, mirrored if the router kept the mirror. */
  ghost predicate SendsAsPlanned(pats: Patterns, backends: seq<Registered>, p: RoutePlan, target: D.RouteTarget) {
    && target.backend == BackendName(p.backend)
    && (target.mirror.Some? <==> Accepted(pats, p).Some? && Accepted(pats, p).value.mirror.Some?)
    && IdOf(backends, target.backend).Some?
    && var b := backends[IdOf(backends, target.backend).value];
       target.endpoints == |b.endpoints| && target.protocol == b.protocol
  }

  // -------------------------------------------------------------------------
  // Mirrors as text
  // -------------------------------------------------------------------------

  /**
   * Two mirrors print alike only by being the same mirror, as long as backend
   * names hold no space; so comparing the text compares all three parts.
   */
  lemma MirrorTextsDiffer(a: string, p: nat, h: Option<string>, b: string, q: nat, g: Option<string>)
    requires ' ' !in a && ' ' !in b
    ensures MirrorText(a, p, h) == MirrorText(b, q, g) <==> a == b && p == q && h == g
  {
    if MirrorText(a, p, h) == MirrorText(b, q, g) {
      var x, y := "(" + Decimal(p), "(" + Decimal(q);
      SplitOnceOfJoin(' ', a, x + "%" + HostTail(h));
      SplitOnceOfJoin(' ', b, y + "%" + HostTail(g));
      NoPercent(p);
      NoPercent(q);
      SplitOnceOfJoin('%', x, HostTail(h));
      SplitOnceOfJoin('%', y, HostTail(g));
      SamePercent(p, q);
      HostTailsDiffer(h, g);
    }
  }

  lemma SamePercent(p: nat, q: nat)
    requires "(" + Decimal(p) == "(" + Decimal(q)
    ensures p == q
  {
    assert ("(" + Decimal(p))[1..] == Decimal(p) && ("(" + Decimal(q))[1..] == Decimal(q);
    DecimalReadsBack(p);
    DecimalReadsBack(q);
  }

  lemma NoPercent(n: nat)
    ensures '%' !in "(" + Decimal(n)
  {
  }

  lemma HostTailsDiffer(h: Option<string>, g: Option<string>)
    requires HostTail(h) == HostTail(g)
    ensures h == g
  {
    if h.Some? && g.Some? {
      assert HostTail(h)[7..7 + |h.value|] == h.value;
      assert HostTail(g)[7..7 + |g.value|] == g.value;
    }
  }

  /** Two mirrors of different backends that print alike. */
  ghost predicate PrintAlike(a: string, b: string) {
    exists p, h, q, g :: MirrorText(a, p, h) == MirrorText(b, q, g)
  }

  /** `a`, then what prints between a percentage and a host. */
  function Opened(a: string, n: nat): string {
    a + (" (" + Decimal(n) + "%, host")
  }

  /** `b` is `a` so opened, ending there or going on with a space. */
  predicate Imitates(a: string, b: string, n: nat) {
    var head := Opened(a, n);
    head <= b && (|b| > |head| ==> b[|head|] == ' ')
  }

  /** What follows a backend's name, character by character. */
  function AfterName(p: nat, h: Option<string>): string {
    " (" + Decimal(p) + "%" + HostTail(h)
  }

  lemma TextIsAfter(a: string, p: nat, h: Option<string>)
    ensures MirrorText(a, p, h) == a + AfterName(p, h)
  {
  }

  lemma NoSecondOpening(p: nat, j: nat)
    ensures 1 <= j < |AfterName(p, None)| ==> AfterName(p, None)[j] != ' '
  {
    var d, r := Decimal(p), AfterName(p, None);
    assert r == " (" + d + "%)";
  }

  lemma Regrouped(a: string, d: string, c: string, e: string, f: string, h: string, g: string)
    ensures (a + d + c) + ((e + f) + h + g) == (a + d + (c + e)) + (f + h + g)
  {
  }

  lemma AfterHost(p: nat, host: string)
    ensures AfterName(p, Some(host)) == " (" + Decimal(p) + "%, host" + (" " + host + ")")
  {
    assert ", host " == ", host" + " " && "%, host" == "%" + ", host";
    Regrouped(" (", Decimal(p), "%", ", host", " ", host, ")");
  }

  /** The opening has two spaces, and the second is not before a parenthesis. */
  lemma HeadSpelled(d: string)
    requires forall i :: 0 <= i < |d| ==> d[i] != ' '
    ensures var head := " (" + d + "%, host";
            |head| == |d| + 9 && head[|d| + 5] == 'h' && forall i :: 1 <= i < |head| && i != |d| + 4 ==> head[i] != ' '
  {
    var head, tail := " (" + d + "%, host", "%, host";
    assert forall i :: 2 <= i < 2 + |d| ==> head[i] == d[i - 2];
    assert forall i :: 0 <= i < 7 ==> head[2 + |d| + i] == tail[i];
  }

  lemma HostSpelled(p: nat, host: string)
    ensures var r, n := AfterName(p, Some(host)), |Decimal(p)|;
            && |r| > n + 9 && r[..n + 9] == " (" + Decimal(p) + "%, host" && r[n + 9] == ' '
            && r[n + 5] == 'h' && forall i :: 1 <= i < n + 9 && i != n + 4 ==> r[i] != ' '
  {
    var head := " (" + Decimal(p) + "%, host";
    AfterHost(p, host);
    HeadSpelled(Decimal(p));
    assert forall i :: 0 <= i < |head| ==> (head + (" " + host + ")"))[i] == head[i];
  }

  /** Past its start, a space and a parenthesis come together only behind "host". */
  lemma SecondOpening(p: nat, h: Option<string>, j: nat)
    requires 1 <= j && j + 1 < |AfterName(p, h)| && AfterName(p, h)[j] == ' ' && AfterName(p, h)[j + 1] == '('
    ensures j >= |Decimal(p)| + 9 && AfterName(p, h)[..|Decimal(p)| + 9] == " (" + Decimal(p) + "%, host"
    ensures AfterName(p, h)[|Decimal(p)| + 9] == ' '
  {
    match h
    case None => NoSecondOpening(p, j);
    case Some(host) => HostSpelled(p, host);
  }

  lemma LongerImitates(a: string, p: nat, h: Option<string>, b: string, q: nat, g: Option<string>)
    requires MirrorText(a, p, h) == MirrorText(b, q, g) && |a| < |b|
    ensures Imitates(a, b, p)
  {
    TextIsAfter(a, p, h);
    TextIsAfter(b, q, g);
    var r, s, j := AfterName(p, h), AfterName(q, g), |b| - |a|;
    var text := a + r;
    assert text == b + s;
    assert r[j] == text[|b|] == s[0] && r[j + 1] == text[|b| + 1] == s[1];
    SecondOpening(p, h, j);
    assert b == text[..|b|] == a + r[..j];
    assert r[..j][..|Decimal(p)| + 9] == r[..|Decimal(p)| + 9];
  }

  /** What makes the longer name's text end as a host does. */
  function ImitatedHost(rest: string): string {
    if rest == "" then "(0%" else rest[1..] + " (0%"
  }

  lemma RestReadsAsHost(rest: string)
    requires rest != "" ==> rest[0] == ' '
    ensures rest + AfterName(0, None) == " " + ImitatedHost(rest) + ")"
  {
    assert Decimal(0) == "0";
    assert AfterName(0, None) == " (0%)";
    if rest != "" {
      assert rest == " " + rest[1..];
    }
  }

  lemma OpenedText(a: string, n: nat, host: string)
    ensures MirrorText(a, n, Some(host)) == Opened(a, n) + (" " + host + ")")
  {
    TextIsAfter(a, n, Some(host));
    AfterHost(n, host);
    ConcatAssociative(a, " (" + Decimal(n) + "%, host", " " + host + ")");
  }

  lemma ImitationsPrintAlike(a: string, b: string, n: nat)
    requires Imitates(a, b, n)
    ensures PrintAlike(a, b)
  {
    var head := Opened(a, n);
    var rest := b[|head|..];
    assert b == head + rest;
    RestReadsAsHost(rest);
    OpenedText(a, n, ImitatedHost(rest));
    TextIsAfter(b, 0, None);
    ConcatAssociative(head, rest, AfterName(0, None));
    assert MirrorText(a, n, Some(ImitatedHost(rest))) == MirrorText(b, 0, None);
  }

  lemma SameLengthSameName(a: string, p: nat, h: Option<string>, b: string, q: nat, g: Option<string>)
    requires MirrorText(a, p, h) == MirrorText(b, q, g) && |a| == |b|
    ensures a == b
  {
    TextIsAfter(a, p, h);
    TextIsAfter(b, q, g);
    assert a == (a + AfterName(p, h))[..|a|] && b == (b + AfterName(q, g))[..|b|];
  }

  /**
   * Some mirrors of two backends print alike exactly when one name is the other
   * opened as a mirror's text is, up to "host", and ends there or goes on with a
   * space. No name without a space does.
   */
  lemma MirrorTextsCollideExactly(a: string, b: string)
    requires a != b
    ensures PrintAlike(a, b) <==> (exists n :: Imitates(a, b, n)) || (exists n :: Imitates(b, a, n))
  {
    if PrintAlike(a, b) {
      var p, h, q, g :| MirrorText(a, p, h) == MirrorText(b, q, g);
      if |a| < |b| {
        LongerImitates(a, p, h, b, q, g);
      } else if |b| < |a| {
        LongerImitates(b, q, g, a, p, h);
      } else {
        SameLengthSameName(a, p, h, b, q, g);
      }
    }
    if n :| Imitates(a, b, n) {
      ImitationsPrintAlike(a, b, n);
    }
    if n :| Imitates(b, a, n) {
      ImitationsPrintAlike(b, a, n);
      var p, h, q, g :| MirrorText(b, p, h) == MirrorText(a, q, g);
    }
  }

  lemma OneMirrorText()
    requires Decimal(1) == "1" && Decimal(5) == "5"
    ensures MirrorText("n/s:w (5%, host x", 1, None) == "n/s:w (5%, host x (1%)" == MirrorText("n/s:w", 5, Some("x (1%"))
  {
    assert "n/s:w" + " " + ("(" + "5" + "%" + HostTail(Some("x (1%"))) == "n/s:w (5%, host x (1%)";
  }

  /** With spaces they can: two well-formed references, two mirrors, one text. */
  lemma MirrorTextsCanCollide()
    ensures var a, b := ServiceRef("n", "s", Name("w (5%, host x")), ServiceRef("n", "s", Name("w"));
            && WellFormed(a) && WellFormed(b) && a != b
            && MirrorText(BackendName(a), 1, None) == MirrorText(BackendName(b), 5, Some("x (1%"))
  {
    var a, b := ServiceRef("n", "s", Name("w (5%, host x")), ServiceRef("n", "s", Name("w"));
    assert BackendName(a) == "n/s:w (5%, host x" && BackendName(b) == "n/s:w";
    assert Decimal(1) == "1" && Decimal(5) == "5";
    OneMirrorText();
  }
}
