/** The router: its own checks on a route, and the table it freezes a plan into. */
module Router {
  import opened Wrappers
  import opened Machine
  import opened Ordering
  import opened TextOps
  import opened Config
  import opened Objects
  import opened Planning
  import opened Backends
  import opened Digests

  const MAX_HOST_LEN := 253
  const DEFAULT_WEIGHT_TOTAL: u32 := 100
  const MIRROR_PERCENT_TOTAL: u32 := 100

  datatype RouteError =
    | HostLength
    | HostSyntax(found: char)
    | WildcardShape
    | PathNotAbsolute
    | BadPattern
    | CanaryHeaderConflict
    | CanaryWeight
    | BadCanaryPattern
    | MirrorBackendMissing
    | MirrorPercent

  /** Which regular expressions compile. */
  datatype Patterns = Patterns(path: string -> bool, header: string -> bool)

  // -------------------------------------------------------------------------
  // Hosts
  // -------------------------------------------------------------------------

  predicate IsBadHostChar(c: char) {
    c == ':' || c == '/' || c == '*' || c == ' '
  }

  function FirstBad(s: string): (r: Option<char>)
    ensures r.None? <==> forall i :: 0 <= i < |s| ==> !IsBadHostChar(s[i])
  {
    if s == "" then None else if IsBadHostChar(s[0]) then Some(s[0]) else FirstBad(s[1..])
  }

  /** Root dots dropped, one leading `*.` allowed, case folded. */
  function NormalizeConfigHost(raw: string): Result<RouteHost, RouteError> {
    var host := TrimEndDots(raw);
    var wildcard := "*." <= host;
    var name := if wildcard then host[2..] else host;
    if host == "" || |Utf8(host)| > MAX_HOST_LEN then Err(HostLength)
    else
      match FirstBad(name)
      case Some(c) => Err(if c == '*' then WildcardShape else HostSyntax(c))
      case None =>
        if name == "" then Err(WildcardShape)
        else if wildcard then Ok(WildcardHost(Lower(name)))
        else Ok(ExactHost(Lower(name)))
  }

  function SlotOf(host: Option<string>): Result<RouteHost, RouteError> {
    match host case None => Ok(CatchAll) case Some(h) => NormalizeConfigHost(h)
  }

  /** What the translator's own normalisation yields. */
  predicate NormalHost(h: string) {
    h != "" && h[|h| - 1] != '.' && Lower(h) == h
  }

  lemma {:induction false} NoEndDot(s: string)
    ensures TrimEndDots(s) <= s
    ensures TrimEndDots(s) != "" ==> TrimEndDots(s)[|TrimEndDots(s)| - 1] != '.'
  {
    if s != "" && s[|s| - 1] == '.' {
      NoEndDot(s[..|s| - 1]);
    }
  }

  lemma NormalizedIsNormal(host: Option<string>)
    ensures NormalizeHost(host).Some? ==> NormalHost(NormalizeHost(host).value)
  {
    if host.Some? {
      NoEndDot(Trim(host.value));
    }
  }

  lemma LowerSuffix(s: string, n: nat)
    requires n <= |s|
    ensures Lower(s)[n..] == Lower(s[n..])
  {
  }

  /** A wildcard is its parent under `*.`, anything else is itself. */
  lemma SlotParts(host: string)
    requires TrimEndDots(host) == host && NormalizeConfigHost(host).Ok?
    ensures NormalizeConfigHost(host).value
         == if "*." <= host then WildcardHost(Lower(host[2..])) else ExactHost(Lower(host))
  {
  }

  lemma SlotShowsHost(h: string)
    requires NormalHost(h) && NormalizeConfigHost(h).Ok?
    ensures Displayed(NormalizeConfigHost(h).value) == h && NormalizeConfigHost(h).value != CatchAll
  {
    assert TrimEndDots(h) == h;
    SlotParts(h);
    if "*." <= h {
      LowerSuffix(h, 2);
      assert h == "*." + h[2..];
    }
  }

  /**
   * The translator normalises hosts as the router does: where both take a host
   * they take it for the same one, so two hosts collide in the router's table
   * exactly when the translator already called them the same.
   */
  lemma SlotsCollideExactly(a: Option<string>, b: Option<string>)
    requires SlotOf(NormalizeHost(a)).Ok? && SlotOf(NormalizeHost(b)).Ok?
    ensures SlotOf(NormalizeHost(a)) == SlotOf(NormalizeHost(b)) <==> NormalizeHost(a) == NormalizeHost(b)
  {
    NormalizedIsNormal(a);
    NormalizedIsNormal(b);
    SlotsDiffer(NormalizeHost(a), NormalizeHost(b));
  }

  lemma SlotsDiffer(a: Option<string>, b: Option<string>)
    requires (a.Some? ==> NormalHost(a.value)) && (b.Some? ==> NormalHost(b.value))
    requires SlotOf(a).Ok? && SlotOf(b).Ok?
    ensures SlotOf(a) == SlotOf(b) <==> a == b
  {
    if a.Some? {
      SlotShowsHost(a.value);
    }
    if b.Some? {
      SlotShowsHost(b.value);
    }
  }

  lemma RootDotsDoNotCount(raw: string)
    ensures NormalizeConfigHost(TrimEndDots(raw)) == NormalizeConfigHost(raw)
    ensures TrimEndDots(TrimEndDots(raw)) == TrimEndDots(raw)
  {
    NoEndDot(raw);
  }

  lemma LowerWildcard(host: string)
    requires "*." <= host
    ensures Lower(host) == "*." + Lower(host[2..])
  {
    LowerSuffix(host, 2);
    assert Lower(host) == Lower(host)[..2] + Lower(host)[2..];
  }

  lemma SameNormalForm(raw: string)
    requires Trim(raw) == raw && NormalizeConfigHost(raw).Ok?
    ensures NormalizeHost(Some(raw)) == Some(Displayed(NormalizeConfigHost(raw).value))
  {
    var host := TrimEndDots(raw);
    RootDotsDoNotCount(raw);
    SlotParts(host);
    if "*." <= host {
      LowerWildcard(host);
    }
  }

  /** A slot the router stores, by its kind. */
  predicate StoredSlot(slot: RouteHost) {
    match slot
    case ExactHost(name) => '*' !in name
    case WildcardHost(parent) => '*' !in parent
    case CatchAll => true
  }

  lemma SlotIsStored(host: Option<string>)
    requires SlotOf(host).Ok?
    ensures StoredSlot(SlotOf(host).value)
  {
    if host.Some? {
      var trimmed := TrimEndDots(host.value);
      var name := if "*." <= trimmed then trimmed[2..] else trimmed;
      forall i | 0 <= i < |name| ensures Lower(name)[i] != '*' {
        assert !IsBadHostChar(name[i]);
      }
    }
  }

  /** Which slot prints as this. */
  function Printed(text: string): RouteHost {
    if text == "*" then CatchAll else if "*." <= text then WildcardHost(text[2..]) else ExactHost(text)
  }

  lemma PrintsBack(slot: RouteHost)
    requires StoredSlot(slot)
    ensures Printed(Displayed(slot)) == slot
  {
    if slot.WildcardHost? {
      assert |"*." + slot.parent| >= 2 && ("*." + slot.parent)[2..] == slot.parent;
    } else if slot.ExactHost? && slot.name != "" {
      assert slot.name[0] in slot.name;
    }
  }

  /** No two stored slots print alike. */
  lemma SlotsPrintApart(a: RouteHost, b: RouteHost)
    requires StoredSlot(a) && StoredSlot(b)
    ensures Displayed(a) == Displayed(b) <==> a == b
  {
    PrintsBack(a);
    PrintsBack(b);
  }

  // -------------------------------------------------------------------------
  // Routes
  // -------------------------------------------------------------------------

  datatype HeaderSpec = HeaderSpec(name: string, value: Option<string>, pattern: Option<string>)

  /** By backend name while a route is a draft, by backend id once in a table. */
  datatype CanarySpec<B> = CanarySpec(backend: B, header: Option<HeaderSpec>, cookie: Option<string>, weight: u32, weightTotal: u32)

  datatype MirrorSpec<B> = MirrorSpec(backend: B, percent: u32, host: Option<string>)

  datatype RouteDraft = RouteDraft(
    slot: RouteHost,
    path: string,
    pathType: PathType,
    backend: string,
    canary: Option<CanarySpec<string>>,
    mirror: Option<MirrorSpec<string>>)

  function DraftOf(pats: Patterns, key: RouteKey, backend: string): Result<RouteDraft, RouteError> {
    match SlotOf(key.host)
    case Err(e) => Err(e)
    case Ok(slot) =>
      if key.pathType.ImplementationSpecific? && !pats.path(key.path) then Err(BadPattern)
      else if !key.pathType.ImplementationSpecific? && !("/" <= key.path) then Err(PathNotAbsolute)
      else Ok(RouteDraft(slot, key.path, key.pathType, backend, None, None))
  }

  function WeightTotal(r: CanaryRules): u32 {
    if r.weightTotal == 0 then DEFAULT_WEIGHT_TOTAL else r.weightTotal
  }

  /** A header pattern is compiled only if there is a header to match. */
  function CanaryDraft(pats: Patterns, c: CanaryPlan): Result<CanarySpec<string>, RouteError> {
    var r := c.rules;
    if r.headerValue.Some? && r.headerPattern.Some? then Err(CanaryHeaderConflict)
    else if r.weight > WeightTotal(r) then Err(CanaryWeight)
    else if r.header.Some? && r.headerPattern.Some? && !pats.header(r.headerPattern.value) then Err(BadCanaryPattern)
    else
      var header := match r.header case None => None case Some(name) => Some(HeaderSpec(name, r.headerValue, r.headerPattern));
      Ok(CanarySpec(BackendName(c.backend), header, r.cookie, r.weight, WeightTotal(r)))
  }

  function MirrorDraft(m: MirrorPlan): Result<MirrorSpec<string>, RouteError> {
    if BackendName(m.backend) == "" then Err(MirrorBackendMissing)
    else if m.percent > MIRROR_PERCENT_TOTAL then Err(MirrorPercent)
    else Ok(MirrorSpec(BackendName(m.backend), m.percent, m.host))
  }

  function OptCanary(pats: Patterns, canary: Option<CanaryPlan>): Result<Option<CanarySpec<string>>, RouteError> {
    match canary
    case None => Ok(None)
    case Some(c) => match CanaryDraft(pats, c) case Err(e) => Err(e) case Ok(spec) => Ok(Some(spec))
  }

  function OptMirror(mirror: Option<MirrorPlan>): Result<Option<MirrorSpec<string>>, RouteError> {
    match mirror
    case None => Ok(None)
    case Some(m) => match MirrorDraft(m) case Err(e) => Err(e) case Ok(spec) => Ok(Some(spec))
  }

  function RouteWith(pats: Patterns, p: RoutePlan): Result<RouteDraft, RouteError> {
    match DraftOf(pats, p.key, BackendName(p.backend))
    case Err(e) => Err(e)
    case Ok(draft) =>
      match OptCanary(pats, p.canary)
      case Err(e) => Err(e)
      case Ok(canary) =>
        match OptMirror(p.mirror)
        case Err(e) => Err(e)
        case Ok(mirror) => Ok(draft.(canary := canary, mirror := mirror))
  }

  function Plain(p: RoutePlan): RoutePlan {
    p.(canary := None, mirror := None)
  }

  /** Tried with its optional parts, then without them; refused only if that fails too. */
  function Accepted(pats: Patterns, p: RoutePlan): Option<RouteDraft> {
    match RouteWith(pats, p)
    case Ok(draft) => Some(draft)
    case Err(_) => match RouteWith(pats, Plain(p)) case Ok(draft) => Some(draft) case Err(_) => None
  }

  /**
   * A broken canary or mirror never takes the production route down: a route is
   * in exactly when its own host and path are. The optional parts stand or fall
   * together: either being broken drops both.
   */
  lemma ExtrasNeverCostTheRoute(pats: Patterns, p: RoutePlan)
    ensures Accepted(pats, p).Some? <==> DraftOf(pats, p.key, BackendName(p.backend)).Ok?
    ensures Accepted(pats, p).Some? ==>
              var draft := Accepted(pats, p).value;
              var whole := OptCanary(pats, p.canary).Ok? && OptMirror(p.mirror).Ok?;
              && DraftOf(pats, p.key, BackendName(p.backend)).value == draft.(canary := None, mirror := None)
              && (draft.canary.Some? <==> p.canary.Some? && whole)
              && (draft.mirror.Some? <==> p.mirror.Some? && whole)
              && (draft.canary.Some? ==> Ok(draft.canary) == OptCanary(pats, p.canary))
              && (draft.mirror.Some? ==> Ok(draft.mirror) == OptMirror(p.mirror))
  {
  }

  // -------------------------------------------------------------------------
  // The table
  // -------------------------------------------------------------------------

  datatype PathRule = PathRule(
    path: string,
    pathType: PathType,
    backend: nat,
    canary: Option<CanarySpec<nat>>,
    mirror: Option<MirrorSpec<nat>>)

  /** `hosts` holds the exact, wildcard and catch-all entries; `sni` likewise, its catch-all the default certificate. */
  datatype RouteTable = RouteTable(
    generation: u64,
    hosts: map<RouteHost, seq<PathRule>>,
    defaultBackend: Option<nat>,
    backends: seq<Registered>,
    sni: map<RouteHost, u64>)

  /** A backend's id is its place among the registered; the builder's index of names is this function. */
  function IdOf(backends: seq<Registered>, name: string): (id: Option<nat>)
    ensures id.Some? ==> id.value < |backends| && backends[id.value].name == name
    ensures id.None? ==> forall b :: b in backends ==> b.name != name
  {
    if backends == [] then None
    else
      var before := IdOf(backends[..|backends| - 1], name);
      if before.Some? then before
      else if backends[|backends| - 1].name == name then Some(|backends| - 1)
      else None
  }

  /** A slot as errors name it; a wildcard goes by its parent. */
  function SlotText(slot: RouteHost): string {
    match slot case ExactHost(name) => name case WildcardHost(parent) => parent case CatchAll => "*"
  }

  /** A name's id, or who asked for a name nobody registered. */
  function ResolveName(backends: seq<Registered>, name: string, referrer: string): Result<nat, BuildError> {
    match IdOf(backends, name) case None => Err(UnknownBackend(name, referrer)) case Some(id) => Ok(id)
  }

  function ResolveCanary(backends: seq<Registered>, canary: Option<CanarySpec<string>>, referrer: string)
    : Result<Option<CanarySpec<nat>>, BuildError>
  {
    match canary
    case None => Ok(None)
    case Some(c) =>
      match ResolveName(backends, c.backend, referrer)
      case Err(e) => Err(e)
      case Ok(id) => Ok(Some(CanarySpec(id, c.header, c.cookie, c.weight, c.weightTotal)))
  }

  function ResolveMirror(backends: seq<Registered>, mirror: Option<MirrorSpec<string>>, referrer: string)
    : Result<Option<MirrorSpec<nat>>, BuildError>
  {
    match mirror
    case None => Ok(None)
    case Some(m) =>
      match ResolveName(backends, m.backend, referrer)
      case Err(e) => Err(e)
      case Ok(id) => Ok(Some(MirrorSpec(id, m.percent, m.host)))
  }

  function ResolveDraft(backends: seq<Registered>, d: RouteDraft): Result<PathRule, BuildError> {
    var referrer := SlotText(d.slot) + d.path;
    match ResolveName(backends, d.backend, referrer)
    case Err(e) => Err(e)
    case Ok(id) =>
      match ResolveCanary(backends, d.canary, referrer)
      case Err(e) => Err(e)
      case Ok(canary) =>
        match ResolveMirror(backends, d.mirror, referrer)
        case Err(e) => Err(e)
        case Ok(mirror) => Ok(PathRule(d.path, d.pathType, id, canary, mirror))
  }

  type Place = (RouteHost, string, PathType)

  function PlaceOf(d: RouteDraft): Place {
    (d.slot, d.path, d.pathType)
  }

  function Places(drafts: seq<RouteDraft>): set<Place> {
    set d | d in drafts :: PlaceOf(d)
  }

  function RulesAt(hosts: map<RouteHost, seq<PathRule>>, slot: RouteHost): seq<PathRule> {
    if slot in hosts then hosts[slot] else []
  }

  /** The virtual hosts of the drafts, or the first of them that cannot be built. */
  function Rules(backends: seq<Registered>, drafts: seq<RouteDraft>): Result<map<RouteHost, seq<PathRule>>, BuildError> {
    if drafts == [] then Ok(map[])
    else
      var init, last := drafts[..|drafts| - 1], drafts[|drafts| - 1];
      match Rules(backends, init)
      case Err(e) => Err(e)
      case Ok(hosts) =>
        if PlaceOf(last) in Places(init) then Err(DuplicatePath(SlotText(last.slot), last.path, last.pathType))
        else
          match ResolveDraft(backends, last)
          case Err(e) => Err(e)
          case Ok(rule) => Ok(hosts[last.slot := RulesAt(hosts, last.slot) + [rule]])
  }

  function ResolveDefault(backends: seq<Registered>, default: Option<string>): Result<Option<nat>, BuildError> {
    match default
    case None => Ok(None)
    case Some(name) =>
      match ResolveName(backends, name, "default backend") case Err(e) => Err(e) case Ok(id) => Ok(Some(id))
  }

  function TrimEndSlashes(s: string): string {
    if s != "" && s[|s| - 1] == '/' then TrimEndSlashes(s[..|s| - 1]) else s
  }

  /** How much of a request path a prefix rule accounts for; the root accounts for none. */
  function MatchLength(r: PathRule): nat {
    if r.pathType.Prefix? then |Utf8(TrimEndSlashes(r.path))| else 0
  }

  /** Exact first, then prefixes from longest to shortest, then patterns. */
  predicate RuleLe(a: PathRule, b: PathRule) {
    || PathTypeRank(a.pathType) < PathTypeRank(b.pathType)
    || (PathTypeRank(a.pathType) == PathTypeRank(b.pathType) && MatchLength(a) >= MatchLength(b))
  }

  lemma RuleOrder()
    ensures TotalPreorder(RuleLe)
  {
  }

  /** Each host's rules in the order a request is tried against them. */
  function InPrecedence(hosts: map<RouteHost, seq<PathRule>>): map<RouteHost, seq<PathRule>> {
    map slot | slot in hosts :: SortBy(RuleLe, hosts[slot])
  }

  lemma SortedAt(hosts: map<RouteHost, seq<PathRule>>, slot: RouteHost)
    ensures forall rule :: rule in RulesAt(InPrecedence(hosts), slot) <==> rule in RulesAt(hosts, slot)
    ensures SortedBy(RuleLe, RulesAt(InPrecedence(hosts), slot))
  {
    if slot in hosts {
      RuleOrder();
      SortBySorted(RuleLe, hosts[slot]);
      SameMembers(SortBy(RuleLe, hosts[slot]), hosts[slot]);
    }
  }

  method SortRules(hosts: map<RouteHost, seq<PathRule>>) returns (sorted: map<RouteHost, seq<PathRule>>)
    ensures sorted == InPrecedence(hosts)
  {
    var slots := Walk(hosts.Keys);
    sorted := map[];
    for i := 0 to |slots|
      invariant forall slot :: slot in sorted <==> slot in slots[..i]
      invariant forall slot :: slot in sorted ==> slot in hosts && sorted[slot] == SortBy(RuleLe, hosts[slot])
    {
      assert slots[i] in slots && slots[..i + 1] == slots[..i] + [slots[i]];
      sorted := sorted[slots[i] := SortBy(RuleLe, hosts[slots[i]])];
    }
    assert slots[..|slots|] == slots;
  }

  /** Everything validated and frozen. */
  function Built(generation: u64, backends: seq<Registered>, drafts: seq<RouteDraft>, default: Option<string>, sni: map<RouteHost, u64>)
    : Result<RouteTable, BuildError>
  {
    match Rules(backends, drafts)
    case Err(e) => Err(e)
    case Ok(hosts) =>
      match ResolveDefault(backends, default)
      case Err(e) => Err(e)
      case Ok(id) => Ok(RouteTable(generation, InPrecedence(hosts), id, backends, sni))
  }

  lemma {:induction false} ErrorsStick(backends: seq<Registered>, drafts: seq<RouteDraft>, n: nat)
    requires n <= |drafts| && Rules(backends, drafts[..n]).Err?
    ensures Rules(backends, drafts) == Rules(backends, drafts[..n])
  {
    if n == |drafts| {
      assert drafts[..n] == drafts;
    } else {
      var init := drafts[..|drafts| - 1];
      assert init[..n] == drafts[..n];
      ErrorsStick(backends, init, n);
    }
  }

  class RouteTableBuilder {
    const generation: u64
    var backends: seq<Registered>
    var routes: seq<RouteDraft>
    var defaultBackend: Option<string>
    var sni: map<RouteHost, u64>

    constructor (generation: u64)
      ensures this.generation == generation
      ensures backends == [] && routes == [] && defaultBackend == None && sni == map[]
    {
      this.generation := generation;
      backends, routes, defaultBackend, sni := [], [], None, map[];
    }

    /** Registers a backend; a name taken already is refused. */
    method BackendWith(b: Registered) returns (r: Result<nat, BuildError>)
      modifies this`backends
      ensures r == if IdOf(old(backends), b.name).Some? then Err(DuplicateBackend(b.name)) else Ok(|old(backends)|)
      ensures backends == if r.Ok? then old(backends) + [b] else old(backends)
    {
      if IdOf(backends, b.name).Some? {
        return Err(DuplicateBackend(b.name));
      }
      r := Ok(|backends|);
      backends := backends + [b];
    }

    /** Adds a route with its optional parts, if all of it is acceptable. */
    method RouteWithExtras(pats: Patterns, p: RoutePlan) returns (r: Result<(), RouteError>)
      modifies this`routes
      ensures r == match RouteWith(pats, p) case Ok(_) => Ok(()) case Err(e) => Err(e)
      ensures routes == match RouteWith(pats, p) case Ok(draft) => old(routes) + [draft] case Err(_) => old(routes)
    {
      match RouteWith(pats, p)
      case Err(e) => return Err(e);
      case Ok(draft) =>
        routes := routes + [draft];
        return Ok(());
    }

    /** Adds a planned route, dropping its optional parts rather than the route. */
    method Route(pats: Patterns, p: RoutePlan) returns (refused: bool)
      modifies this`routes
      ensures routes == old(routes) + DraftList(Accepted(pats, p))
      ensures refused <==> Accepted(pats, p).None?
    {
      var outcome := RouteWithExtras(pats, p);
      if outcome.Err? {
        outcome := RouteWithExtras(pats, Plain(p));
      }
      refused := outcome.Err?;
    }

    /** Files a certificate under a host, if the host is acceptable. */
    method Certificate(host: string, id: u64)
      modifies this`sni
      ensures sni == FileCertificate(old(sni), host, id)
    {
      match NormalizeConfigHost(host)
      case Err(_) =>
      case Ok(slot) => sni := sni[slot := id];
    }

    /** One route into its host, unless its place is taken or a name it uses is unknown. */
    method BuildOne(hosts: map<RouteHost, seq<PathRule>>, seen: set<Place>, i: nat)
      returns (r: Result<map<RouteHost, seq<PathRule>>, BuildError>)
      requires i < |routes| && Rules(backends, routes[..i]) == Ok(hosts) && seen == Places(routes[..i])
      ensures r == Rules(backends, routes[..i + 1])
    {
      assert routes[..i + 1][..i] == routes[..i];
      var draft := routes[i];
      if PlaceOf(draft) in seen {
        return Err(DuplicatePath(SlotText(draft.slot), draft.path, draft.pathType));
      }
      match ResolveDraft(backends, draft)
      case Err(e) => return Err(e);
      case Ok(rule) => return Ok(hosts[draft.slot := RulesAt(hosts, draft.slot) + [rule]]);
    }

    /** Groups the routes by host, resolving every name they use. */
    method BuildHosts() returns (r: Result<map<RouteHost, seq<PathRule>>, BuildError>)
      ensures r == Rules(backends, routes)
    {
      var hosts: map<RouteHost, seq<PathRule>> := map[];
      var seen: set<Place> := {};
      for i := 0 to |routes|
        invariant Rules(backends, routes[..i]) == Ok(hosts)
        invariant seen == Places(routes[..i])
      {
        var step := BuildOne(hosts, seen, i);
        if step.Err? {
          ErrorsStick(backends, routes, i + 1);
          return Err(step.error);
        }
        hosts := step.value;
        OneMorePlace(routes, i);
        seen := seen + {PlaceOf(routes[i])};
      }
      assert routes[..|routes|] == routes;
      return Ok(hosts);
    }

    /** Validates and freezes everything. */
    method Build() returns (r: Result<RouteTable, BuildError>)
      ensures r == Built(generation, backends, routes, defaultBackend, sni)
    {
      var hosts := BuildHosts();
      if hosts.Err? {
        return Err(hosts.error);
      }
      var sorted := SortRules(hosts.value);
      var default := ResolveDefault(backends, defaultBackend);
      if default.Err? {
        return Err(default.error);
      }
      return Ok(RouteTable(generation, sorted, default.value, backends, sni));
    }
  }

  function DraftList(draft: Option<RouteDraft>): seq<RouteDraft> {
    match draft case None => [] case Some(d) => [d]
  }

  function FileCertificate(sni: map<RouteHost, u64>, host: string, id: u64): map<RouteHost, u64> {
    match NormalizeConfigHost(host) case Err(_) => sni case Ok(slot) => sni[slot := id]
  }

  lemma OneMorePlace(drafts: seq<RouteDraft>, i: nat)
    requires i < |drafts|
    ensures Places(drafts[..i + 1]) == Places(drafts[..i]) + {PlaceOf(drafts[i])}
  {
    assert forall d :: d in drafts[..i + 1] <==> d in drafts[..i] || d == drafts[i];
  }

  // -------------------------------------------------------------------------
  // What is in a table
  // -------------------------------------------------------------------------

  ghost predicate DistinctPlaces(drafts: seq<RouteDraft>) {
    forall i, j :: 0 <= i < j < |drafts| ==> PlaceOf(drafts[i]) != PlaceOf(drafts[j])
  }

  /** The rule came from one of the drafts. */
  ghost predicate RuleOf(backends: seq<Registered>, drafts: seq<RouteDraft>, slot: RouteHost, rule: PathRule) {
    exists d :: d in drafts && d.slot == slot && ResolveDraft(backends, d) == Ok(rule)
  }

  /** Drafts in distinct places whose names are known make a table holding exactly their rules. */
  lemma {:induction false} RulesAreTheDrafts(backends: seq<Registered>, drafts: seq<RouteDraft>)
    requires DistinctPlaces(drafts)
    requires forall d :: d in drafts ==> ResolveDraft(backends, d).Ok?
    ensures Rules(backends, drafts).Ok?
    ensures forall slot, rule :: rule in RulesAt(Rules(backends, drafts).value, slot) <==> RuleOf(backends, drafts, slot, rule)
    ensures forall slot :: slot in Rules(backends, drafts).value <==> RulesAt(Rules(backends, drafts).value, slot) != []
  {
    if drafts != [] {
      var init, last := drafts[..|drafts| - 1], drafts[|drafts| - 1];
      assert forall d :: d in drafts <==> d in init || d == last;
      RulesAreTheDrafts(backends, init);
      LastPlaceIsFree(drafts);
      assert last in drafts;
      var before, after := Rules(backends, init).value, Rules(backends, drafts).value;
      forall slot, rule ensures rule in RulesAt(after, slot) <==> RuleOf(backends, drafts, slot, rule) {
        OneMoreRule(backends, init, last, slot, rule);
      }
    }
  }

  lemma LastPlaceIsFree(drafts: seq<RouteDraft>)
    requires drafts != [] && DistinctPlaces(drafts)
    ensures DistinctPlaces(drafts[..|drafts| - 1])
    ensures PlaceOf(drafts[|drafts| - 1]) !in Places(drafts[..|drafts| - 1])
  {
  }

  lemma OneMoreRule(backends: seq<Registered>, init: seq<RouteDraft>, last: RouteDraft, slot: RouteHost, rule: PathRule)
    ensures RuleOf(backends, init + [last], slot, rule)
            <==> RuleOf(backends, init, slot, rule) || (last.slot == slot && ResolveDraft(backends, last) == Ok(rule))
  {
    assert forall d :: d in init + [last] <==> d in init || d == last;
  }

  /** A host holds no path twice under one type. */
  ghost predicate DistinctRules(rules: seq<PathRule>) {
    forall i, j :: 0 <= i < j < |rules| ==> rules[i].path != rules[j].path || rules[i].pathType != rules[j].pathType
  }

  /** A rule already at the last draft's host is at another path or type. */
  lemma OtherPlaces(backends: seq<Registered>, init: seq<RouteDraft>, last: RouteDraft, rule: PathRule)
    requires PlaceOf(last) !in Places(init) && RuleOf(backends, init, last.slot, rule)
    ensures rule.path != last.path || rule.pathType != last.pathType
  {
    var d :| d in init && d.slot == last.slot && ResolveDraft(backends, d) == Ok(rule);
    assert PlaceOf(d) in Places(init);
  }

  lemma AppendRule(rules: seq<PathRule>, rule: PathRule)
    requires DistinctRules(rules) && forall r :: r in rules ==> r.path != rule.path || r.pathType != rule.pathType
    ensures DistinctRules(rules + [rule])
  {
  }

  lemma {:induction false} HostsHoldNoPathTwice(backends: seq<Registered>, drafts: seq<RouteDraft>)
    requires DistinctPlaces(drafts)
    requires forall d :: d in drafts ==> ResolveDraft(backends, d).Ok?
    ensures Rules(backends, drafts).Ok?
    ensures forall slot :: DistinctRules(RulesAt(Rules(backends, drafts).value, slot))
  {
    if drafts != [] {
      var init, last := drafts[..|drafts| - 1], drafts[|drafts| - 1];
      assert forall d :: d in init ==> d in drafts;
      LastPlaceIsFree(drafts);
      HostsHoldNoPathTwice(backends, init);
      RulesAreTheDrafts(backends, init);
      assert last in drafts;
      forall rule | rule in RulesAt(Rules(backends, init).value, last.slot)
        ensures rule.path != last.path || rule.pathType != last.pathType
      {
        OtherPlaces(backends, init, last, rule);
      }
      AppendRule(RulesAt(Rules(backends, init).value, last.slot), ResolveDraft(backends, last).value);
    }
  }

  // -------------------------------------------------------------------------
  // Precedence
  // -------------------------------------------------------------------------

  function PlaceOfRule(r: PathRule): (string, PathType) {
    (r.path, r.pathType)
  }

  lemma DistinctByPlace(rules: seq<PathRule>)
    ensures DistinctRules(rules) <==> Distinct(MapSeq(PlaceOfRule, rules))
  {
    var places := MapSeq(PlaceOfRule, rules);
    if Distinct(places) {
      forall i, j | 0 <= i < j < |rules| ensures rules[i].path != rules[j].path || rules[i].pathType != rules[j].pathType {
        assert places[i] != places[j];
      }
    }
  }

  lemma SortedIsDistinct(rules: seq<PathRule>)
    requires DistinctRules(rules)
    ensures DistinctRules(SortBy(RuleLe, rules))
  {
    var sorted := SortBy(RuleLe, rules);
    DistinctByPlace(rules);
    DistinctByPlace(sorted);
    MapForgetsOrder(PlaceOfRule, rules, sorted);
    DistinctPermuted(MapSeq(PlaceOfRule, rules), MapSeq(PlaceOfRule, sorted));
  }

  predicate IsPattern(r: PathRule) {
    r.pathType.ImplementationSpecific?
  }

  lemma KeepCons(x: PathRule, s: seq<PathRule>)
    ensures Keep(IsPattern, [x] + s) == (if IsPattern(x) then [x] else []) + Keep(IsPattern, s)
  {
    KeepConcat(IsPattern, [x], s);
    assert [x][..0] == [] && Keep(IsPattern, [x][..0]) == [];
  }

  lemma {:induction false} InsertKeepsPatterns(x: PathRule, s: seq<PathRule>)
    ensures Keep(IsPattern, Insert(RuleLe, x, s)) == Keep(IsPattern, [x] + s)
  {
    if s != [] && !RuleLe(x, s[0]) {
      InsertKeepsPatterns(x, s[1..]);
      assert s == [s[0]] + s[1..];
      KeepCons(s[0], Insert(RuleLe, x, s[1..]));
      KeepCons(x, s[1..]);
      KeepCons(s[0], s[1..]);
      KeepCons(x, s);
    }
  }

  /** Patterns have no precedence among themselves: they stay in the order they were added. */
  lemma {:induction false} PatternsKeepTheirOrder(rules: seq<PathRule>)
    ensures Keep(IsPattern, SortBy(RuleLe, rules)) == Keep(IsPattern, rules)
  {
    if rules != [] {
      var rest := SortBy(RuleLe, rules[1..]);
      PatternsKeepTheirOrder(rules[1..]);
      InsertKeepsPatterns(rules[0], rest);
      KeepCons(rules[0], rest);
      KeepCons(rules[0], rules[1..]);
      assert rules == [rules[0]] + rules[1..];
    }
  }

  /** In a built table a rule comes before another only if it is tried no later: exact, then longer prefixes, then patterns. */
  lemma RulesAreInPrecedence(generation: u64, backends: seq<Registered>, drafts: seq<RouteDraft>, default: Option<string>,
                             sni: map<RouteHost, u64>, slot: RouteHost, i: nat, j: nat)
    requires Built(generation, backends, drafts, default, sni).Ok?
    requires i < j < |RulesAt(Built(generation, backends, drafts, default, sni).value.hosts, slot)|
    ensures var rules := RulesAt(Built(generation, backends, drafts, default, sni).value.hosts, slot);
            && PathTypeRank(rules[i].pathType) <= PathTypeRank(rules[j].pathType)
            && (rules[i].pathType.Prefix? && rules[j].pathType.Prefix? ==> MatchLength(rules[i]) >= MatchLength(rules[j]))
    ensures Keep(IsPattern, RulesAt(Built(generation, backends, drafts, default, sni).value.hosts, slot))
         == Keep(IsPattern, RulesAt(Rules(backends, drafts).value, slot))
  {
    var hosts := Rules(backends, drafts).value;
    SortedAt(hosts, slot);
    assert RuleLe(RulesAt(InPrecedence(hosts), slot)[i], RulesAt(InPrecedence(hosts), slot)[j]);
    PatternsKeepTheirOrder(RulesAt(hosts, slot));
  }
}
