/** The compiler: a bag of cluster objects in, a plan and its digest out. */
module Translate {
  import opened Wrappers
  import opened Machine
  import opened Ordering
  import opened Config
  import opened Objects
  import opened Planning
  import opened Endpoints
  import opened Backends
  import opened Certificates
  import opened Promotions
  import opened Router
  import opened Assembly
  import opened Digests

  datatype Snapshot = Snapshot(
    ingresses: seq<Ingress>,
    services: seq<Service>,
    slices: seq<Slice>,
    secrets: seq<Secret>)

  /** `ours` is the class filter: which Ingresses this controller manages. */
  datatype Options = Options(
    ours: Ingress -> bool,
    lbPolicy: LbPolicy,
    defaultBackend: Option<ServiceRef>,
    defaultTlsSecret: Option<string>)

  /** How text becomes addresses, addresses and thresholds become text, and which patterns compile. */
  datatype Formats = Formats(parseIp: IpParser, showAddress: AddressPrinter, showReal: RealPrinter, patterns: Patterns)

  /** `targets` is in age order, as the digest sees it. */
  datatype Plan = Plan(
    managed: seq<ObjectKey>,
    routes: Routes,
    defaultBackend: Option<ServiceRef>,
    backends: seq<Registered>,
    certs: CertPlan,
    targets: seq<PromotionTarget>)

  datatype Translation = Translation(plan: Plan, promotions: seq<PromotionTarget>, generation: u64, digest: u64)

  // -------------------------------------------------------------------------
  // What the digest covers
  // -------------------------------------------------------------------------

  function CanaryFields(canary: Option<CanaryPlan>): seq<Field> {
    match canary
    case None => [Tag(0)]
    case Some(c) =>
      ShareFields(c) + OverrideFields(c.rules)
  }

  function ShareFields(c: CanaryPlan): seq<Field> {
    [Tag(1), Text(Utf8(BackendName(c.backend))), Word(c.rules.weight), Word(c.rules.weightTotal)]
  }

  /** The header and cookie that can force a canary decision. */
  function OverrideFields(r: CanaryRules): seq<Field> {
    [OptText(OptBytes(r.header)), OptText(OptBytes(r.headerValue)),
     OptText(OptBytes(r.headerPattern)), OptText(OptBytes(r.cookie))]
  }

  function MirrorFields(mirror: Option<MirrorPlan>): seq<Field> {
    match mirror
    case None => [Tag(0)]
    case Some(m) => [Tag(1), Text(Utf8(BackendName(m.backend))), Word(m.percent), OptText(OptBytes(m.host))]
  }

  function PlaceFields(p: RoutePlan): seq<Field> {
    [OptText(OptBytes(p.key.host)), Text(Utf8(p.key.path)), Tag(PathTypeRank(p.key.pathType)),
     Text(Utf8(BackendName(p.backend)))]
  }

  function RouteFields(p: RoutePlan): seq<Field> {
    PlaceFields(p) + CanaryFields(p.canary) + MirrorFields(p.mirror)
  }

  function RoutesFields(routes: Routes, keys: seq<RouteKey>): seq<Field>
    requires forall k :: k in keys ==> k in routes
  {
    if keys == [] then []
    else RoutesFields(routes, keys[..|keys| - 1]) + RouteFields(routes[keys[|keys| - 1]])
  }

  function DefaultField(default: Option<ServiceRef>): Field {
    OptText(match default case None => None case Some(r) => Some(Utf8(BackendName(r))))
  }

  ghost function RestFields(fmt: Formats, routes: Routes, default: Option<ServiceRef>, certs: CertPlan, targets: seq<PromotionTarget>)
    : seq<Field>
  {
    RoutesFields(routes, RouteOrderOf(routes)) + [DefaultField(default)] + CertFields(certs) + TargetsFields(fmt.showReal, targets)
  }

  /** Everything mixed in after the backends. */
  ghost function FieldsAfterBackends(fmt: Formats, p: Plan): seq<Field> {
    RestFields(fmt, p.routes, p.defaultBackend, p.certs, p.targets)
  }

  ghost function DigestOf(fmt: Formats, lb: LbPolicy, p: Plan): u64 {
    Fnv(FNV_OFFSET, Stream(BackendsFields(fmt.showAddress, lb, p.backends) + FieldsAfterBackends(fmt, p)))
  }

  // -------------------------------------------------------------------------
  // The compiler as a function
  // -------------------------------------------------------------------------

  /** The Ingresses this controller manages, oldest first. */
  function Managed(opts: Options, ingresses: seq<Ingress>): seq<Ingress> {
    SortBy(AgeLe, Keep(opts.ours, ingresses))
  }

  function Production(managed: seq<Ingress>): seq<Ingress> {
    Keep((i: Ingress) => !i.canary.enabled, managed)
  }

  function Canaries(managed: seq<Ingress>): seq<Ingress> {
    Keep((i: Ingress) => i.canary.enabled, managed)
  }

  /** An Ingress's bid to be the default outranks the configured one. */
  function DefaultBackend(opts: Options, production: seq<Ingress>): Option<ServiceRef> {
    match GlobalDefault(production)
    case Some((target, _)) => Some(target)
    case None => opts.defaultBackend
  }

  function KeysOf(managed: seq<Ingress>): seq<ObjectKey> {
    MapSeq((i: Ingress) => i.key, managed)
  }

  ghost function PlanOf(fmt: Formats, opts: Options, s: Snapshot): Plan {
    var managed := Managed(opts, s.ingresses);
    var production, canaries := Production(managed), Canaries(managed);
    var routes := PlannedWithCanaries(production, canaries);
    var default := DefaultBackend(opts, production);
    Plan(KeysOf(managed), routes, default,
         AllEntries(fmt.parseIp, s.services, s.slices, Collected(routes, default)),
         PlanCerts(IndexSecrets(s.secrets), opts.defaultTlsSecret, managed),
         Targets(routes, canaries))
  }

  /** The first table is generation 0; each later one is one past the last. */
  function NextGeneration(previous: Option<u64>): u64 {
    match previous
    case None => 0
    case Some(g) => if g + 1 < TWO_TO_64 then g + 1 else g
  }

  ghost function TranslationOf(fmt: Formats, opts: Options, s: Snapshot, previous: Option<u64>): Translation {
    var p := PlanOf(fmt, opts, s);
    Translation(p, SortBy(TargetLe, p.targets), NextGeneration(previous), DigestOf(fmt, opts.lbPolicy, p))
  }

  /** The table the router freezes a translation into. */
  ghost function TableFor(fmt: Formats, t: Translation): Result<RouteTable, BuildError> {
    TableOf(fmt.patterns, t.generation, t.plan.backends, t.plan.routes, t.plan.defaultBackend, t.plan.certs)
  }

  /** The plan is closed and normal, so the router never refuses it as a whole. */
  lemma TableIsBuilt(fmt: Formats, opts: Options, s: Snapshot, previous: Option<u64>)
    ensures var t := TranslationOf(fmt, opts, s, previous);
            && NormalRoutes(t.plan.routes) && Closed(t.plan.backends, t.plan.routes, t.plan.defaultBackend)
            && TableFor(fmt, t).Ok?
  {
    var managed := Managed(opts, s.ingresses);
    var production, canaries := Production(managed), Canaries(managed);
    var p := PlanOf(fmt, opts, s);
    PlannedIsNormal(production, canaries);
    EntriesAreClosed(fmt.parseIp, s.services, s.slices, p.routes, p.defaultBackend);
    BuildSucceeds(fmt.patterns, NextGeneration(previous), p.backends, p.routes, p.defaultBackend, p.certs);
  }

  // -------------------------------------------------------------------------
  // The compiler as it runs
  // -------------------------------------------------------------------------

  lemma OneMoreRouteFields(routes: Routes, keys: seq<RouteKey>, i: nat)
    requires i < |keys| && forall k :: k in keys ==> k in routes
    ensures (forall k :: k in keys[..i] ==> k in routes) && (forall k :: k in keys[..i + 1] ==> k in routes)
    ensures RoutesFields(routes, keys[..i + 1]) == RoutesFields(routes, keys[..i]) + RouteFields(routes[keys[i]])
  {
    assert keys[..i + 1][..i] == keys[..i];
  }

  /** One route, digested and registered. */
  method RegisterRoute(pats: Patterns, routes: Routes, keys: seq<RouteKey>, i: nat, builder: RouteTableBuilder, d: Digest,
                       ghost seed: u64)
    requires i < |keys| && Within(keys, routes) && Within(keys[..i], routes)
    requires d.state == Fnv(seed, Stream(RoutesFields(routes, keys[..i])))
    requires builder.routes == Drafts(pats, routes, keys[..i])
    modifies d`state, builder`routes
    ensures Within(keys[..i + 1], routes)
    ensures d.state == Fnv(seed, Stream(RoutesFields(routes, keys[..i + 1])))
    ensures builder.routes == Drafts(pats, routes, keys[..i + 1])
  {
    OneMoreDraft(pats, routes, keys, i);
    MixRoute(routes, keys, i, d, seed);
    var _ := builder.Route(pats, routes[keys[i]]);
  }

  method RegisterInOrder(pats: Patterns, routes: Routes, keys: seq<RouteKey>, builder: RouteTableBuilder, d: Digest)
    requires Within(keys, routes) && builder.routes == []
    modifies d`state, builder`routes
    ensures d.state == Fnv(old(d.state), Stream(RoutesFields(routes, keys)))
    ensures builder.routes == Drafts(pats, routes, keys)
  {
    ghost var seed := d.state;
    for i := 0 to |keys|
      invariant Within(keys[..i], routes)
      invariant d.state == Fnv(seed, Stream(RoutesFields(routes, keys[..i])))
      invariant builder.routes == Drafts(pats, routes, keys[..i])
    {
      RegisterRoute(pats, routes, keys, i, builder, d, seed);
    }
    assert keys[..|keys|] == keys;
  }

  /** Registers every planned route in route order, folding each into the digest, taken or not. */
  method RegisterRoutes(pats: Patterns, routes: Routes, builder: RouteTableBuilder, d: Digest)
    requires builder.routes == []
    modifies d`state, builder`routes
    ensures d.state == Fnv(old(d.state), Stream(RoutesFields(routes, RouteOrderOf(routes))))
    ensures builder.routes == Drafts(pats, routes, RouteOrderOf(routes))
  {
    var keys := SortedRoutes(routes);
    RegisterInOrder(pats, routes, keys, builder, d);
  }

  lemma OneMoreDraft(pats: Patterns, routes: Routes, keys: seq<RouteKey>, i: nat)
    requires i < |keys| && Within(keys, routes)
    ensures Within(keys[..i], routes) && Within(keys[..i + 1], routes)
    ensures Drafts(pats, routes, keys[..i + 1]) == Drafts(pats, routes, keys[..i]) + DraftList(Accepted(pats, routes[keys[i]]))
  {
    assert keys[..i + 1][..i] == keys[..i];
  }

  method MixRoute(routes: Routes, keys: seq<RouteKey>, i: nat, d: Digest, ghost seed: u64)
    requires i < |keys| && forall k :: k in keys ==> k in routes
    requires (forall k :: k in keys[..i] ==> k in routes) && d.state == Fnv(seed, Stream(RoutesFields(routes, keys[..i])))
    modifies d`state
    ensures (forall k :: k in keys[..i + 1] ==> k in routes) && d.state == Fnv(seed, Stream(RoutesFields(routes, keys[..i + 1])))
  {
    OneMoreRouteFields(routes, keys, i);
    OneMoreItem(seed, RoutesFields(routes, keys[..i]), RouteFields(routes[keys[i]]));
    d.MixAll(RouteFields(routes[keys[i]]));
  }

  method PlanRoutes(production: seq<Ingress>, canaries: seq<Ingress>)
    returns (routes: Routes, bid: Option<(ServiceRef, ObjectKey)>)
    ensures routes == PlannedWithCanaries(production, canaries)
    ensures bid == GlobalDefault(production)
  {
    var planner := new Planner();
    planner.PlanAll(production);
    planner.AttachCanaries(canaries);
    routes, bid := planner.routes, planner.globalDefault;
  }

  lemma FiveParts<T>(a: seq<T>, b: seq<T>, c: seq<T>, d: seq<T>, e: seq<T>)
    ensures a + b + c + d + e == a + (b + c + d + e)
  {
    ConcatAssociative(a, b, c);
    ConcatAssociative(a, b + c, d);
    ConcatAssociative(a, b + c + d, e);
  }

  lemma SectionsJoin(seed: u64, backends: seq<Field>, routes: seq<Field>, default: Field, certs: seq<Field>, targets: seq<Field>)
    ensures Fnv(Fnv(Fnv(Fnv(Fnv(seed, Stream(backends)), Stream(routes)), default.Code()), Stream(certs)), Stream(targets))
         == Fnv(seed, Stream(backends + (routes + [default] + certs + targets)))
  {
    OneMoreItem(seed, backends, routes);
    FnvField(seed, backends + routes, default);
    OneMoreItem(seed, backends + routes + [default], certs);
    OneMoreItem(seed, backends + routes + [default] + certs, targets);
    FiveParts(backends, routes, [default], certs, targets);
  }

  /** Registers backends whose names are distinct: the router refuses none. */
  method LoadBackends(builder: RouteTableBuilder, backends: seq<Registered>)
    requires builder.backends == [] && DistinctNames(backends)
    modifies builder`backends
    ensures builder.backends == backends
  {
    for i := 0 to |backends|
      invariant builder.backends == backends[..i]
    {
      FreshName(backends, i);
      var r := builder.BackendWith(backends[i]);
      assert backends[..i + 1] == backends[..i] + [backends[i]];
    }
    assert backends[..|backends|] == backends;
  }

  lemma FreshName(backends: seq<Registered>, i: nat)
    requires i < |backends| && DistinctNames(backends)
    ensures IdOf(backends[..i], backends[i].name).None?
  {
  }

  /** Files every certificate whose host the router takes. */
  method FileCertificates(builder: RouteTableBuilder, sni: Sni, hosts: seq<string>)
    requires builder.sni == map[] && forall h :: h in hosts ==> h in sni
    modifies builder`sni
    ensures builder.sni == FileAll(sni, hosts)
  {
    for i := 0 to |hosts|
      invariant builder.sni == FileAll(sni, hosts[..i])
    {
      assert hosts[..i + 1][..i] == hosts[..i];
      builder.Certificate(hosts[i], sni[hosts[i]].handleId);
    }
    assert hosts[..|hosts|] == hosts;
  }

  method LoadCertificates(builder: RouteTableBuilder, certs: CertPlan)
    requires builder.sni == map[]
    modifies builder`sni
    ensures builder.sni == SniTable(certs)
  {
    var hosts := SortedHosts(certs.sni);
    FileCertificates(builder, certs.sni, hosts);
    if certs.defaultCert.Some? {
      builder.sni := builder.sni[CatchAll := certs.defaultCert.value];
    }
  }

  /** Mixing in the sections one by one is mixing in the whole plan. */
  lemma PlanSectionsJoin(fmt: Formats, lb: LbPolicy, p: Plan)
    ensures DigestOf(fmt, lb, p)
         == Fnv(Fnv(Fnv(Fnv(Fnv(FNV_OFFSET, Stream(BackendsFields(fmt.showAddress, lb, p.backends))),
                                Stream(RoutesFields(p.routes, RouteOrderOf(p.routes)))),
                            DefaultField(p.defaultBackend).Code()),
                        Stream(CertFields(p.certs))),
                    Stream(TargetsFields(fmt.showReal, p.targets)))
  {
    SectionsJoin(FNV_OFFSET, BackendsFields(fmt.showAddress, lb, p.backends), RoutesFields(p.routes, RouteOrderOf(p.routes)),
                 DefaultField(p.defaultBackend), CertFields(p.certs), TargetsFields(fmt.showReal, p.targets));
  }

  /** The plan a snapshot's parts make. */
  ghost predicate IsPlan(p: Plan, opts: Options, secrets: seq<Secret>, managed: seq<Ingress>, routes: Routes, default: Option<ServiceRef>) {
    && p.routes == routes && p.defaultBackend == default && p.managed == KeysOf(managed)
    && p.certs == PlanCerts(IndexSecrets(secrets), opts.defaultTlsSecret, managed)
    && p.targets == Targets(routes, Canaries(managed))
  }

  method RegisterRouting(pats: Patterns, routes: Routes, default: Option<ServiceRef>, builder: RouteTableBuilder, d: Digest)
    requires builder.routes == []
    modifies d`state, builder`routes, builder`defaultBackend
    ensures d.state == Fnv(Fnv(old(d.state), Stream(RoutesFields(routes, RouteOrderOf(routes)))), DefaultField(default).Code())
    ensures builder.routes == Drafts(pats, routes, RouteOrderOf(routes)) && builder.defaultBackend == DefaultName(default)
    ensures builder.backends == old(builder.backends)
  {
    RegisterRoutes(pats, routes, builder, d);
    builder.defaultBackend := DefaultName(default);
    d.Mix(DefaultField(default));
  }

  method RegisterTls(opts: Options, secrets: seq<Secret>, managed: seq<Ingress>, builder: RouteTableBuilder, d: Digest)
    returns (certs: CertPlan)
    requires builder.sni == map[]
    modifies d`state, builder`sni
    ensures certs == PlanCerts(IndexSecrets(secrets), opts.defaultTlsSecret, managed)
    ensures d.state == Fnv(old(d.state), Stream(CertFields(certs))) && builder.sni == SniTable(certs)
    ensures builder.backends == old(builder.backends)
  {
    certs := RegisterCertificates(secrets, opts.defaultTlsSecret, managed, d);
    LoadCertificates(builder, certs);
  }

  /** Registers and folds in what follows the backends, collecting certificates and promotions. */
  method RegisterRest(fmt: Formats, opts: Options, secrets: seq<Secret>, managed: seq<Ingress>, routes: Routes,
                      default: Option<ServiceRef>, builder: RouteTableBuilder, d: Digest, ghost p: Plan)
    returns (certs: CertPlan, promotions: seq<PromotionTarget>)
    requires IsPlan(p, opts, secrets, managed, routes, default)
    requires d.state == Fnv(FNV_OFFSET, Stream(BackendsFields(fmt.showAddress, opts.lbPolicy, p.backends)))
    requires builder.routes == [] && builder.sni == map[] && builder.backends == p.backends
    modifies d`state, builder`routes, builder`sni, builder`defaultBackend
    ensures builder.backends == p.backends
    ensures certs == p.certs && promotions == SortBy(TargetLe, p.targets)
    ensures d.state == DigestOf(fmt, opts.lbPolicy, p)
    ensures builder.routes == Drafts(fmt.patterns, p.routes, RouteOrderOf(p.routes))
    ensures builder.defaultBackend == DefaultName(p.defaultBackend) && builder.sni == SniTable(p.certs)
  {
    RegisterRouting(fmt.patterns, routes, default, builder, d);
    certs := RegisterTls(opts, secrets, managed, builder, d);
    ghost var backends := builder.backends;
    promotions := CollectPromotions(fmt.showReal, Canaries(managed), routes, d);
    assert builder.backends == backends;
    PlanSectionsJoin(fmt, opts.lbPolicy, p);
  }

  /** A generation ready to publish. */
  datatype Compiled = Compiled(
    table: RouteTable,
    certs: Materials,
    promotions: seq<PromotionTarget>,
    managed: seq<ObjectKey>,
    digest: u64)

  /** What a loaded builder builds. */
  method BuildTable(builder: RouteTableBuilder, ghost pats: Patterns, ghost routes: Routes, ghost default: Option<ServiceRef>,
                    ghost certs: CertPlan)
    returns (table: Result<RouteTable, BuildError>)
    requires builder.routes == Drafts(pats, routes, RouteOrderOf(routes))
    requires builder.defaultBackend == DefaultName(default) && builder.sni == SniTable(certs)
    ensures table == TableOf(pats, builder.generation, builder.backends, routes, default, certs)
  {
    table := builder.Build();
  }

  /** Plans the routes and registers every backend they refer to. */
  method PrepareBackends(fmt: Formats, opts: Options, s: Snapshot, builder: RouteTableBuilder, d: Digest)
    returns (clash: Option<BuildError>, managed: seq<Ingress>, routes: Routes, default: Option<ServiceRef>, ghost p: Plan)
    requires builder.backends == [] && d.state == FNV_OFFSET
    modifies d`state, builder`backends
    ensures p == PlanOf(fmt, opts, s) && IsPlan(p, opts, s.secrets, managed, routes, default)
    ensures clash.None? <==> DistinctNames(p.backends)
    ensures clash.Some? ==> clash.value.DuplicateBackend?
    ensures clash.None? ==>
              && builder.backends == p.backends
              && d.state == Fnv(FNV_OFFSET, Stream(BackendsFields(fmt.showAddress, opts.lbPolicy, p.backends)))
  {
    managed := Managed(opts, s.ingresses);
    var bid: Option<(ServiceRef, ObjectKey)>;
    routes, bid := PlanRoutes(Production(managed), Canaries(managed));
    default := if bid.Some? then Some(bid.value.0) else opts.defaultBackend;
    var backends := CollectBackends(routes, default);
    p := PlanOf(fmt, opts, s);
    var registered := RegisterBackends(fmt.parseIp, fmt.showAddress, opts.lbPolicy, s.services, s.slices, backends, d);
    match registered
    case Err(e) => clash := Some(e);
    case Ok(all) =>
      clash := None;
      LoadBackends(builder, all);
  }

  /** Every phase up to building the table. */
  method Prepare(fmt: Formats, opts: Options, s: Snapshot, builder: RouteTableBuilder)
    returns (clash: Option<BuildError>, certs: CertPlan, promotions: seq<PromotionTarget>, managed: seq<Ingress>, digest: u64,
             ghost p: Plan)
    requires builder.backends == [] && builder.routes == [] && builder.sni == map[]
    modifies builder
    ensures p == PlanOf(fmt, opts, s) && KeysOf(managed) == p.managed
    ensures clash.None? <==> DistinctNames(p.backends)
    ensures clash.Some? ==> clash.value.DuplicateBackend?
    ensures clash.None? ==> builder.backends == p.backends
    ensures clash.None? ==> builder.routes == Drafts(fmt.patterns, p.routes, RouteOrderOf(p.routes))
    ensures clash.None? ==> builder.defaultBackend == DefaultName(p.defaultBackend)
    ensures clash.None? ==> builder.sni == SniTable(p.certs)
    ensures clash.None? ==> certs == p.certs
    ensures clash.None? ==> promotions == SortBy(TargetLe, p.targets)
    ensures clash.None? ==> digest == DigestOf(fmt, opts.lbPolicy, p)
  {
    var d := new Digest();
    var routes, default;
    certs, promotions, digest := CertPlan(map[], map[], None), [], 0;
    clash, managed, routes, default, p := PrepareBackends(fmt, opts, s, builder, d);
    if clash.None? {
      certs, promotions := RegisterRest(fmt, opts, s.secrets, managed, routes, default, builder, d, p);
      digest := d.Finish();
    }
  }

  /** Compiles a snapshot; fails exactly when two references share a backend name. */
  method Compile(fmt: Formats, opts: Options, s: Snapshot, previous: Option<u64>) returns (r: Result<Compiled, BuildError>)
    ensures r.Ok? <==> DistinctNames(PlanOf(fmt, opts, s).backends)
    ensures r.Err? ==> r.error.DuplicateBackend?
    ensures r.Ok? ==>
              var t := TranslationOf(fmt, opts, s, previous);
              && TableFor(fmt, t) == Ok(r.value.table)
              && r.value == Compiled(r.value.table, t.plan.certs.materials, t.promotions, t.plan.managed, t.digest)
  {
    var builder := new RouteTableBuilder(NextGeneration(previous));
    var clash, certs, promotions, managed, digest, p := Prepare(fmt, opts, s, builder);
    if clash.Some? {
      return Err(clash.value);
    }
    var table := BuildTable(builder, fmt.patterns, p.routes, p.defaultBackend, p.certs);
    TableIsBuilt(fmt, opts, s, previous);
    return Ok(Compiled(table.value, certs.materials, promotions, KeysOf(managed), digest));
  }

  // -------------------------------------------------------------------------
  // Arrival order does not matter
  // -------------------------------------------------------------------------

  ghost predicate DistinctIngresses(ingresses: seq<Ingress>) {
    forall i, j :: 0 <= i < j < |ingresses| ==> ingresses[i].key != ingresses[j].key
  }

  /** An API server holds one object of each kind per namespace and name. */
  ghost predicate FromOneCluster(s: Snapshot) {
    DistinctIngresses(s.ingresses) && DistinctServices(s.services) && DistinctSecrets(s.secrets)
  }

  ghost predicate SameObjects(a: Snapshot, b: Snapshot) {
    && multiset(a.ingresses) == multiset(b.ingresses)
    && multiset(a.services) == multiset(b.services)
    && multiset(a.slices) == multiset(b.slices)
    && multiset(a.secrets) == multiset(b.secrets)
  }

  lemma ManagedForgetsOrder(opts: Options, a: seq<Ingress>, b: seq<Ingress>)
    requires DistinctIngresses(a) && multiset(a) == multiset(b)
    ensures Managed(opts, a) == Managed(opts, b)
  {
    KeepForgetsOrder(opts.ours, a, b);
    AgeOrder();
    forall x, y | x in Keep(opts.ours, a) && y in Keep(opts.ours, a) && AgeLe(x, y) && AgeLe(y, x) ensures x == y {
      var i :| 0 <= i < |a| && a[i] == x;
      var j :| 0 <= j < |a| && a[j] == y;
    }
    SortForgetsOrder(AgeLe, Keep(opts.ours, a), Keep(opts.ours, b));
  }

  /**
   * The same objects, in whatever order the watches delivered them and whatever
   * table came before, compile to the same plan and the same digest.
   */
  lemma CompilationForgetsOrder(fmt: Formats, opts: Options, a: Snapshot, b: Snapshot, p: Option<u64>, q: Option<u64>)
    requires FromOneCluster(a) && FromOneCluster(b) && SameObjects(a, b)
    ensures TranslationOf(fmt, opts, a, p) == TranslationOf(fmt, opts, b, q).(generation := NextGeneration(p))
  {
    ManagedForgetsOrder(opts, a.ingresses, b.ingresses);
    SecretsForgetOrder(a.secrets, b.secrets);
    EntriesForgetOrder(fmt.parseIp, a.services, b.services, a.slices, b.slices, PlanProtocols(opts, a.ingresses));
  }

  ghost function PlanProtocols(opts: Options, ingresses: seq<Ingress>): Protocols {
    var managed := Managed(opts, ingresses);
    Collected(PlannedWithCanaries(Production(managed), Canaries(managed)), DefaultBackend(opts, Production(managed)))
  }

  /** Managed Ingresses come out oldest first, and are exactly the filtered ones. */
  lemma ManagedIsFilteredByAge(opts: Options, ingresses: seq<Ingress>)
    ensures SortedBy(AgeLe, Managed(opts, ingresses))
    ensures forall i :: i in Managed(opts, ingresses) <==> i in ingresses && opts.ours(i)
  {
    AgeOrder();
    SortBySorted(AgeLe, Keep(opts.ours, ingresses));
    SameMembers(Keep(opts.ours, ingresses), Managed(opts, ingresses));
  }

  // -------------------------------------------------------------------------
  // What a digest distinguishes
  // -------------------------------------------------------------------------

  /** One backend's protocol flipped, all else equal: the rebuild loop publishes. */
  lemma FlippedProtocolRepublishes(fmt: Formats, lb: LbPolicy, before: Plan, after: Plan, i: nat, p: BackendProtocol)
    requires i < |before.backends| && p != before.backends[i].protocol
    requires after.backends == before.backends[i := before.backends[i].(protocol := p)]
    requires FieldsAfterBackends(fmt, after) == FieldsAfterBackends(fmt, before)
    ensures DigestOf(fmt, lb, before) != DigestOf(fmt, lb, after)
  {
    ProtocolFlipShows(fmt.showAddress, lb, before.backends, i, p, FieldsAfterBackends(fmt, before));
  }

  /** The text of a route, short enough to be length-prefixed by 64 bits. */
  ghost predicate BoundedFields(fields: seq<Field>) {
    forall f :: f in fields ==> f.Bounded()
  }

  lemma ShapesJoin(a: seq<Field>, b: seq<Field>, c: seq<Field>, d: seq<Field>)
    requires SameShapes(a, b) && SameShapes(c, d)
    ensures SameShapes(a + c, b + d)
  {
  }

  lemma BoundedAt(fields: seq<Field>, i: nat)
    requires BoundedFields(fields) && i < |fields|
    ensures fields[i].Bounded()
  {
    assert fields[i] in fields;
  }

  lemma FourShapes(f: seq<Field>, g: seq<Field>)
    requires |f| == |g| == 4 && BoundedFields(f) && BoundedFields(g)
    requires f[0].SameShape(g[0]) && f[1].SameShape(g[1]) && f[2].SameShape(g[2]) && f[3].SameShape(g[3])
    ensures SameShapes(f, g)
  {
    forall i | 0 <= i < 4 ensures f[i].SameShape(g[i]) && f[i].Bounded() && g[i].Bounded() {
      BoundedAt(f, i);
      BoundedAt(g, i);
    }
  }

  lemma BoundedParts(a: seq<Field>, b: seq<Field>)
    requires BoundedFields(a + b)
    ensures BoundedFields(a) && BoundedFields(b)
  {
    assert forall x :: x in a || x in b ==> x in a + b;
  }

  lemma CanaryShapes(a: CanaryPlan, b: CanaryPlan)
    requires BoundedFields(ShareFields(a) + OverrideFields(a.rules)) && BoundedFields(ShareFields(b) + OverrideFields(b.rules))
    ensures SameShapes(ShareFields(a) + OverrideFields(a.rules), ShareFields(b) + OverrideFields(b.rules))
  {
    BoundedParts(ShareFields(a), OverrideFields(a.rules));
    BoundedParts(ShareFields(b), OverrideFields(b.rules));
    FourShapes(ShareFields(a), ShareFields(b));
    FourShapes(OverrideFields(a.rules), OverrideFields(b.rules));
    ShapesJoin(ShareFields(a), ShareFields(b), OverrideFields(a.rules), OverrideFields(b.rules));
  }

  lemma CanaryFieldsReadBack(a: Option<CanaryPlan>, b: Option<CanaryPlan>, x: seq<byte>, y: seq<byte>)
    requires BoundedFields(CanaryFields(a)) && BoundedFields(CanaryFields(b))
    requires Stream(CanaryFields(a)) + x == Stream(CanaryFields(b)) + y
    ensures CanaryFields(a) == CanaryFields(b) && x == y
  {
    FirstByteIsTag(CanaryFields(a), x);
    FirstByteIsTag(CanaryFields(b), y);
    if a.Some? {
      CanaryShapes(a.value, b.value);
    }
    StreamPrefixFree(CanaryFields(a), CanaryFields(b), x, y);
  }

  lemma MirrorFieldsReadBack(a: Option<MirrorPlan>, b: Option<MirrorPlan>, x: seq<byte>, y: seq<byte>)
    requires BoundedFields(MirrorFields(a)) && BoundedFields(MirrorFields(b))
    requires Stream(MirrorFields(a)) + x == Stream(MirrorFields(b)) + y
    ensures MirrorFields(a) == MirrorFields(b) && x == y
  {
    FirstByteIsTag(MirrorFields(a), x);
    FirstByteIsTag(MirrorFields(b), y);
    StreamPrefixFree(MirrorFields(a), MirrorFields(b), x, y);
  }

  lemma FirstByteIsTag(fields: seq<Field>, x: seq<byte>)
    requires fields != [] && fields[0].Tag?
    ensures Stream(fields) + x != [] && (Stream(fields) + x)[0] == fields[0].tag
  {
    assert Stream(fields)[0] == fields[0].Code()[0];
  }

  /**
   * A route's bytes in the digest stream say where the route's entry ends and
   * what it is: two routes with or without canaries and mirrors share their
   * bytes only when every digested field agrees.
   */
  lemma RouteReadsBack(a: RoutePlan, b: RoutePlan, x: seq<byte>, y: seq<byte>)
    requires BoundedFields(RouteFields(a)) && BoundedFields(RouteFields(b))
    requires Stream(RouteFields(a)) + x == Stream(RouteFields(b)) + y
    ensures RouteFields(a) == RouteFields(b) && x == y
  {
    var ta, ca, ma := PlaceFields(a), CanaryFields(a.canary), MirrorFields(a.mirror);
    var tb, cb, mb := PlaceFields(b), CanaryFields(b.canary), MirrorFields(b.mirror);
    BoundedParts(ta + ca, ma);
    BoundedParts(ta, ca);
    BoundedParts(tb + cb, mb);
    BoundedParts(tb, cb);
    ThreeSections(ta, ca, ma, x);
    ThreeSections(tb, cb, mb, y);
    StreamPrefixFree(ta, tb, Stream(ca) + (Stream(ma) + x), Stream(cb) + (Stream(mb) + y));
    CanaryFieldsReadBack(a.canary, b.canary, Stream(ma) + x, Stream(mb) + y);
    MirrorFieldsReadBack(a.mirror, b.mirror, x, y);
  }

  lemma ThreeSections(t: seq<Field>, c: seq<Field>, m: seq<Field>, x: seq<byte>)
    ensures Stream(t + c + m) + x == Stream(t) + (Stream(c) + (Stream(m) + x))
  {
    StreamConcat(t + c, m);
    StreamConcat(t, c);
    ConcatAssociative(Stream(t) + Stream(c), Stream(m), x);
    ConcatAssociative(Stream(t), Stream(c), Stream(m) + x);
  }

  /** Equal digest fields mean the same route: same key, backends, rules, shares. */
  lemma RouteFieldsMeanTheRoute(a: RoutePlan, b: RoutePlan)
    requires RouteFields(a) == RouteFields(b)
    requires WellFormed(a.backend) && WellFormed(b.backend)
    ensures a.key == b.key && a.backend == b.backend
    ensures CanaryFields(a.canary) == CanaryFields(b.canary) && MirrorFields(a.mirror) == MirrorFields(b.mirror)
  {
    var ta, ca, ma := PlaceFields(a), CanaryFields(a.canary), MirrorFields(a.mirror);
    var tb, cb, mb := PlaceFields(b), CanaryFields(b.canary), MirrorFields(b.mirror);
    assert ta + (ca + ma) == RouteFields(a) == RouteFields(b) == tb + (cb + mb);
    SplitEqual(ta, tb, ca + ma, cb + mb);
    assert ta[0] == tb[0] && ta[1] == tb[1] && ta[2] == tb[2] && ta[3] == tb[3];
    OptBytesInjective(a.key.host, b.key.host);
    Utf8Injective(a.key.path, b.key.path);
    Utf8Injective(BackendName(a.backend), BackendName(b.backend));
    BackendNamesDistinct(a.backend, b.backend);
    SplitCanary(a.canary, b.canary, ma, mb);
  }

  lemma OptBytesInjective(a: Option<string>, b: Option<string>)
    requires OptBytes(a) == OptBytes(b)
    ensures a == b
  {
    if a.Some? {
      Utf8Injective(a.value, b.value);
    }
  }

  lemma SplitCanary(a: Option<CanaryPlan>, b: Option<CanaryPlan>, ma: seq<Field>, mb: seq<Field>)
    requires CanaryFields(a) + ma == CanaryFields(b) + mb
    ensures CanaryFields(a) == CanaryFields(b) && ma == mb
  {
    assert (CanaryFields(a) + ma)[0] == CanaryFields(a)[0] && (CanaryFields(b) + mb)[0] == CanaryFields(b)[0];
    SplitEqual(CanaryFields(a), CanaryFields(b), ma, mb);
  }
}
