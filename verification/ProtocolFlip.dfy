/**
 * One Ingress's `backend-protocol` annotation changed: what that does to the
 * compiled plan, and when it is published.
 */
module ProtocolFlip {
  import opened Wrappers
  import opened Machine
  import opened Ordering
  import opened Config
  import opened Objects
  import opened Planning
  import opened Endpoints
  import opened Backends
  import opened Certificates
  import opened Promotions
  import opened Translate
  import opened Digests
  import P = PlanStreams

  // -------------------------------------------------------------------------
  // Plans that differ in how they dial some Service ports
  // -------------------------------------------------------------------------

  function QuietCanary(c: CanaryPlan): CanaryPlan {
    c.(protocol := Http1)
  }

  function QuietMirror(m: MirrorPlan): MirrorPlan {
    m.(protocol := Http1)
  }

  predicate CanaryAlike(ts: set<ServiceRef>, a: Option<CanaryPlan>, b: Option<CanaryPlan>) {
    && (a.Some? <==> b.Some?)
    && (a.Some? ==> QuietCanary(a.value) == QuietCanary(b.value))
    && (a.Some? && a.value.backend !in ts ==> a.value.protocol == b.value.protocol)
  }

  predicate MirrorAlike(ts: set<ServiceRef>, a: Option<MirrorPlan>, b: Option<MirrorPlan>) {
    && (a.Some? <==> b.Some?)
    && (a.Some? ==> QuietMirror(a.value) == QuietMirror(b.value))
    && (a.Some? && a.value.backend !in ts ==> a.value.protocol == b.value.protocol)
  }

  /** The same route but for how these are dialled. */
  predicate Alike(ts: set<ServiceRef>, a: RoutePlan, b: RoutePlan) {
    && a.key == b.key && a.backend == b.backend && a.owner == b.owner
    && (a.backend !in ts ==> a.protocol == b.protocol)
    && CanaryAlike(ts, a.canary, b.canary)
    && MirrorAlike(ts, a.mirror, b.mirror)
  }

  ghost predicate AllAlike(ts: set<ServiceRef>, a: seq<RoutePlan>, b: seq<RoutePlan>) {
    |a| == |b| && forall i :: 0 <= i < |a| ==> Alike(ts, a[i], b[i])
  }

  ghost predicate RoutesAlike(ts: set<ServiceRef>, a: Routes, b: Routes) {
    a.Keys == b.Keys && forall k :: k in a ==> Alike(ts, a[k], b[k])
  }

  predicate ClaimAlike(ts: set<ServiceRef>, a: CanaryClaim, b: CanaryClaim) {
    a.key == b.key && CanaryAlike(ts, Some(a.plan), Some(b.plan))
  }

  ghost predicate ClaimsAlike(ts: set<ServiceRef>, a: seq<CanaryClaim>, b: seq<CanaryClaim>) {
    |a| == |b| && forall i :: 0 <= i < |a| ==> ClaimAlike(ts, a[i], b[i])
  }

  lemma {:induction false} ClaimingKeepsAlike(ts: set<ServiceRef>, r: Routes, q: Routes, a: seq<RoutePlan>, b: seq<RoutePlan>)
    requires RoutesAlike(ts, r, q) && AllAlike(ts, a, b)
    ensures RoutesAlike(ts, ClaimAll(r, a), ClaimAll(q, b))
  {
    if a != [] {
      var n := |a| - 1;
      ClaimingKeepsAlike(ts, r, q, a[..n], b[..n]);
      assert Alike(ts, a[n], b[n]);
    }
  }

  lemma {:induction false} AttachingKeepsAlike(ts: set<ServiceRef>, r: Routes, q: Routes, a: seq<CanaryClaim>, b: seq<CanaryClaim>)
    requires RoutesAlike(ts, r, q) && ClaimsAlike(ts, a, b)
    ensures RoutesAlike(ts, AttachAll(r, a), AttachAll(q, b))
  {
    if a != [] {
      var n := |a| - 1;
      AttachingKeepsAlike(ts, r, q, a[..n], b[..n]);
      assert ClaimAlike(ts, a[n], b[n]);
    }
  }

  // -------------------------------------------------------------------------
  // The annotation
  // -------------------------------------------------------------------------

  function Dialling(ing: Ingress, p: BackendProtocol): Ingress {
    ing.(protocol := p)
  }

  /** Ingress `k` now says `p`. */
  function Annotated(k: ObjectKey, p: BackendProtocol): Ingress -> Ingress {
    (i: Ingress) => if i.key == k then Dialling(i, p) else i
  }

  predicate PlanNames(c: RoutePlan, ts: set<ServiceRef>) {
    c.backend in ts && c.canary.None? && (c.mirror.Some? ==> c.mirror.value.backend in ts)
  }

  ghost predicate PlansName(plans: seq<RoutePlan>, ts: set<ServiceRef>) {
    forall c :: c in plans ==> PlanNames(c, ts)
  }

  /** The Ingress sends to, mirrors to and shadows with nothing but these. */
  ghost predicate NamesOnly(ing: Ingress, ts: set<ServiceRef>) {
    && PlansName(Explicit(ing), ts) && PlansName(Fallbacks(ing), ts)
    && forall c :: c in CanaryClaims(ing) ==> c.plan.backend in ts
  }

  ghost function NamedInPlans(plans: seq<RoutePlan>): set<ServiceRef> {
    (set c | c in plans :: c.backend) + (set c | c in plans && c.mirror.Some? :: c.mirror.value.backend)
  }

  /** Every Service port an Ingress sends to, mirrors to or shadows with. */
  ghost function RefsOf(ing: Ingress): set<ServiceRef> {
    NamedInPlans(Explicit(ing)) + NamedInPlans(Fallbacks(ing)) + (set c | c in CanaryClaims(ing) :: c.plan.backend)
  }

  ghost function NamedBy(ings: seq<Ingress>, k: ObjectKey): set<ServiceRef> {
    set i, r | i in ings && i.key == k && r in RefsOf(i) :: r
  }

  lemma AppendAlike(ts: set<ServiceRef>, a: seq<RoutePlan>, b: seq<RoutePlan>, x: seq<RoutePlan>, y: seq<RoutePlan>)
    requires AllAlike(ts, a, b) && AllAlike(ts, x, y)
    ensures AllAlike(ts, a + x, b + y)
  {
  }

  lemma AppendClaimsAlike(ts: set<ServiceRef>, a: seq<CanaryClaim>, b: seq<CanaryClaim>, x: seq<CanaryClaim>, y: seq<CanaryClaim>)
    requires ClaimsAlike(ts, a, b) && ClaimsAlike(ts, x, y)
    ensures ClaimsAlike(ts, a + x, b + y)
  {
  }

  lemma PathAlike(ing: Ingress, p: BackendProtocol, ts: set<ServiceRef>, host: Option<string>, entry: PathEntry)
    requires PlansName(PathClaim(ing, host, entry), ts)
    ensures AllAlike(ts, PathClaim(ing, host, entry), PathClaim(Dialling(ing, p), host, entry))
  {
    var one, other := PathClaim(ing, host, entry), PathClaim(Dialling(ing, p), host, entry);
    if one != [] {
      assert one[0] in one;
      assert MirrorAlike(ts, MirrorOf(ing), MirrorOf(Dialling(ing, p)));
      assert Alike(ts, one[0], other[0]);
    }
  }

  lemma {:induction false} PathsAlike(ing: Ingress, p: BackendProtocol, ts: set<ServiceRef>, host: Option<string>, paths: seq<PathEntry>)
    requires PlansName(PathClaims(ing, host, paths), ts)
    ensures AllAlike(ts, PathClaims(ing, host, paths), PathClaims(Dialling(ing, p), host, paths))
  {
    if paths != [] {
      var init, last := paths[..|paths| - 1], paths[|paths| - 1];
      assert forall c :: c in PathClaims(ing, host, init) || c in PathClaim(ing, host, last) ==> c in PathClaims(ing, host, paths);
      PathsAlike(ing, p, ts, host, init);
      PathAlike(ing, p, ts, host, last);
      AppendAlike(ts, PathClaims(ing, host, init), PathClaims(Dialling(ing, p), host, init),
                  PathClaim(ing, host, last), PathClaim(Dialling(ing, p), host, last));
    }
  }

  lemma {:induction false} CanaryPathsAlike(ing: Ingress, p: BackendProtocol, ts: set<ServiceRef>, host: Option<string>, paths: seq<PathEntry>)
    requires forall c :: c in CanaryPathClaims(ing, host, paths) ==> c.plan.backend in ts
    ensures ClaimsAlike(ts, CanaryPathClaims(ing, host, paths), CanaryPathClaims(Dialling(ing, p), host, paths))
  {
    if paths != [] {
      var init, last := paths[..|paths| - 1], paths[|paths| - 1];
      assert forall c :: c in CanaryPathClaims(ing, host, init) || c in CanaryPathClaim(ing, host, last)
                         ==> c in CanaryPathClaims(ing, host, paths);
      CanaryPathsAlike(ing, p, ts, host, init);
      CanaryPathAlike(ing, p, ts, host, last);
      AppendClaimsAlike(ts, CanaryPathClaims(ing, host, init), CanaryPathClaims(Dialling(ing, p), host, init),
                        CanaryPathClaim(ing, host, last), CanaryPathClaim(Dialling(ing, p), host, last));
    }
  }

  lemma CanaryPathAlike(ing: Ingress, p: BackendProtocol, ts: set<ServiceRef>, host: Option<string>, entry: PathEntry)
    requires forall c :: c in CanaryPathClaim(ing, host, entry) ==> c.plan.backend in ts
    ensures ClaimsAlike(ts, CanaryPathClaim(ing, host, entry), CanaryPathClaim(Dialling(ing, p), host, entry))
  {
    var one := CanaryPathClaim(ing, host, entry);
    if one != [] {
      assert one[0] in one;
    }
  }

  lemma {:induction false} RulesAlike(ing: Ingress, p: BackendProtocol, ts: set<ServiceRef>, rules: seq<Rule>)
    requires PlansName(RuleClaims(ing, rules), ts)
    ensures AllAlike(ts, RuleClaims(ing, rules), RuleClaims(Dialling(ing, p), rules))
  {
    if rules != [] {
      var init, last := rules[..|rules| - 1], rules[|rules| - 1];
      var host := NormalizeHost(last.host);
      assert forall c :: c in RuleClaims(ing, init) || c in PathClaims(ing, host, last.paths) ==> c in RuleClaims(ing, rules);
      RulesAlike(ing, p, ts, init);
      PathsAlike(ing, p, ts, host, last.paths);
      AppendAlike(ts, RuleClaims(ing, init), RuleClaims(Dialling(ing, p), init),
                  PathClaims(ing, host, last.paths), PathClaims(Dialling(ing, p), host, last.paths));
    }
  }

  lemma {:induction false} CanaryRulesAlike(ing: Ingress, p: BackendProtocol, ts: set<ServiceRef>, rules: seq<Rule>)
    requires forall c :: c in CanaryRuleClaims(ing, rules) ==> c.plan.backend in ts
    ensures ClaimsAlike(ts, CanaryRuleClaims(ing, rules), CanaryRuleClaims(Dialling(ing, p), rules))
  {
    if rules != [] {
      var init, last := rules[..|rules| - 1], rules[|rules| - 1];
      var host := NormalizeHost(last.host);
      assert forall c :: c in CanaryRuleClaims(ing, init) || c in CanaryPathClaims(ing, host, last.paths)
                         ==> c in CanaryRuleClaims(ing, rules);
      CanaryRulesAlike(ing, p, ts, init);
      CanaryPathsAlike(ing, p, ts, host, last.paths);
      AppendClaimsAlike(ts, CanaryRuleClaims(ing, init), CanaryRuleClaims(Dialling(ing, p), init),
                        CanaryPathClaims(ing, host, last.paths), CanaryPathClaims(Dialling(ing, p), host, last.paths));
    }
  }

  lemma {:induction false} HostFallbacksAlike(ing: Ingress, p: BackendProtocol, ts: set<ServiceRef>, backend: ServiceRef, hosts: seq<Option<string>>)
    requires PlansName(HostFallbacks(ing, backend, hosts), ts)
    ensures AllAlike(ts, HostFallbacks(ing, backend, hosts), HostFallbacks(Dialling(ing, p), backend, hosts))
  {
    if hosts != [] {
      var init, all := hosts[..|hosts| - 1], HostFallbacks(ing, backend, hosts);
      assert forall c :: c in HostFallbacks(ing, backend, init) ==> c in all;
      HostFallbacksAlike(ing, p, ts, backend, init);
      assert all[|all| - 1] in all;
    }
  }

  lemma SameIsAlike(ts: set<ServiceRef>, a: seq<RoutePlan>, c: seq<CanaryClaim>)
    ensures AllAlike(ts, a, a) && ClaimsAlike(ts, c, c)
  {
  }

  lemma IngressAlike(ing: Ingress, k: ObjectKey, p: BackendProtocol, ts: set<ServiceRef>)
    requires ing.key == k ==> NamesOnly(ing, ts)
    ensures AllAlike(ts, Explicit(ing), Explicit(Annotated(k, p)(ing)))
    ensures AllAlike(ts, Fallbacks(ing), Fallbacks(Annotated(k, p)(ing)))
    ensures ClaimsAlike(ts, CanaryClaims(ing), CanaryClaims(Annotated(k, p)(ing)))
    ensures DefaultBid(Annotated(k, p)(ing)) == DefaultBid(ing)
  {
    if ing.key != k {
      SameIsAlike(ts, Explicit(ing), CanaryClaims(ing));
      SameIsAlike(ts, Fallbacks(ing), []);
    } else if ing.spec.Some? {
      RulesAlike(ing, p, ts, ing.spec.value.rules);
      CanaryRulesAlike(ing, p, ts, ing.spec.value.rules);
      if DefaultOf(ing).Some? {
        HostFallbacksAlike(ing, p, ts, DefaultOf(ing).value, HostsOf(ing.spec.value.rules));
      }
    }
  }

  lemma {:induction false} PlansAlike(ings: seq<Ingress>, k: ObjectKey, p: BackendProtocol, ts: set<ServiceRef>)
    requires forall i :: i in ings && i.key == k ==> NamesOnly(i, ts)
    ensures var out := MapSeq(Annotated(k, p), ings);
            && AllAlike(ts, AllExplicit(ings), AllExplicit(out)) && AllAlike(ts, AllFallbacks(ings), AllFallbacks(out))
            && ClaimsAlike(ts, AllCanaries(ings), AllCanaries(out)) && GlobalDefault(out) == GlobalDefault(ings)
  {
    var out := MapSeq(Annotated(k, p), ings);
    if ings != [] {
      var init, last := ings[..|ings| - 1], ings[|ings| - 1];
      assert forall i :: i in init ==> i in ings;
      PlansAlike(init, k, p, ts);
      assert last in ings;
      IngressAlike(last, k, p, ts);
      assert out[..|ings| - 1] == MapSeq(Annotated(k, p), init);
      AppendAlike(ts, AllExplicit(init), AllExplicit(out[..|ings| - 1]), Explicit(last), Explicit(out[|ings| - 1]));
      AppendAlike(ts, AllFallbacks(init), AllFallbacks(out[..|ings| - 1]), Fallbacks(last), Fallbacks(out[|ings| - 1]));
      AppendClaimsAlike(ts, AllCanaries(init), AllCanaries(out[..|ings| - 1]), CanaryClaims(last), CanaryClaims(out[|ings| - 1]));
    }
  }

  // -------------------------------------------------------------------------
  // The plan
  // -------------------------------------------------------------------------

  /** The class filter reads the class, not the protocol. */
  ghost predicate FilterIgnoresProtocol(opts: Options) {
    forall i, p :: opts.ours(Dialling(i, p)) == opts.ours(i)
  }

  lemma ManagedAnnotated(opts: Options, ings: seq<Ingress>, k: ObjectKey, p: BackendProtocol)
    requires FilterIgnoresProtocol(opts)
    ensures Managed(opts, MapSeq(Annotated(k, p), ings)) == MapSeq(Annotated(k, p), Managed(opts, ings))
  {
    KeepMap(opts.ours, Annotated(k, p), ings);
    SortMap(AgeLe, Annotated(k, p), Keep(opts.ours, ings));
  }

  lemma SplitAnnotated(managed: seq<Ingress>, k: ObjectKey, p: BackendProtocol)
    ensures Production(MapSeq(Annotated(k, p), managed)) == MapSeq(Annotated(k, p), Production(managed))
    ensures Canaries(MapSeq(Annotated(k, p), managed)) == MapSeq(Annotated(k, p), Canaries(managed))
  {
    KeepMap((i: Ingress) => !i.canary.enabled, Annotated(k, p), managed);
    KeepMap((i: Ingress) => i.canary.enabled, Annotated(k, p), managed);
  }

  lemma KeptAre<T(!new)>(p: T -> bool, s: seq<T>)
    ensures forall x :: x in Keep(p, s) ==> x in s
  {
  }

  /** Managed Ingresses are among the snapshot's. */
  lemma ManagedAmong(opts: Options, ings: seq<Ingress>)
    ensures forall i :: i in Production(Managed(opts, ings)) || i in Canaries(Managed(opts, ings)) ==> i in ings
  {
    ManagedIsFilteredByAge(opts, ings);
    KeptAre((i: Ingress) => !i.canary.enabled, Managed(opts, ings));
    KeptAre((i: Ingress) => i.canary.enabled, Managed(opts, ings));
  }

  function RoutesFor(opts: Options, ings: seq<Ingress>): Routes {
    PlannedWithCanaries(Production(Managed(opts, ings)), Canaries(Managed(opts, ings)))
  }

  lemma RoutesStayAlike(opts: Options, ings: seq<Ingress>, k: ObjectKey, p: BackendProtocol, ts: set<ServiceRef>)
    requires FilterIgnoresProtocol(opts)
    requires forall i :: i in ings && i.key == k ==> NamesOnly(i, ts)
    ensures RoutesAlike(ts, RoutesFor(opts, ings), RoutesFor(opts, MapSeq(Annotated(k, p), ings)))
    ensures DefaultBackend(opts, Production(Managed(opts, MapSeq(Annotated(k, p), ings))))
         == DefaultBackend(opts, Production(Managed(opts, ings)))
  {
    var f := Annotated(k, p);
    var production, canaries := Production(Managed(opts, ings)), Canaries(Managed(opts, ings));
    ManagedAnnotated(opts, ings, k, p);
    SplitAnnotated(Managed(opts, ings), k, p);
    ManagedAmong(opts, ings);
    PlansAlike(production, k, p, ts);
    PlansAlike(canaries, k, p, ts);
    var explicit, flipped := ClaimAll(map[], AllExplicit(production)), ClaimAll(map[], AllExplicit(MapSeq(f, production)));
    ClaimingKeepsAlike(ts, map[], map[], AllExplicit(production), AllExplicit(MapSeq(f, production)));
    ClaimingKeepsAlike(ts, explicit, flipped, AllFallbacks(production), AllFallbacks(MapSeq(f, production)));
    AttachingKeepsAlike(ts, Planned(production), Planned(MapSeq(f, production)), AllCanaries(canaries), AllCanaries(MapSeq(f, canaries)));
  }

  // -------------------------------------------------------------------------
  // What the digest sees of it
  // -------------------------------------------------------------------------

  lemma {:induction false} FieldsAlike(ts: set<ServiceRef>, r: Routes, q: Routes, keys: seq<RouteKey>)
    requires RoutesAlike(ts, r, q) && Within(keys, r)
    ensures Within(keys, q) && RoutesFields(r, keys) == RoutesFields(q, keys)
  {
    if keys != [] {
      FieldsAlike(ts, r, q, keys[..|keys| - 1]);
      assert Alike(ts, r[keys[|keys| - 1]], q[keys[|keys| - 1]]);
    }
  }

  lemma {:induction false} KeepAgrees<T(!new)>(p: T -> bool, q: T -> bool, s: seq<T>)
    requires forall x :: x in s ==> p(x) == q(x)
    ensures Keep(p, s) == Keep(q, s)
  {
    if s != [] {
      KeepAgrees(p, q, s[..|s| - 1]);
      assert s[|s| - 1] in s;
    }
  }

  lemma CoveredAlike(ts: set<ServiceRef>, r: Routes, q: Routes, owner: ObjectKey)
    requires RoutesAlike(ts, r, q)
    ensures Covered(r, owner) == Covered(q, owner)
  {
    var keys := RouteOrderOf(r);
    forall k | k in keys ensures Shadows(r, owner, k) == Shadows(q, owner, k) {
      assert Alike(ts, r[k], q[k]);
    }
    KeepAgrees(k => Shadows(r, owner, k), k => Shadows(q, owner, k), keys);
  }

  lemma TargetAlike(ts: set<ServiceRef>, r: Routes, q: Routes, ing: Ingress, k: ObjectKey, p: BackendProtocol)
    requires RoutesAlike(ts, r, q)
    ensures TargetOf(r, ing) == TargetOf(q, Annotated(k, p)(ing))
  {
    CoveredAlike(ts, r, q, ing.key);
  }

  lemma {:induction false} TargetsAlike(ts: set<ServiceRef>, r: Routes, q: Routes, ings: seq<Ingress>, k: ObjectKey, p: BackendProtocol)
    requires RoutesAlike(ts, r, q)
    ensures Targets(r, ings) == Targets(q, MapSeq(Annotated(k, p), ings))
  {
    var out := MapSeq(Annotated(k, p), ings);
    if ings != [] {
      var init, last := ings[..|ings| - 1], ings[|ings| - 1];
      TargetsAlike(ts, r, q, init, k, p);
      TargetAlike(ts, r, q, last, k, p);
      assert out[..|out| - 1] == MapSeq(Annotated(k, p), init) && out[|out| - 1] == Annotated(k, p)(last);
    }
  }

  lemma {:induction false} CertsAlike(index: Secrets, ings: seq<Ingress>, k: ObjectKey, p: BackendProtocol)
    ensures AllCertClaims(index, MapSeq(Annotated(k, p), ings)) == AllCertClaims(index, ings)
  {
    if ings != [] {
      var init := ings[..|ings| - 1];
      CertsAlike(index, init, k, p);
      assert MapSeq(Annotated(k, p), ings)[..|ings| - 1] == MapSeq(Annotated(k, p), init);
    }
  }

  /** The same references, dialled alike but for these. */
  ghost predicate DialledAlike(ts: set<ServiceRef>, m: Protocols, n: Protocols) {
    m.Keys == n.Keys && forall r :: r in m && r !in ts ==> m[r] == n[r]
  }

  ghost predicate BackendClaimsAlike(ts: set<ServiceRef>, a: seq<BackendClaim>, b: seq<BackendClaim>) {
    |a| == |b| && forall i :: 0 <= i < |a| ==> a[i].target == b[i].target && (a[i].target !in ts ==> a[i] == b[i])
  }

  lemma {:induction false} AddingKeepsAlike(ts: set<ServiceRef>, m: Protocols, n: Protocols, a: seq<BackendClaim>, b: seq<BackendClaim>)
    requires DialledAlike(ts, m, n) && BackendClaimsAlike(ts, a, b)
    ensures DialledAlike(ts, AddBackends(m, a), AddBackends(n, b))
  {
    if a != [] {
      AddingKeepsAlike(ts, m, n, a[..|a| - 1], b[..|a| - 1]);
    }
  }

  lemma ClaimsOfAlike(ts: set<ServiceRef>, a: RoutePlan, b: RoutePlan)
    requires Alike(ts, a, b)
    ensures BackendClaimsAlike(ts, ClaimsOf(a), ClaimsOf(b))
  {
  }

  lemma {:induction false} RouteClaimsAlike(ts: set<ServiceRef>, r: Routes, q: Routes, keys: seq<RouteKey>)
    requires RoutesAlike(ts, r, q) && Within(keys, r)
    ensures Within(keys, q) && BackendClaimsAlike(ts, RouteClaims(r, keys), RouteClaims(q, keys))
  {
    if keys != [] {
      var init, last := keys[..|keys| - 1], keys[|keys| - 1];
      RouteClaimsAlike(ts, r, q, init);
      ClaimsOfAlike(ts, r[last], q[last]);
    }
  }

  lemma DefaultKeepsAlike(ts: set<ServiceRef>, m: Protocols, n: Protocols, default: Option<ServiceRef>)
    requires DialledAlike(ts, m, n)
    ensures DialledAlike(ts, WithDefault(m, default), WithDefault(n, default))
  {
  }

  lemma CollectedAlike(ts: set<ServiceRef>, r: Routes, q: Routes, default: Option<ServiceRef>)
    requires RoutesAlike(ts, r, q)
    ensures DialledAlike(ts, Collected(r, default), Collected(q, default))
  {
    var a, b := RouteClaims(r, RouteOrderOf(r)), RouteClaims(q, RouteOrderOf(q));
    RouteClaimsAlike(ts, r, q, RouteOrderOf(r));
    AddingKeepsAlike(ts, map[], map[], a, b);
    DefaultKeepsAlike(ts, AddBackends(map[], a), AddBackends(map[], b), default);
  }

  /** Where a reference stands among the registered. */
  lemma PlaceOfRef(m: Protocols, t: ServiceRef) returns (i: nat)
    requires t in m
    ensures i < |SortedSet(RefLe, m.Keys)| && SortedSet(RefLe, m.Keys)[i] == t
    ensures forall j :: 0 <= j < |SortedSet(RefLe, m.Keys)| && j != i ==>
              SortedSet(RefLe, m.Keys)[j] in m && SortedSet(RefLe, m.Keys)[j] != t
  {
    var refs := SortedSet(RefLe, m.Keys);
    assert t in refs;
    i :| 0 <= i < |refs| && refs[i] == t;
    assert forall j :: 0 <= j < |refs| ==> refs[j] in refs;
  }

  /** Two registrations, one flipped protocol apart. */
  lemma EntriesAlike(parseIp: IpParser, services: seq<Service>, slices: seq<Slice>, m: Protocols, n: Protocols, t: ServiceRef, i: nat)
    requires DialledAlike({t}, m, n) && t in m
    requires i < |SortedSet(RefLe, m.Keys)| && SortedSet(RefLe, m.Keys)[i] == t
    requires forall j :: 0 <= j < |SortedSet(RefLe, m.Keys)| && j != i ==>
               SortedSet(RefLe, m.Keys)[j] in m && SortedSet(RefLe, m.Keys)[j] != t
    ensures var a, b := AllEntries(parseIp, services, slices, m), AllEntries(parseIp, services, slices, n);
            i < |a| && a[i].protocol == m[t] && b == a[i := a[i].(protocol := n[t])]
  {
    var a, b := AllEntries(parseIp, services, slices, m), AllEntries(parseIp, services, slices, n);
    EntryAt(parseIp, services, slices, m, i);
    EntryAt(parseIp, services, slices, n, i);
    EntryProtocol(parseIp, services, slices, t, m[t], n[t]);
    forall j | 0 <= j < |a| && j != i ensures a[j] == b[j] {
      EntryElsewhere(parseIp, services, slices, m, n, t, j);
    }
    UpdatedAt(a, b, i, a[i].(protocol := n[t]));
  }

  lemma UpdatedAt<T>(a: seq<T>, b: seq<T>, i: nat, x: T)
    requires |a| == |b| && i < |a| && b[i] == x && forall j :: 0 <= j < |a| && j != i ==> a[j] == b[j]
    ensures b == a[i := x]
  {
  }

  lemma EntryElsewhere(parseIp: IpParser, services: seq<Service>, slices: seq<Slice>, m: Protocols, n: Protocols, t: ServiceRef, j: nat)
    requires DialledAlike({t}, m, n) && j < |SortedSet(RefLe, m.Keys)| && SortedSet(RefLe, m.Keys)[j] != t
    ensures |AllEntries(parseIp, services, slices, m)| == |AllEntries(parseIp, services, slices, n)| == |SortedSet(RefLe, m.Keys)|
    ensures AllEntries(parseIp, services, slices, m)[j] == AllEntries(parseIp, services, slices, n)[j]
  {
    EntryAt(parseIp, services, slices, m, j);
    EntryAt(parseIp, services, slices, n, j);
  }

  lemma EntryAt(parseIp: IpParser, services: seq<Service>, slices: seq<Slice>, m: Protocols, j: nat)
    requires j < |SortedSet(RefLe, m.Keys)|
    ensures |AllEntries(parseIp, services, slices, m)| == |SortedSet(RefLe, m.Keys)|
    ensures SortedSet(RefLe, m.Keys)[j] in m
    ensures var r := SortedSet(RefLe, m.Keys)[j]; AllEntries(parseIp, services, slices, m)[j] == Entry(parseIp, services, slices, r, m[r])
  {
    assert SortedSet(RefLe, m.Keys)[j] in SortedSet(RefLe, m.Keys);
  }

  lemma EntryProtocol(parseIp: IpParser, services: seq<Service>, slices: seq<Slice>, t: ServiceRef, p: BackendProtocol, q: BackendProtocol)
    ensures Entry(parseIp, services, slices, t, p).protocol == p
    ensures Entry(parseIp, services, slices, t, q) == Entry(parseIp, services, slices, t, p).(protocol := q)
  {
  }

  lemma {:induction false} PathClaimsCarryNoCanary(ing: Ingress, host: Option<string>, paths: seq<PathEntry>)
    ensures forall c :: c in PathClaims(ing, host, paths) ==> c.canary.None?
  {
    if paths != [] {
      PathClaimsCarryNoCanary(ing, host, paths[..|paths| - 1]);
    }
  }

  lemma {:induction false} RuleClaimsCarryNoCanary(ing: Ingress, rules: seq<Rule>)
    ensures forall c :: c in RuleClaims(ing, rules) ==> c.canary.None?
  {
    if rules != [] {
      RuleClaimsCarryNoCanary(ing, rules[..|rules| - 1]);
      PathClaimsCarryNoCanary(ing, NormalizeHost(rules[|rules| - 1].host), rules[|rules| - 1].paths);
    }
  }

  lemma {:induction false} FallbacksCarryNoCanary(ing: Ingress, backend: ServiceRef, hosts: seq<Option<string>>)
    ensures forall c :: c in HostFallbacks(ing, backend, hosts) ==> c.canary.None?
  {
    if hosts != [] {
      FallbacksCarryNoCanary(ing, backend, hosts[..|hosts| - 1]);
    }
  }

  /** Claims carry no canary yet, so whatever an Ingress names is all it can move. */
  lemma NamesWhatItNames(ing: Ingress, ts: set<ServiceRef>)
    requires RefsOf(ing) <= ts
    ensures NamesOnly(ing, ts)
  {
    if ing.spec.Some? {
      RuleClaimsCarryNoCanary(ing, ing.spec.value.rules);
      if DefaultOf(ing).Some? {
        FallbacksCarryNoCanary(ing, DefaultOf(ing).value, HostsOf(ing.spec.value.rules));
      }
    }
    forall c | c in Explicit(ing) || c in Fallbacks(ing) ensures PlanNames(c, ts) {
      assert c.backend in RefsOf(ing);
    }
    forall c | c in CanaryClaims(ing) ensures c.plan.backend in ts {
      assert c.plan.backend in RefsOf(ing);
    }
  }

  lemma NamedByNames(ings: seq<Ingress>, k: ObjectKey)
    ensures forall i :: i in ings && i.key == k ==> NamesOnly(i, NamedBy(ings, k))
  {
    forall i | i in ings && i.key == k ensures NamesOnly(i, NamedBy(ings, k)) {
      NamesWhatItNames(i, NamedBy(ings, k));
    }
  }

  lemma RestAlike(fmt: Formats, opts: Options, s: Snapshot, k: ObjectKey, p: BackendProtocol)
    requires FilterIgnoresProtocol(opts)
    ensures var after := s.(ingresses := MapSeq(Annotated(k, p), s.ingresses));
            FieldsAfterBackends(fmt, PlanOf(fmt, opts, s)) == FieldsAfterBackends(fmt, PlanOf(fmt, opts, after))
  {
    var f, ts := Annotated(k, p), NamedBy(s.ingresses, k);
    var r, q := RoutesFor(opts, s.ingresses), RoutesFor(opts, MapSeq(f, s.ingresses));
    NamedByNames(s.ingresses, k);
    RoutesStayAlike(opts, s.ingresses, k, p, ts);
    ManagedAnnotated(opts, s.ingresses, k, p);
    SplitAnnotated(Managed(opts, s.ingresses), k, p);
    FieldsAlike(ts, r, q, RouteOrderOf(r));
    TargetsAlike(ts, r, q, Canaries(Managed(opts, s.ingresses)), k, p);
    CertsAlike(IndexSecrets(s.secrets), Managed(opts, s.ingresses), k, p);
  }

  lemma ProtocolsAlike(opts: Options, ings: seq<Ingress>, k: ObjectKey, p: BackendProtocol)
    requires FilterIgnoresProtocol(opts)
    ensures DialledAlike(NamedBy(ings, k), PlanProtocols(opts, ings), PlanProtocols(opts, MapSeq(Annotated(k, p), ings)))
  {
    var ts := NamedBy(ings, k);
    NamedByNames(ings, k);
    RoutesStayAlike(opts, ings, k, p, ts);
    CollectedAlike(ts, RoutesFor(opts, ings), RoutesFor(opts, MapSeq(Annotated(k, p), ings)),
                   DefaultBackend(opts, Production(Managed(opts, ings))));
  }

  lemma PlanBackends(fmt: Formats, opts: Options, s: Snapshot)
    ensures PlanOf(fmt, opts, s).backends == AllEntries(fmt.parseIp, s.services, s.slices, PlanProtocols(opts, s.ingresses))
  {
  }

  // -------------------------------------------------------------------------
  // What the stream tells
  // -------------------------------------------------------------------------

  /** The same registrations but for their protocols. */
  ghost predicate SameButProtocols(a: seq<Registered>, b: seq<Registered>) {
    |a| == |b| && forall i :: 0 <= i < |a| ==> b[i] == a[i].(protocol := b[i].protocol)
  }

  lemma EntryTold(parseIp: IpParser, services: seq<Service>, slices: seq<Slice>, m: Protocols, n: Protocols, i: nat)
    requires m.Keys == n.Keys && i < |SortedSet(RefLe, m.Keys)|
    ensures SortedSet(RefLe, m.Keys)[i] in m
    ensures var a, b := AllEntries(parseIp, services, slices, m), AllEntries(parseIp, services, slices, n);
            && |a| == |SortedSet(RefLe, m.Keys)| == |b|
            && b[i] == a[i].(protocol := b[i].protocol)
            && a[i].protocol == m[SortedSet(RefLe, m.Keys)[i]] && b[i].protocol == n[SortedSet(RefLe, m.Keys)[i]]
  {
    var t := SortedSet(RefLe, m.Keys)[i];
    EntryAt(parseIp, services, slices, m, i);
    EntryAt(parseIp, services, slices, n, i);
    EntryProtocol(parseIp, services, slices, t, m[t], n[t]);
    EntryProtocol(parseIp, services, slices, t, n[t], n[t]);
  }

  lemma EntriesSameButProtocols(parseIp: IpParser, services: seq<Service>, slices: seq<Slice>, m: Protocols, n: Protocols)
    requires m.Keys == n.Keys
    ensures SameButProtocols(AllEntries(parseIp, services, slices, m), AllEntries(parseIp, services, slices, n))
  {
    forall i | 0 <= i < |AllEntries(parseIp, services, slices, m)|
      ensures AllEntries(parseIp, services, slices, n)[i]
           == AllEntries(parseIp, services, slices, m)[i].(protocol := AllEntries(parseIp, services, slices, n)[i].protocol)
    {
      EntryTold(parseIp, services, slices, m, n, i);
    }
  }

  lemma EntriesTellProtocols(parseIp: IpParser, services: seq<Service>, slices: seq<Slice>, m: Protocols, n: Protocols)
    requires m.Keys == n.Keys
    ensures AllEntries(parseIp, services, slices, m) == AllEntries(parseIp, services, slices, n) <==> m == n
  {
    if AllEntries(parseIp, services, slices, m) == AllEntries(parseIp, services, slices, n) {
      forall t | t in m ensures m[t] == n[t] {
        var i := PlaceOfRef(m, t);
        EntryTold(parseIp, services, slices, m, n, i);
      }
    }
  }

  function NameHead(lb: LbPolicy, name: string): seq<Field> {
    [Text(Utf8(name)), Tag(LbTag(lb))]
  }

  function EndpointTail(show: AddressPrinter, endpoints: seq<Address>): seq<Field> {
    [Word(|endpoints| % TWO_TO_64)] + EndpointFields(show, endpoints)
  }

  /** A backend's bytes: its name and policy, one byte for its protocol, its endpoints. */
  lemma BackendSpelled(show: AddressPrinter, lb: LbPolicy, b: Registered)
    ensures Stream(BackendFields(show, lb, b))
         == Stream(NameHead(lb, b.name)) + ([ProtocolTag(b.protocol)] + Stream(EndpointTail(show, b.endpoints)))
  {
    var head, tail := NameHead(lb, b.name), EndpointTail(show, b.endpoints);
    assert BackendFields(show, lb, b) == head + ([Tag(ProtocolTag(b.protocol))] + tail);
    StreamConcat(head, [Tag(ProtocolTag(b.protocol))] + tail);
    assert ([Tag(ProtocolTag(b.protocol))] + tail)[1..] == tail;
  }

  lemma ProtocolTold(show: AddressPrinter, lb: LbPolicy, a: Registered, p: BackendProtocol)
    ensures |Stream(BackendFields(show, lb, a))| == |Stream(BackendFields(show, lb, a.(protocol := p)))|
    ensures Stream(BackendFields(show, lb, a)) == Stream(BackendFields(show, lb, a.(protocol := p))) <==> a.protocol == p
  {
    BackendSpelled(show, lb, a);
    BackendSpelled(show, lb, a.(protocol := p));
    var h, e := Stream(NameHead(lb, a.name)), Stream(EndpointTail(show, a.endpoints));
    assert (h + ([ProtocolTag(a.protocol)] + e))[|h|] == ProtocolTag(a.protocol);
    assert (h + ([ProtocolTag(p)] + e))[|h|] == ProtocolTag(p);
  }

  lemma LastBackend(show: AddressPrinter, lb: LbPolicy, bs: seq<Registered>)
    requires bs != []
    ensures Stream(BackendsFields(show, lb, bs))
         == Stream(BackendsFields(show, lb, bs[..|bs| - 1])) + Stream(BackendFields(show, lb, bs[|bs| - 1]))
  {
    StreamConcat(BackendsFields(show, lb, bs[..|bs| - 1]), BackendFields(show, lb, bs[|bs| - 1]));
  }

  lemma SplitsAlike(a: seq<Registered>, b: seq<Registered>)
    requires a != [] && SameButProtocols(a, b)
    ensures b != [] && SameButProtocols(a[..|a| - 1], b[..|b| - 1])
    ensures b[|b| - 1] == a[|a| - 1].(protocol := b[|b| - 1].protocol)
    ensures a == b <==> a[..|a| - 1] == b[..|b| - 1] && a[|a| - 1].protocol == b[|b| - 1].protocol
  {
    assert a == a[..|a| - 1] + [a[|a| - 1]] && b == b[..|b| - 1] + [b[|b| - 1]];
  }

  lemma {:induction false} StreamsTellProtocols(show: AddressPrinter, lb: LbPolicy, a: seq<Registered>, b: seq<Registered>)
    requires SameButProtocols(a, b)
    ensures |Stream(BackendsFields(show, lb, a))| == |Stream(BackendsFields(show, lb, b))|
    ensures Stream(BackendsFields(show, lb, a)) == Stream(BackendsFields(show, lb, b)) <==> a == b
  {
    if a != [] {
      var n := |a| - 1;
      SplitsAlike(a, b);
      StreamsTellProtocols(show, lb, a[..n], b[..n]);
      ProtocolTold(show, lb, a[n], b[n].protocol);
      LastBackend(show, lb, a);
      LastBackend(show, lb, b);
      BothTold(Stream(BackendsFields(show, lb, a[..n])), Stream(BackendsFields(show, lb, b[..n])),
               Stream(BackendFields(show, lb, a[n])), Stream(BackendFields(show, lb, b[n])));
    }
  }

  lemma BothTold(p: seq<byte>, q: seq<byte>, x: seq<byte>, y: seq<byte>)
    requires |p| == |q|
    ensures p + x == q + y <==> p == q && x == y
  {
    if p + x == q + y {
      SplitEqual(p, q, x, y);
    }
  }

  /** Plans that go on alike share a stream exactly when they register alike. */
  lemma PlansTellProtocols(fmt: Formats, lb: LbPolicy, a: Plan, b: Plan)
    requires SameButProtocols(a.backends, b.backends) && FieldsAfterBackends(fmt, a) == FieldsAfterBackends(fmt, b)
    ensures P.PlanStream(fmt, lb, a) == P.PlanStream(fmt, lb, b) <==> a.backends == b.backends
  {
    var x, y := BackendsFields(fmt.showAddress, lb, a.backends), BackendsFields(fmt.showAddress, lb, b.backends);
    StreamsTellProtocols(fmt.showAddress, lb, a.backends, b.backends);
    StreamConcat(x, FieldsAfterBackends(fmt, a));
    StreamConcat(y, FieldsAfterBackends(fmt, b));
    BothTold(Stream(x), Stream(y), Stream(FieldsAfterBackends(fmt, a)), Stream(FieldsAfterBackends(fmt, b)));
  }

  /** One Service port is dialled otherwise, and no other. */
  ghost predicate OneFlip(t: ServiceRef, m: Protocols, n: Protocols) {
    t in m && DialledAlike({t}, m, n) && m[t] != n[t]
  }

  lemma OneFlipShows(fmt: Formats, opts: Options, s: Snapshot, after: Snapshot, t: ServiceRef)
    requires s.services == after.services && s.slices == after.slices
    requires FieldsAfterBackends(fmt, PlanOf(fmt, opts, s)) == FieldsAfterBackends(fmt, PlanOf(fmt, opts, after))
    requires OneFlip(t, PlanProtocols(opts, s.ingresses), PlanProtocols(opts, after.ingresses))
    ensures DigestOf(fmt, opts.lbPolicy, PlanOf(fmt, opts, s)) != DigestOf(fmt, opts.lbPolicy, PlanOf(fmt, opts, after))
  {
    var m, n := PlanProtocols(opts, s.ingresses), PlanProtocols(opts, after.ingresses);
    PlanBackends(fmt, opts, s);
    PlanBackends(fmt, opts, after);
    var i := PlaceOfRef(m, t);
    EntriesAlike(fmt.parseIp, s.services, s.slices, m, n, t, i);
    FlippedProtocolRepublishes(fmt, opts.lbPolicy, PlanOf(fmt, opts, s), PlanOf(fmt, opts, after), i, n[t]);
  }

  /**
   * An Ingress changes its protocol annotation. Only Service ports it names can
   * be dialled otherwise. What the digest hashes changes exactly when one is,
   * so a change that dials nothing otherwise is never published, and one that
   * moves a single port always is, with no assumption about collisions.
   */
  lemma AnnotationRepublishesExactly(fmt: Formats, opts: Options, s: Snapshot, k: ObjectKey, p: BackendProtocol, previous: Option<u64>)
    requires FilterIgnoresProtocol(opts)
    ensures var after := s.(ingresses := MapSeq(Annotated(k, p), s.ingresses));
            var m, n := PlanProtocols(opts, s.ingresses), PlanProtocols(opts, after.ingresses);
            var x, y := TranslationOf(fmt, opts, s, previous), TranslationOf(fmt, opts, after, previous);
            && DialledAlike(NamedBy(s.ingresses, k), m, n)
            && (P.PlanStream(fmt, opts.lbPolicy, x.plan) == P.PlanStream(fmt, opts.lbPolicy, y.plan) <==> m == n)
            && (m == n ==> x.digest == y.digest)
            && ((exists t :: OneFlip(t, m, n)) ==> x.digest != y.digest)
  {
    var after := s.(ingresses := MapSeq(Annotated(k, p), s.ingresses));
    var m, n := PlanProtocols(opts, s.ingresses), PlanProtocols(opts, after.ingresses);
    ProtocolsAlike(opts, s.ingresses, k, p);
    RestAlike(fmt, opts, s, k, p);
    PlanBackends(fmt, opts, s);
    PlanBackends(fmt, opts, after);
    EntriesSameButProtocols(fmt.parseIp, s.services, s.slices, m, n);
    EntriesTellProtocols(fmt.parseIp, s.services, s.slices, m, n);
    PlansTellProtocols(fmt, opts.lbPolicy, PlanOf(fmt, opts, s), PlanOf(fmt, opts, after));
    SameStreamSameDigest(fmt, opts.lbPolicy, PlanOf(fmt, opts, s), PlanOf(fmt, opts, after));
    if t :| OneFlip(t, m, n) {
      OneFlipShows(fmt, opts, s, after, t);
    }
  }

  lemma SameStreamSameDigest(fmt: Formats, lb: LbPolicy, a: Plan, b: Plan)
    ensures P.PlanStream(fmt, lb, a) == P.PlanStream(fmt, lb, b) ==> DigestOf(fmt, lb, a) == DigestOf(fmt, lb, b)
  {
  }
}
