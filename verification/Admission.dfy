/**
 * Why compilation does not fail: references that come from admitted objects are
 * well formed, so their rendered names are distinct, so the router accepts them.
 */
module Admission {
  import opened Wrappers
  import opened Machine
  import opened Ordering
  import opened Config
  import opened Objects
  import opened Planning
  import opened Endpoints
  import opened Backends
  import opened Digests
  import opened Translate

  /** Where a backend can be routed to at all, the API server has checked its names. */
  predicate AdmittedBackend(namespace: string, backend: IngressBackend) {
    BackendRef(namespace, backend).Some? ==> WellFormed(BackendRef(namespace, backend).value)
  }

  ghost predicate AdmittedPaths(namespace: string, paths: seq<PathEntry>) {
    forall i :: 0 <= i < |paths| ==> AdmittedBackend(namespace, paths[i].backend)
  }

  ghost predicate AdmittedRules(namespace: string, rules: seq<Rule>) {
    forall i :: 0 <= i < |rules| ==> AdmittedPaths(namespace, rules[i].paths)
  }

  ghost predicate Admitted(ing: Ingress) {
    ing.spec.Some? ==>
      && AdmittedRules(ing.key.namespace, ing.spec.value.rules)
      && (ing.spec.value.defaultBackend.Some? ==>
            AdmittedBackend(ing.key.namespace, ing.spec.value.defaultBackend.value))
  }

  ghost predicate GoodPlan(p: RoutePlan) {
    && WellFormed(p.backend)
    && (p.canary.Some? ==> WellFormed(p.canary.value.backend))
    && (p.mirror.Some? ==> WellFormed(p.mirror.value.backend))
  }

  ghost predicate GoodPlans(plans: seq<RoutePlan>) {
    forall p :: p in plans ==> GoodPlan(p)
  }

  ghost predicate GoodCanaries(claims: seq<CanaryClaim>) {
    forall c :: c in claims ==> WellFormed(c.plan.backend)
  }

  /** A mirror is parsed by us, and what parses is well formed. */
  lemma GoodMirror(ing: Ingress)
    ensures MirrorOf(ing).Some? ==> WellFormed(MirrorOf(ing).value.backend)
  {
    if MirrorOf(ing).Some? {
      var reference := ing.mirror.backend.value;
      ParsedIsWellFormed(if '/' in reference then reference else ing.key.namespace + "/" + reference);
    }
  }

  lemma {:induction false} GoodPathClaims(ing: Ingress, host: Option<string>, paths: seq<PathEntry>)
    requires AdmittedPaths(ing.key.namespace, paths)
    ensures GoodPlans(PathClaims(ing, host, paths)) && GoodCanaries(CanaryPathClaims(ing, host, paths))
  {
    if paths != [] {
      GoodPathClaims(ing, host, paths[..|paths| - 1]);
      GoodMirror(ing);
      assert AdmittedBackend(ing.key.namespace, paths[|paths| - 1].backend);
    }
  }

  lemma {:induction false} GoodRuleClaims(ing: Ingress, rules: seq<Rule>)
    requires AdmittedRules(ing.key.namespace, rules)
    ensures GoodPlans(RuleClaims(ing, rules)) && GoodCanaries(CanaryRuleClaims(ing, rules))
  {
    if rules != [] {
      var last := rules[|rules| - 1];
      GoodRuleClaims(ing, rules[..|rules| - 1]);
      GoodPathClaims(ing, NormalizeHost(last.host), last.paths);
    }
  }

  lemma {:induction false} GoodHostFallbacks(ing: Ingress, backend: ServiceRef, hosts: seq<Option<string>>)
    requires WellFormed(backend)
    ensures GoodPlans(HostFallbacks(ing, backend, hosts))
  {
    if hosts != [] {
      GoodHostFallbacks(ing, backend, hosts[..|hosts| - 1]);
      GoodMirror(ing);
    }
  }

  lemma GoodIngress(ing: Ingress)
    requires Admitted(ing)
    ensures GoodPlans(Explicit(ing)) && GoodPlans(Fallbacks(ing)) && GoodCanaries(CanaryClaims(ing))
    ensures DefaultBid(ing).Some? ==> WellFormed(DefaultBid(ing).value.0)
  {
    if ing.spec.Some? {
      GoodRuleClaims(ing, ing.spec.value.rules);
    }
    if DefaultOf(ing).Some? {
      GoodHostFallbacks(ing, DefaultOf(ing).value, HostsOf(ing.spec.value.rules));
    }
  }

  lemma {:induction false} GoodClaims(ings: seq<Ingress>)
    requires forall i :: i in ings ==> Admitted(i)
    ensures GoodPlans(AllExplicit(ings)) && GoodPlans(AllFallbacks(ings)) && GoodCanaries(AllCanaries(ings))
    ensures GlobalDefault(ings).Some? ==> WellFormed(GlobalDefault(ings).value.0)
  {
    if ings != [] {
      var init, last := ings[..|ings| - 1], ings[|ings| - 1];
      assert forall i :: i in init ==> i in ings;
      GoodClaims(init);
      assert last in ings;
      GoodIngress(last);
    }
  }

  /** Every planned route refers to well-formed backends only. */
  lemma GoodRoutes(production: seq<Ingress>, canaries: seq<Ingress>, k: RouteKey)
    requires forall i :: i in production || i in canaries ==> Admitted(i)
    requires k in PlannedWithCanaries(production, canaries)
    ensures GoodPlan(PlannedWithCanaries(production, canaries)[k])
  {
    GoodClaims(production);
    GoodClaims(canaries);
    var planned, claims := Planned(production), AllCanaries(canaries);
    FirstCanaryWins(planned, claims, k);
    PlannedIsClaimed(production, k);
    GoodPlanned(production, k);
    if planned[k].canary.None? && AttachAll(planned, claims)[k].canary.Some? {
      GoodAttached(planned, claims, k);
    }
  }

  lemma GoodPlanned(production: seq<Ingress>, k: RouteKey)
    requires k in Planned(production)
    requires GoodPlans(AllExplicit(production)) && GoodPlans(AllFallbacks(production))
    ensures GoodPlan(Planned(production)[k])
  {
    PlannedIsClaimed(production, k);
  }

  lemma GoodAttached(planned: Routes, claims: seq<CanaryClaim>, k: RouteKey)
    requires k in planned && planned[k].canary.None? && GoodCanaries(claims)
    requires AttachAll(planned, claims).Keys == planned.Keys && AttachAll(planned, claims)[k].canary.Some?
    ensures WellFormed(AttachAll(planned, claims)[k].canary.value.backend)
  {
    FirstCanaryWins(planned, claims, k);
    var c :| c in claims && c.key == k;
    var n :| 0 <= n < |claims| && claims[n] == c;
    var i := SomeFirstCanary(claims, k, n);
    assert claims[i] in claims;
  }

  lemma GoodReference(routes: Routes, default: Option<ServiceRef>, t: ServiceRef)
    requires forall k :: k in routes ==> GoodPlan(routes[k])
    requires default.Some? ==> WellFormed(default.value)
    requires t in Collected(routes, default)
    ensures WellFormed(t)
  {
    BackendsAreClosed(routes, default, t);
    if default != Some(t) {
      var k, c :| k in routes && c in ClaimsOf(routes[k]) && c.target == t;
      PlanClaimsGood(routes[k], c);
    }
  }

  lemma PlanClaimsGood(p: RoutePlan, c: BackendClaim)
    requires GoodPlan(p) && c in ClaimsOf(p)
    ensures WellFormed(c.target)
  {
  }

  /**
   * On admitted objects and a parsed default backend compilation never fails,
   * and each reference is registered once, under a name nothing else has.
   */
  lemma CompilationSucceeds(fmt: Formats, opts: Options, s: Snapshot)
    requires forall i :: i in s.ingresses ==> Admitted(i)
    requires opts.defaultBackend.Some? ==> WellFormed(opts.defaultBackend.value)
    ensures DistinctNames(PlanOf(fmt, opts, s).backends)
  {
    var managed := Managed(opts, s.ingresses);
    ManagedIsFilteredByAge(opts, s.ingresses);
    var production, canaries := Production(managed), Canaries(managed);
    var routes := PlannedWithCanaries(production, canaries);
    forall k | k in routes ensures GoodPlan(routes[k]) {
      GoodRoutes(production, canaries, k);
    }
    GoodClaims(production);
    var default := DefaultBackend(opts, production);
    forall t | t in Collected(routes, default) ensures WellFormed(t) {
      GoodReference(routes, default, t);
    }
    RegistrationSucceeds(fmt.parseIp, s.services, s.slices, Collected(routes, default));
  }
}
