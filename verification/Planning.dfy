/**
 * Planning: who owns which route.
 *
 * Ingresses are planned oldest first. An explicit rule takes its key if nothing
 * holds it, fallbacks take what no explicit rule took, and a canary attaches to
 * a planned route that has none. The methods below do that to mutable state;
 * the lemmas say what the result means without mentioning the order of steps.
 */
module Planning {
  import opened Wrappers
  import opened Machine
  import opened Ordering
  import opened Config
  import opened Objects

  datatype MirrorPlan = MirrorPlan(backend: ServiceRef, percent: u32, host: Option<string>, protocol: BackendProtocol)

  datatype CanaryPlan = CanaryPlan(backend: ServiceRef, owner: ObjectKey, rules: CanaryRules, protocol: BackendProtocol)

  datatype RoutePlan = RoutePlan(
    key: RouteKey,
    backend: ServiceRef,
    owner: ObjectKey,
    protocol: BackendProtocol,
    canary: Option<CanaryPlan>,
    mirror: Option<MirrorPlan>)

  /** A claim that was refused, for the author of the refused object. */
  datatype Conflict =
    | RouteTaken(key: RouteKey, subject: ObjectKey, holder: ObjectKey)
    | DefaultTaken(subject: ObjectKey, holder: ObjectKey)
    | CanaryOrphan(key: RouteKey, subject: ObjectKey)
    | CanaryTaken(key: RouteKey, subject: ObjectKey, holder: ObjectKey)

  type Routes = map<RouteKey, RoutePlan>

  // -------------------------------------------------------------------------
  // What an Ingress claims
  // -------------------------------------------------------------------------

  /** A bare `service:port` means the Ingress's own namespace. */
  function MirrorOf(ing: Ingress): Option<MirrorPlan> {
    match ing.mirror.backend
    case None => None
    case Some(reference) =>
      var qualified := if '/' in reference then reference else ing.key.namespace + "/" + reference;
      match Parse(qualified)
      case Ok(backend) => Some(MirrorPlan(backend, ing.mirror.percent, ing.mirror.host, ing.protocol))
      case Err(_) => None
  }

  function KeyOf(host: Option<string>, entry: PathEntry): RouteKey {
    RouteKey(host, if entry.path.Some? then entry.path.value else "/", ParsePathType(entry.pathType))
  }

  function PathClaim(ing: Ingress, host: Option<string>, entry: PathEntry): seq<RoutePlan> {
    match BackendRef(ing.key.namespace, entry.backend)
    case None => []
    case Some(backend) =>
      [RoutePlan(KeyOf(host, entry), backend, ing.key, ing.protocol, None, MirrorOf(ing))]
  }

  function PathClaims(ing: Ingress, host: Option<string>, paths: seq<PathEntry>): seq<RoutePlan> {
    if paths == [] then []
    else PathClaims(ing, host, paths[..|paths| - 1]) + PathClaim(ing, host, paths[|paths| - 1])
  }

  function RuleClaims(ing: Ingress, rules: seq<Rule>): seq<RoutePlan> {
    if rules == [] then []
    else
      var last := rules[|rules| - 1];
      RuleClaims(ing, rules[..|rules| - 1]) + PathClaims(ing, NormalizeHost(last.host), last.paths)
  }

  /** The routes an Ingress declares, in the order it declares them. */
  function Explicit(ing: Ingress): seq<RoutePlan> {
    if ing.spec.None? then [] else RuleClaims(ing, ing.spec.value.rules)
  }

  /** Its distinct hosts, in order of first mention. */
  function HostsOf(rules: seq<Rule>): (hosts: seq<Option<string>>)
    ensures rules == [] <==> hosts == []
  {
    if rules == [] then []
    else
      var before := HostsOf(rules[..|rules| - 1]);
      var host := NormalizeHost(rules[|rules| - 1].host);
      if host in before then before else before + [host]
  }

  function HostFallbacks(ing: Ingress, backend: ServiceRef, hosts: seq<Option<string>>): seq<RoutePlan> {
    if hosts == [] then []
    else
      HostFallbacks(ing, backend, hosts[..|hosts| - 1])
      + [RoutePlan(RouteKey(hosts[|hosts| - 1], "/", Prefix), backend, ing.key, ing.protocol, None, MirrorOf(ing))]
  }

  function DefaultOf(ing: Ingress): Option<ServiceRef> {
    if ing.spec.None? || ing.spec.value.defaultBackend.None? then None
    else BackendRef(ing.key.namespace, ing.spec.value.defaultBackend.value)
  }

  /** `defaultBackend` beside rules: a catch-all path under each of its hosts. */
  function Fallbacks(ing: Ingress): seq<RoutePlan> {
    match DefaultOf(ing)
    case None => []
    case Some(backend) => HostFallbacks(ing, backend, HostsOf(ing.spec.value.rules))
  }

  /** `defaultBackend` and no rules: a bid to be the whole cluster's default. */
  function DefaultBid(ing: Ingress): Option<(ServiceRef, ObjectKey)> {
    match DefaultOf(ing)
    case None => None
    case Some(backend) => if ing.spec.value.rules == [] then Some((backend, ing.key)) else None
  }

  datatype CanaryClaim = CanaryClaim(key: RouteKey, plan: CanaryPlan)

  function CanaryPathClaim(ing: Ingress, host: Option<string>, entry: PathEntry): seq<CanaryClaim> {
    match BackendRef(ing.key.namespace, entry.backend)
    case None => []
    case Some(backend) => [CanaryClaim(KeyOf(host, entry), CanaryPlan(backend, ing.key, ing.canary, ing.protocol))]
  }

  function CanaryPathClaims(ing: Ingress, host: Option<string>, paths: seq<PathEntry>): seq<CanaryClaim> {
    if paths == [] then []
    else CanaryPathClaims(ing, host, paths[..|paths| - 1]) + CanaryPathClaim(ing, host, paths[|paths| - 1])
  }

  function CanaryRuleClaims(ing: Ingress, rules: seq<Rule>): seq<CanaryClaim> {
    if rules == [] then []
    else
      var last := rules[|rules| - 1];
      CanaryRuleClaims(ing, rules[..|rules| - 1]) + CanaryPathClaims(ing, NormalizeHost(last.host), last.paths)
  }

  function CanaryClaims(ing: Ingress): seq<CanaryClaim> {
    if ing.spec.None? then [] else CanaryRuleClaims(ing, ing.spec.value.rules)
  }

  // -------------------------------------------------------------------------
  // Arbitration
  // -------------------------------------------------------------------------

  function Claim(routes: Routes, c: RoutePlan): Routes {
    if c.key in routes then routes else routes[c.key := c]
  }

  function ClaimAll(routes: Routes, claims: seq<RoutePlan>): Routes {
    if claims == [] then routes
    else Claim(ClaimAll(routes, claims[..|claims| - 1]), claims[|claims| - 1])
  }

  function Refusal(routes: Routes, c: RoutePlan): seq<Conflict> {
    if c.key in routes then [RouteTaken(c.key, c.owner, routes[c.key].owner)] else []
  }

  function Refusals(routes: Routes, claims: seq<RoutePlan>): seq<Conflict> {
    if claims == [] then []
    else
      var init := claims[..|claims| - 1];
      Refusals(routes, init) + Refusal(ClaimAll(routes, init), claims[|claims| - 1])
  }

  function Attach(routes: Routes, c: CanaryClaim): Routes {
    if c.key !in routes || routes[c.key].canary.Some? then routes
    else routes[c.key := routes[c.key].(canary := Some(c.plan))]
  }

  function AttachAll(routes: Routes, claims: seq<CanaryClaim>): Routes {
    if claims == [] then routes
    else Attach(AttachAll(routes, claims[..|claims| - 1]), claims[|claims| - 1])
  }

  function AttachRefusal(routes: Routes, c: CanaryClaim): seq<Conflict> {
    if c.key !in routes then [CanaryOrphan(c.key, c.plan.owner)]
    else if routes[c.key].canary.Some? then [CanaryTaken(c.key, c.plan.owner, routes[c.key].canary.value.owner)]
    else []
  }

  function AttachRefusals(routes: Routes, claims: seq<CanaryClaim>): seq<Conflict> {
    if claims == [] then []
    else
      var init := claims[..|claims| - 1];
      AttachRefusals(routes, init) + AttachRefusal(AttachAll(routes, init), claims[|claims| - 1])
  }

  lemma {:induction false} ClaimAllConcat(routes: Routes, a: seq<RoutePlan>, b: seq<RoutePlan>)
    ensures ClaimAll(routes, a + b) == ClaimAll(ClaimAll(routes, a), b)
  {
    if b == [] {
      assert a + b == a;
    } else {
      var init := b[..|b| - 1];
      ClaimAllConcat(routes, a, init);
      assert (a + b)[..|a + b| - 1] == a + init;
    }
  }

  lemma RefusalsStep(routes: Routes, a: seq<RoutePlan>, init: seq<RoutePlan>, last: RoutePlan, b: seq<RoutePlan>)
    requires b == init + [last]
    requires Refusals(routes, a + init) == Refusals(routes, a) + Refusals(ClaimAll(routes, a), init)
    requires ClaimAll(routes, a + init) == ClaimAll(ClaimAll(routes, a), init)
    ensures Refusals(routes, a + b) == Refusals(routes, a) + Refusals(ClaimAll(routes, a), b)
  {
    assert a + b == (a + init) + [last];
    OneMoreClaim(routes, a + init, last);
    OneMoreClaim(ClaimAll(routes, a), init, last);
    ConcatAssociative(Refusals(routes, a), Refusals(ClaimAll(routes, a), init), Refusal(ClaimAll(routes, a + init), last));
  }

  lemma {:induction false} RefusalsConcat(routes: Routes, a: seq<RoutePlan>, b: seq<RoutePlan>)
    ensures Refusals(routes, a + b) == Refusals(routes, a) + Refusals(ClaimAll(routes, a), b)
    decreases |b|
  {
    if |b| == 0 {
      assert a + b == a;
    } else {
      RefusalsConcat(routes, a, b[..|b| - 1]);
      ClaimAllConcat(routes, a, b[..|b| - 1]);
      RefusalsStep(routes, a, b[..|b| - 1], b[|b| - 1], b);
    }
  }

  lemma OneMoreClaim(routes: Routes, claims: seq<RoutePlan>, c: RoutePlan)
    ensures ClaimAll(routes, claims + [c]) == Claim(ClaimAll(routes, claims), c)
    ensures Refusals(routes, claims + [c]) == Refusals(routes, claims) + Refusal(ClaimAll(routes, claims), c)
  {
    assert (claims + [c])[..|claims|] == claims;
  }

  lemma OneMoreCanary(routes: Routes, claims: seq<CanaryClaim>, c: CanaryClaim)
    ensures AttachAll(routes, claims + [c]) == Attach(AttachAll(routes, claims), c)
    ensures AttachRefusals(routes, claims + [c]) == AttachRefusals(routes, claims) + AttachRefusal(AttachAll(routes, claims), c)
  {
    assert (claims + [c])[..|claims|] == claims;
  }

  lemma OneMoreClaimTold(routes: Routes, told: seq<Conflict>, done: seq<RoutePlan>, c: RoutePlan)
    ensures ClaimAll(routes, done + [c]) == Claim(ClaimAll(routes, done), c)
    ensures told + Refusals(routes, done) + Refusal(ClaimAll(routes, done), c) == told + Refusals(routes, done + [c])
  {
    OneMoreClaim(routes, done, c);
    ConcatAssociative(told, Refusals(routes, done), Refusal(ClaimAll(routes, done), c));
  }

  lemma OneMoreCanaryTold(routes: Routes, told: seq<Conflict>, done: seq<CanaryClaim>, c: CanaryClaim)
    ensures AttachAll(routes, done + [c]) == Attach(AttachAll(routes, done), c)
    ensures told + AttachRefusals(routes, done) + AttachRefusal(AttachAll(routes, done), c)
         == told + AttachRefusals(routes, done + [c])
  {
    OneMoreCanary(routes, done, c);
    ConcatAssociative(told, AttachRefusals(routes, done), AttachRefusal(AttachAll(routes, done), c));
  }

  lemma OneMorePath(ing: Ingress, host: Option<string>, paths: seq<PathEntry>, j: nat)
    requires j < |paths|
    ensures PathClaims(ing, host, paths[..j + 1]) == PathClaims(ing, host, paths[..j]) + PathClaim(ing, host, paths[j])
    ensures CanaryPathClaims(ing, host, paths[..j + 1])
         == CanaryPathClaims(ing, host, paths[..j]) + CanaryPathClaim(ing, host, paths[j])
    ensures BackendRef(ing.key.namespace, paths[j].backend).None? ==>
              && PathClaims(ing, host, paths[..j + 1]) == PathClaims(ing, host, paths[..j])
              && CanaryPathClaims(ing, host, paths[..j + 1]) == CanaryPathClaims(ing, host, paths[..j])
  {
    assert paths[..j + 1][..j] == paths[..j];
  }

  lemma OneMoreRule(ing: Ingress, rules: seq<Rule>, i: nat)
    requires i < |rules|
    ensures RuleClaims(ing, rules[..i + 1])
         == RuleClaims(ing, rules[..i]) + PathClaims(ing, NormalizeHost(rules[i].host), rules[i].paths)
    ensures CanaryRuleClaims(ing, rules[..i + 1])
         == CanaryRuleClaims(ing, rules[..i]) + CanaryPathClaims(ing, NormalizeHost(rules[i].host), rules[i].paths)
    ensures HostsOf(rules[..i + 1])
         == var host := NormalizeHost(rules[i].host);
            if host in HostsOf(rules[..i]) then HostsOf(rules[..i]) else HostsOf(rules[..i]) + [host]
  {
    assert rules[..i + 1][..i] == rules[..i];
  }

  lemma {:induction false} AttachAllConcat(routes: Routes, a: seq<CanaryClaim>, b: seq<CanaryClaim>)
    ensures AttachAll(routes, a + b) == AttachAll(AttachAll(routes, a), b)
  {
    if b == [] {
      assert a + b == a;
    } else {
      var init := b[..|b| - 1];
      AttachAllConcat(routes, a, init);
      assert (a + b)[..|a + b| - 1] == a + init;
    }
  }

  lemma AttachRefusalsStep(routes: Routes, a: seq<CanaryClaim>, init: seq<CanaryClaim>, last: CanaryClaim, b: seq<CanaryClaim>)
    requires b == init + [last]
    requires AttachRefusals(routes, a + init) == AttachRefusals(routes, a) + AttachRefusals(AttachAll(routes, a), init)
    requires AttachAll(routes, a + init) == AttachAll(AttachAll(routes, a), init)
    ensures AttachRefusals(routes, a + b) == AttachRefusals(routes, a) + AttachRefusals(AttachAll(routes, a), b)
  {
    assert a + b == (a + init) + [last];
    OneMoreCanary(routes, a + init, last);
    OneMoreCanary(AttachAll(routes, a), init, last);
    ConcatAssociative(AttachRefusals(routes, a), AttachRefusals(AttachAll(routes, a), init), AttachRefusal(AttachAll(routes, a + init), last));
  }

  lemma {:induction false} AttachRefusalsConcat(routes: Routes, a: seq<CanaryClaim>, b: seq<CanaryClaim>)
    ensures AttachRefusals(routes, a + b) == AttachRefusals(routes, a) + AttachRefusals(AttachAll(routes, a), b)
    decreases |b|
  {
    if |b| == 0 {
      assert a + b == a;
    } else {
      AttachRefusalsConcat(routes, a, b[..|b| - 1]);
      AttachAllConcat(routes, a, b[..|b| - 1]);
      AttachRefusalsStep(routes, a, b[..|b| - 1], b[|b| - 1], b);
    }
  }

  lemma ClaimedTogether(routes: Routes, told: seq<Conflict>, done: seq<RoutePlan>, more: seq<RoutePlan>)
    ensures ClaimAll(ClaimAll(routes, done), more) == ClaimAll(routes, done + more)
    ensures told + Refusals(routes, done) + Refusals(ClaimAll(routes, done), more) == told + Refusals(routes, done + more)
  {
    ClaimAllConcat(routes, done, more);
    RefusalsConcat(routes, done, more);
    ConcatAssociative(told, Refusals(routes, done), Refusals(ClaimAll(routes, done), more));
  }

  lemma AttachedTogether(routes: Routes, told: seq<Conflict>, done: seq<CanaryClaim>, more: seq<CanaryClaim>)
    ensures AttachAll(AttachAll(routes, done), more) == AttachAll(routes, done + more)
    ensures told + AttachRefusals(routes, done) + AttachRefusals(AttachAll(routes, done), more)
         == told + AttachRefusals(routes, done + more)
  {
    AttachAllConcat(routes, done, more);
    AttachRefusalsConcat(routes, done, more);
    ConcatAssociative(told, AttachRefusals(routes, done), AttachRefusals(AttachAll(routes, done), more));
  }

  /** `i` is the first of `claims` for `k`. */
  ghost predicate IsFirst(claims: seq<RoutePlan>, k: RouteKey, i: nat) {
    i < |claims| && claims[i].key == k && forall j :: 0 <= j < i ==> claims[j].key != k
  }

  ghost predicate IsFirstCanary(claims: seq<CanaryClaim>, k: RouteKey, i: nat) {
    i < |claims| && claims[i].key == k && forall j :: 0 <= j < i ==> claims[j].key != k
  }

  lemma {:induction false} ClaimedKeys(routes: Routes, claims: seq<RoutePlan>, k: RouteKey)
    ensures k in ClaimAll(routes, claims) <==> k in routes || exists c :: c in claims && c.key == k
  {
    if claims != [] {
      var init, last := claims[..|claims| - 1], claims[|claims| - 1];
      ClaimedKeys(routes, init, k);
      assert forall c :: c in claims <==> c in init || c == last;
    }
  }

  /** A key belongs to whoever held it, else to its first claim, else to nobody. */
  lemma {:induction false} FirstClaimWins(routes: Routes, claims: seq<RoutePlan>, k: RouteKey)
    ensures k in ClaimAll(routes, claims) <==> k in routes || exists c :: c in claims && c.key == k
    ensures k in routes ==> ClaimAll(routes, claims)[k] == routes[k]
    ensures forall i: nat :: IsFirst(claims, k, i) && k !in routes ==>
              k in ClaimAll(routes, claims) && ClaimAll(routes, claims)[k] == claims[i]
  {
    ClaimedKeys(routes, claims, k);
    if claims != [] {
      var init, last := claims[..|claims| - 1], claims[|claims| - 1];
      FirstClaimWins(routes, init, k);
      forall i: nat | IsFirst(claims, k, i) && k !in routes
        ensures k in ClaimAll(routes, claims) && ClaimAll(routes, claims)[k] == claims[i]
      {
        ClaimedKeys(routes, init, k);
        assert claims[i] in claims;
        if i < |init| {
          assert IsFirst(init, k, i) && init[i] in init;
        }
      }
    }
  }

  lemma {:induction false} SomeFirst(claims: seq<RoutePlan>, k: RouteKey, n: nat) returns (i: nat)
    requires n < |claims| && claims[n].key == k
    ensures IsFirst(claims, k, i) && i <= n
  {
    if j :| 0 <= j < n && claims[j].key == k {
      i := SomeFirst(claims, k, j);
    } else {
      i := n;
    }
  }

  /**
   * Attaching canaries adds no key, touches nothing but `canary`, never
   * displaces one, and gives a free route its first claimant.
   */
  lemma {:induction false} FirstCanaryWins(routes: Routes, claims: seq<CanaryClaim>, k: RouteKey)
    ensures AttachAll(routes, claims).Keys == routes.Keys
    ensures k in routes ==> AttachAll(routes, claims)[k] == routes[k].(canary := AttachAll(routes, claims)[k].canary)
    ensures k in routes && routes[k].canary.Some? ==> AttachAll(routes, claims)[k] == routes[k]
    ensures k in routes && routes[k].canary.None? ==>
              (AttachAll(routes, claims)[k].canary.Some? <==> exists c :: c in claims && c.key == k)
    ensures k in routes && routes[k].canary.None? ==>
              forall i: nat :: IsFirstCanary(claims, k, i) ==> AttachAll(routes, claims)[k].canary == Some(claims[i].plan)
  {
    if claims != [] {
      var init, last := claims[..|claims| - 1], claims[|claims| - 1];
      FirstCanaryWins(routes, init, k);
      assert forall c :: c in claims <==> c in init || c == last;
      forall i: nat | IsFirstCanary(claims, k, i) && k in routes && routes[k].canary.None?
        ensures AttachAll(routes, claims)[k].canary == Some(claims[i].plan)
      {
        if i < |init| {
          assert IsFirstCanary(init, k, i);
          assert init[i] in init;
        }
      }
    }
  }

  // -------------------------------------------------------------------------
  // The whole plan
  // -------------------------------------------------------------------------

  function AllExplicit(ings: seq<Ingress>): seq<RoutePlan> {
    if ings == [] then [] else AllExplicit(ings[..|ings| - 1]) + Explicit(ings[|ings| - 1])
  }

  function AllFallbacks(ings: seq<Ingress>): seq<RoutePlan> {
    if ings == [] then [] else AllFallbacks(ings[..|ings| - 1]) + Fallbacks(ings[|ings| - 1])
  }

  function AllCanaries(ings: seq<Ingress>): seq<CanaryClaim> {
    if ings == [] then [] else AllCanaries(ings[..|ings| - 1]) + CanaryClaims(ings[|ings| - 1])
  }

  function GlobalDefault(ings: seq<Ingress>): Option<(ServiceRef, ObjectKey)> {
    if ings == [] then None
    else
      var before := GlobalDefault(ings[..|ings| - 1]);
      if before.Some? then before else DefaultBid(ings[|ings| - 1])
  }

  /** Production routes: explicit rules first, fallbacks into what is left. */
  function Planned(production: seq<Ingress>): Routes {
    ClaimAll(ClaimAll(map[], AllExplicit(production)), AllFallbacks(production))
  }

  function PlannedWithCanaries(production: seq<Ingress>, canaries: seq<Ingress>): Routes {
    AttachAll(Planned(production), AllCanaries(canaries))
  }

  lemma {:induction false} AllExplicitHas(ings: seq<Ingress>, w: nat, c: RoutePlan)
    requires w < |ings| && c in Explicit(ings[w])
    ensures c in AllExplicit(ings)
  {
    if w < |ings| - 1 {
      AllExplicitHas(ings[..|ings| - 1], w, c);
    }
  }

  lemma {:induction false} AllExplicitFrom(ings: seq<Ingress>, c: RoutePlan) returns (w: nat)
    requires c in AllExplicit(ings)
    ensures w < |ings| && c in Explicit(ings[w])
  {
    w := |ings| - 1;
    if c !in Explicit(ings[w]) {
      w := AllExplicitFrom(ings[..|ings| - 1], c);
    }
  }

  lemma {:induction false} AllExplicitPrefix(ings: seq<Ingress>, n: nat)
    requires n <= |ings|
    ensures AllExplicit(ings[..n]) <= AllExplicit(ings)
  {
    if n < |ings| {
      var init := ings[..|ings| - 1];
      assert init[..n] == ings[..n];
      AllExplicitPrefix(init, n);
    } else {
      assert ings[..n] == ings;
    }
  }

  /**
   * Oldest wins: whoever claims a route explicitly, the route's owner is one of
   * the explicit claimants and at least as old.
   */
  lemma OldestExplicitWins(production: seq<Ingress>, i: nat, c: RoutePlan) returns (w: nat)
    requires SortedBy(AgeLe, production)
    requires i < |production| && c in Explicit(production[i])
    ensures w <= i && (w < i ==> AgeLe(production[w], production[i]))
    ensures c.key in Planned(production)
    ensures Planned(production)[c.key] in Explicit(production[w])
  {
    var claims, older := AllExplicit(production), AllExplicit(production[..i + 1]);
    AllExplicitPrefix(production, i + 1);
    assert production[..i + 1][i] == production[i];
    AllExplicitHas(production[..i + 1], i, c);
    var n :| 0 <= n < |older| && older[n] == c;
    assert claims[n] == c && claims[n] in claims;
    var f := SomeFirst(claims, c.key, n);
    FirstClaimWins(map[], claims, c.key);
    FirstClaimWins(ClaimAll(map[], claims), AllFallbacks(production), c.key);
    assert older[f] in older;
    w := AllExplicitFrom(production[..i + 1], older[f]);
    assert production[..i + 1][w] == production[w];
  }

  ghost predicate NoCanaries(plans: seq<RoutePlan>) {
    forall p :: p in plans ==> p.canary.None?
  }

  lemma {:induction false} RulesClaimNoCanary(ing: Ingress, rules: seq<Rule>)
    ensures NoCanaries(RuleClaims(ing, rules))
  {
    if rules != [] {
      var last := rules[|rules| - 1];
      RulesClaimNoCanary(ing, rules[..|rules| - 1]);
      PathsClaimNoCanary(ing, NormalizeHost(last.host), last.paths);
    }
  }

  lemma {:induction false} PathsClaimNoCanary(ing: Ingress, host: Option<string>, paths: seq<PathEntry>)
    ensures NoCanaries(PathClaims(ing, host, paths))
  {
    if paths != [] {
      PathsClaimNoCanary(ing, host, paths[..|paths| - 1]);
    }
  }

  lemma {:induction false} HostsClaimNoCanary(ing: Ingress, backend: ServiceRef, hosts: seq<Option<string>>)
    ensures NoCanaries(HostFallbacks(ing, backend, hosts))
  {
    if hosts != [] {
      HostsClaimNoCanary(ing, backend, hosts[..|hosts| - 1]);
    }
  }

  lemma {:induction false} ProductionClaimsNoCanary(ings: seq<Ingress>)
    ensures NoCanaries(AllExplicit(ings)) && NoCanaries(AllFallbacks(ings))
  {
    if ings != [] {
      var last := ings[|ings| - 1];
      ProductionClaimsNoCanary(ings[..|ings| - 1]);
      if last.spec.Some? {
        RulesClaimNoCanary(last, last.spec.value.rules);
      }
      if DefaultOf(last).Some? {
        HostsClaimNoCanary(last, DefaultOf(last).value, HostsOf(last.spec.value.rules));
      }
    }
  }

  lemma {:induction false} AllCanariesHas(ings: seq<Ingress>, w: nat, c: CanaryClaim)
    requires w < |ings| && c in CanaryClaims(ings[w])
    ensures c in AllCanaries(ings)
  {
    if w < |ings| - 1 {
      AllCanariesHas(ings[..|ings| - 1], w, c);
    }
  }

  lemma {:induction false} AllCanariesFrom(ings: seq<Ingress>, c: CanaryClaim) returns (w: nat)
    requires c in AllCanaries(ings)
    ensures w < |ings| && c in CanaryClaims(ings[w])
  {
    w := |ings| - 1;
    if c !in CanaryClaims(ings[w]) {
      w := AllCanariesFrom(ings[..|ings| - 1], c);
    }
  }

  lemma {:induction false} AllCanariesPrefix(ings: seq<Ingress>, n: nat)
    requires n <= |ings|
    ensures AllCanaries(ings[..n]) <= AllCanaries(ings)
  {
    if n < |ings| {
      var init := ings[..|ings| - 1];
      assert init[..n] == ings[..n];
      AllCanariesPrefix(init, n);
    } else {
      assert ings[..n] == ings;
    }
  }

  lemma {:induction false} SomeFirstCanary(claims: seq<CanaryClaim>, k: RouteKey, n: nat) returns (i: nat)
    requires n < |claims| && claims[n].key == k
    ensures IsFirstCanary(claims, k, i) && i <= n
  {
    if j :| 0 <= j < n && claims[j].key == k {
      i := SomeFirstCanary(claims, k, j);
    } else {
      i := n;
    }
  }

  /** A planned route's canary is the claim of a canary Ingress at least as old as any claimant. */
  lemma OldestCanaryWins(production: seq<Ingress>, canaries: seq<Ingress>, i: nat, c: CanaryClaim)
    returns (w: nat, held: CanaryClaim)
    requires SortedBy(AgeLe, canaries)
    requires i < |canaries| && c in CanaryClaims(canaries[i])
    requires c.key in Planned(production)
    ensures w <= i && (w < i ==> AgeLe(canaries[w], canaries[i]))
    ensures held in CanaryClaims(canaries[w]) && held.key == c.key
    ensures c.key in PlannedWithCanaries(production, canaries)
    ensures PlannedWithCanaries(production, canaries)[c.key]
         == Planned(production)[c.key].(canary := Some(held.plan))
  {
    var claims, older := AllCanaries(canaries), AllCanaries(canaries[..i + 1]);
    AllCanariesPrefix(canaries, i + 1);
    AllCanariesHas(canaries[..i + 1], i, c);
    var n :| 0 <= n < |older| && older[n] == c;
    assert claims[n] == c;
    var f := SomeFirstCanary(claims, c.key, n);
    FirstCanaryWins(Planned(production), claims, c.key);
    ProductionClaimsNoCanary(production);
    PlannedIsClaimed(production, c.key);
    held := older[f];
    w := AllCanariesFrom(canaries[..i + 1], held);
  }

  /** A fallback serves a key only when no Ingress of any age declares it. */
  lemma FallbackYields(production: seq<Ingress>, k: RouteKey)
    requires k in Planned(production)
    requires forall c :: c in AllExplicit(production) ==> c.key != k
    ensures Planned(production)[k] in AllFallbacks(production)
    ensures exists i: nat :: IsFirst(AllFallbacks(production), k, i) && Planned(production)[k] == AllFallbacks(production)[i]
  {
    var explicit := ClaimAll(map[], AllExplicit(production));
    var fallbacks := AllFallbacks(production);
    FirstClaimWins(map[], AllExplicit(production), k);
    FirstClaimWins(explicit, fallbacks, k);
    var c :| c in fallbacks && c.key == k;
    var n :| 0 <= n < |fallbacks| && fallbacks[n] == c;
    var i := SomeFirst(fallbacks, k, n);
    assert IsFirst(fallbacks, k, i) && Planned(production)[k] == fallbacks[i];
  }

  /** Every planned route was claimed by somebody, under its own key, without a canary. */
  lemma PlannedIsClaimed(production: seq<Ingress>, k: RouteKey)
    requires k in Planned(production)
    ensures Planned(production)[k] in AllExplicit(production) + AllFallbacks(production)
    ensures Planned(production)[k].key == k
  {
    var explicit := AllExplicit(production);
    FirstClaimWins(map[], explicit, k);
    FirstClaimWins(ClaimAll(map[], explicit), AllFallbacks(production), k);
    if c :| c in explicit && c.key == k {
      var n :| 0 <= n < |explicit| && explicit[n] == c;
      var i := SomeFirst(explicit, k, n);
      assert explicit[i] in explicit;
    } else {
      FallbackYields(production, k);
    }
  }

  /** The claim at `n` came after another for the same key. */
  ghost predicate CameSecond(claims: seq<RoutePlan>, n: nat) {
    n < |claims| && exists m :: 0 <= m < n && claims[m].key == claims[n].key
  }

  /**
   * A claim that came second is reported to its author, naming the owner the
   * route ends up with; and there are exactly as many reports as lost claims.
   */
  lemma {:induction false} RefusalsNameTheHolder(claims: seq<RoutePlan>, n: nat)
    requires CameSecond(claims, n)
    ensures claims[n].key in ClaimAll(map[], claims)
    ensures RouteTaken(claims[n].key, claims[n].owner, ClaimAll(map[], claims)[claims[n].key].owner)
            in Refusals(map[], claims)
  {
    var init, last := claims[..|claims| - 1], claims[|claims| - 1];
    HeldBefore(claims, n);
    if n < |init| {
      var m :| 0 <= m < n && claims[m].key == claims[n].key;
      assert init[m].key == init[n].key;
      RefusalsNameTheHolder(init, n);
    }
  }

  /** A key claimed before is held before the last claim, which does not change its holder. */
  lemma HeldBefore(claims: seq<RoutePlan>, n: nat)
    requires CameSecond(claims, n)
    ensures var init := claims[..|claims| - 1];
            && claims[n].key in ClaimAll(map[], init)
            && claims[n].key in ClaimAll(map[], claims)
            && ClaimAll(map[], claims)[claims[n].key] == ClaimAll(map[], init)[claims[n].key]
  {
    var init := claims[..|claims| - 1];
    var m :| 0 <= m < n && claims[m].key == claims[n].key;
    assert init[m] in init;
    ClaimedKeys(map[], init, claims[n].key);
  }

  lemma {:induction false} ClaimsAreGrantedOrReported(claims: seq<RoutePlan>)
    ensures |ClaimAll(map[], claims)| + |Refusals(map[], claims)| == |claims|
  {
    if claims != [] {
      ClaimsAreGrantedOrReported(claims[..|claims| - 1]);
    }
  }

  // -------------------------------------------------------------------------
  // The planner
  // -------------------------------------------------------------------------

  /** The state every Ingress is planned into. */
  class Planner {
    var routes: Routes
    var fallbacks: seq<RoutePlan>
    var globalDefault: Option<(ServiceRef, ObjectKey)>
    var conflicts: seq<Conflict>

    constructor ()
      ensures routes == map[] && fallbacks == [] && globalDefault == None && conflicts == []
    {
      routes, fallbacks, globalDefault, conflicts := map[], [], None, [];
    }

    method PlanPaths(ing: Ingress, host: Option<string>, paths: seq<PathEntry>)
      modifies this`routes, this`conflicts
      ensures routes == ClaimAll(old(routes), PathClaims(ing, host, paths))
      ensures conflicts == old(conflicts) + Refusals(old(routes), PathClaims(ing, host, paths))
    {
      var mirror := MirrorOf(ing);
      ghost var before, told := routes, conflicts;
      for j := 0 to |paths|
        invariant routes == ClaimAll(before, PathClaims(ing, host, paths[..j]))
        invariant conflicts == told + Refusals(before, PathClaims(ing, host, paths[..j]))
      {
        OneMorePath(ing, host, paths, j);
        match BackendRef(ing.key.namespace, paths[j].backend) {
          case None =>
          case Some(backend) =>
            var plan := RoutePlan(KeyOf(host, paths[j]), backend, ing.key, ing.protocol, None, mirror);
            Take(plan);
            OneMoreClaimTold(before, told, PathClaims(ing, host, paths[..j]), plan);
        }
      }
      assert paths[..|paths|] == paths;
    }

    /** Gives the route to `plan` unless somebody older has it. */
    method Take(plan: RoutePlan)
      modifies this`routes, this`conflicts
      ensures routes == Claim(old(routes), plan)
      ensures conflicts == old(conflicts) + Refusal(old(routes), plan)
    {
      if plan.key in routes {
        conflicts := conflicts + [RouteTaken(plan.key, plan.owner, routes[plan.key].owner)];
      } else {
        routes := routes[plan.key := plan];
      }
    }

    method PlanRules(ing: Ingress, rules: seq<Rule>) returns (hosts: seq<Option<string>>)
      modifies this`routes, this`conflicts
      ensures hosts == HostsOf(rules)
      ensures routes == ClaimAll(old(routes), RuleClaims(ing, rules))
      ensures conflicts == old(conflicts) + Refusals(old(routes), RuleClaims(ing, rules))
    {
      hosts := [];
      ghost var before, told := routes, conflicts;
      for i := 0 to |rules|
        invariant hosts == HostsOf(rules[..i])
        invariant routes == ClaimAll(before, RuleClaims(ing, rules[..i]))
        invariant conflicts == told + Refusals(before, RuleClaims(ing, rules[..i]))
      {
        var host := NormalizeHost(rules[i].host);
        if host !in hosts {
          hosts := hosts + [host];
        }
        PlanPaths(ing, host, rules[i].paths);
        OneMoreRule(ing, rules, i);
        ClaimedTogether(before, told, RuleClaims(ing, rules[..i]), PathClaims(ing, host, rules[i].paths));
      }
      assert rules[..|rules|] == rules;
    }

    method PushFallbacks(ing: Ingress, backend: ServiceRef, hosts: seq<Option<string>>)
      modifies this`fallbacks
      ensures fallbacks == old(fallbacks) + HostFallbacks(ing, backend, hosts)
    {
      var mirror := MirrorOf(ing);
      for i := 0 to |hosts|
        invariant fallbacks == old(fallbacks) + HostFallbacks(ing, backend, hosts[..i])
      {
        assert hosts[..i + 1][..i] == hosts[..i];
        fallbacks := fallbacks + [RoutePlan(RouteKey(hosts[i], "/", Prefix), backend, ing.key, ing.protocol, None, mirror)];
      }
      assert hosts[..|hosts|] == hosts;
    }

    /** Turns one production Ingress into route plans. */
    method PlanIngress(ing: Ingress)
      modifies this
      ensures routes == ClaimAll(old(routes), Explicit(ing))
      ensures fallbacks == old(fallbacks) + Fallbacks(ing)
      ensures globalDefault == if old(globalDefault).Some? then old(globalDefault) else DefaultBid(ing)
      ensures conflicts == old(conflicts) + Refusals(old(routes), Explicit(ing))
                           + (if old(globalDefault).Some? && DefaultBid(ing).Some?
                              then [DefaultTaken(ing.key, old(globalDefault).value.1)] else [])
    {
      if ing.spec.None? {
        return;
      }
      var spec := ing.spec.value;
      var hosts := PlanRules(ing, spec.rules);
      if spec.defaultBackend.None? {
        return;
      }
      match BackendRef(ing.key.namespace, spec.defaultBackend.value) {
        case None =>
        case Some(backend) =>
          if hosts == [] {
            if globalDefault.Some? {
              conflicts := conflicts + [DefaultTaken(ing.key, globalDefault.value.1)];
            } else {
              globalDefault := Some((backend, ing.key));
            }
          } else {
            PushFallbacks(ing, backend, hosts);
          }
      }
    }

    /** Plans every production Ingress, then lets the fallbacks fill the gaps. */
    method PlanAll(production: seq<Ingress>)
      requires routes == map[] && fallbacks == [] && globalDefault == None
      modifies this
      ensures routes == Planned(production)
      ensures globalDefault == GlobalDefault(production)
    {
      for i := 0 to |production|
        invariant routes == ClaimAll(map[], AllExplicit(production[..i]))
        invariant fallbacks == AllFallbacks(production[..i])
        invariant globalDefault == GlobalDefault(production[..i])
      {
        assert production[..i + 1][..i] == production[..i];
        ClaimAllConcat(map[], AllExplicit(production[..i]), Explicit(production[i]));
        PlanIngress(production[i]);
      }
      assert production[..|production|] == production;
      FillGaps(fallbacks);
    }

    method FillGaps(plans: seq<RoutePlan>)
      modifies this`routes
      ensures routes == ClaimAll(old(routes), plans)
    {
      for i := 0 to |plans|
        invariant routes == ClaimAll(old(routes), plans[..i])
      {
        assert plans[..i + 1][..i] == plans[..i];
        if plans[i].key !in routes {
          routes := routes[plans[i].key := plans[i]];
        }
      }
      assert plans[..|plans|] == plans;
    }

    method AttachPaths(ing: Ingress, host: Option<string>, paths: seq<PathEntry>)
      modifies this`routes, this`conflicts
      ensures routes == AttachAll(old(routes), CanaryPathClaims(ing, host, paths))
      ensures conflicts == old(conflicts) + AttachRefusals(old(routes), CanaryPathClaims(ing, host, paths))
    {
      ghost var before, told := routes, conflicts;
      for j := 0 to |paths|
        invariant routes == AttachAll(before, CanaryPathClaims(ing, host, paths[..j]))
        invariant conflicts == told + AttachRefusals(before, CanaryPathClaims(ing, host, paths[..j]))
      {
        OneMorePath(ing, host, paths, j);
        match BackendRef(ing.key.namespace, paths[j].backend) {
          case None =>
          case Some(backend) =>
            var key, plan := KeyOf(host, paths[j]), CanaryPlan(backend, ing.key, ing.canary, ing.protocol);
            Shadow(key, plan);
            OneMoreCanaryTold(before, told, CanaryPathClaims(ing, host, paths[..j]), CanaryClaim(key, plan));
        }
      }
      assert paths[..|paths|] == paths;
    }

    /** Attaches a canary to a planned route that has none yet. */
    method Shadow(key: RouteKey, plan: CanaryPlan)
      modifies this`routes, this`conflicts
      ensures routes == Attach(old(routes), CanaryClaim(key, plan))
      ensures conflicts == old(conflicts) + AttachRefusal(old(routes), CanaryClaim(key, plan))
    {
      if key !in routes {
        conflicts := conflicts + [CanaryOrphan(key, plan.owner)];
      } else if routes[key].canary.Some? {
        conflicts := conflicts + [CanaryTaken(key, plan.owner, routes[key].canary.value.owner)];
      } else {
        routes := routes[key := routes[key].(canary := Some(plan))];
      }
    }

    /** Merges one canary Ingress onto the routes it shadows. */
    method AttachCanary(ing: Ingress)
      modifies this`routes, this`conflicts
      ensures routes == AttachAll(old(routes), CanaryClaims(ing))
      ensures conflicts == old(conflicts) + AttachRefusals(old(routes), CanaryClaims(ing))
    {
      if ing.spec.None? {
        return;
      }
      var rules := ing.spec.value.rules;
      ghost var before, told := routes, conflicts;
      for i := 0 to |rules|
        invariant routes == AttachAll(before, CanaryRuleClaims(ing, rules[..i]))
        invariant conflicts == told + AttachRefusals(before, CanaryRuleClaims(ing, rules[..i]))
      {
        var host := NormalizeHost(rules[i].host);
        AttachPaths(ing, host, rules[i].paths);
        OneMoreRule(ing, rules, i);
        AttachedTogether(before, told, CanaryRuleClaims(ing, rules[..i]), CanaryPathClaims(ing, host, rules[i].paths));
      }
      assert rules[..|rules|] == rules;
    }

    method AttachCanaries(canaries: seq<Ingress>)
      modifies this`routes, this`conflicts
      ensures routes == AttachAll(old(routes), AllCanaries(canaries))
    {
      for i := 0 to |canaries|
        invariant routes == AttachAll(old(routes), AllCanaries(canaries[..i]))
      {
        assert canaries[..i + 1][..i] == canaries[..i];
        AttachAllConcat(old(routes), AllCanaries(canaries[..i]), CanaryClaims(canaries[i]));
        AttachCanary(canaries[i]);
      }
      assert canaries[..|canaries|] == canaries;
    }
  }
}
