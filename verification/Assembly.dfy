/**
 * From a plan to the router's table: what is loaded into the builder, why
 * building it does not fail, and what the table then serves.
 */
module Assembly {
  import opened Wrappers
  import opened Machine
  import opened Ordering
  import opened Config
  import opened Objects
  import opened Planning
  import opened Endpoints
  import opened Backends
  import opened Certificates
  import opened Router
  import opened Digests

  // -------------------------------------------------------------------------
  // What is loaded
  // -------------------------------------------------------------------------

  /** The routes the router takes, in route order. */
  function Drafts(pats: Patterns, routes: Routes, keys: seq<RouteKey>): seq<RouteDraft>
    requires Within(keys, routes)
  {
    if keys == [] then []
    else Drafts(pats, routes, keys[..|keys| - 1]) + DraftList(Accepted(pats, routes[keys[|keys| - 1]]))
  }

  function FileAll(sni: Sni, hosts: seq<string>): map<RouteHost, u64>
    requires forall h :: h in hosts ==> h in sni
  {
    if hosts == [] then map[]
    else
      var h := hosts[|hosts| - 1];
      FileCertificate(FileAll(sni, hosts[..|hosts| - 1]), h, sni[h].handleId)
  }

  ghost function SniTable(p: CertPlan): map<RouteHost, u64> {
    var filed := FileAll(p.sni, SortedSet(LexLe, p.sni.Keys));
    match p.defaultCert case None => filed case Some(id) => filed[CatchAll := id]
  }

  function DefaultName(default: Option<ServiceRef>): Option<string> {
    match default case None => None case Some(r) => Some(BackendName(r))
  }

  ghost function TableOf(pats: Patterns, generation: u64, backends: seq<Registered>, routes: Routes,
                         default: Option<ServiceRef>, certs: CertPlan): Result<RouteTable, BuildError>
  {
    Built(generation, backends, Drafts(pats, routes, RouteOrderOf(routes)), DefaultName(default), SniTable(certs))
  }

  // -------------------------------------------------------------------------
  // Planned hosts are normal
  // -------------------------------------------------------------------------

  predicate NormalKey(k: RouteKey) {
    k.host.Some? ==> NormalHost(k.host.value)
  }

  ghost predicate NormalPlans(plans: seq<RoutePlan>) {
    forall p :: p in plans ==> NormalKey(p.key)
  }

  lemma {:induction false} PathsAreNormal(ing: Ingress, host: Option<string>, paths: seq<PathEntry>)
    requires host.Some? ==> NormalHost(host.value)
    ensures NormalPlans(PathClaims(ing, host, paths))
  {
    if paths != [] {
      PathsAreNormal(ing, host, paths[..|paths| - 1]);
    }
  }

  lemma {:induction false} RulesAreNormal(ing: Ingress, rules: seq<Rule>)
    ensures NormalPlans(RuleClaims(ing, rules))
    ensures forall h :: h in HostsOf(rules) && h.Some? ==> NormalHost(h.value)
  {
    if rules != [] {
      var last := rules[|rules| - 1];
      RulesAreNormal(ing, rules[..|rules| - 1]);
      NormalizedIsNormal(last.host);
      PathsAreNormal(ing, NormalizeHost(last.host), last.paths);
    }
  }

  lemma {:induction false} HostFallbacksAreNormal(ing: Ingress, backend: ServiceRef, hosts: seq<Option<string>>)
    requires forall h :: h in hosts && h.Some? ==> NormalHost(h.value)
    ensures NormalPlans(HostFallbacks(ing, backend, hosts))
  {
    if hosts != [] {
      HostFallbacksAreNormal(ing, backend, hosts[..|hosts| - 1]);
      assert hosts[|hosts| - 1] in hosts;
    }
  }

  lemma {:induction false} ClaimsAreNormal(ings: seq<Ingress>)
    ensures NormalPlans(AllExplicit(ings)) && NormalPlans(AllFallbacks(ings))
  {
    if ings != [] {
      var ing := ings[|ings| - 1];
      ClaimsAreNormal(ings[..|ings| - 1]);
      if ing.spec.Some? {
        RulesAreNormal(ing, ing.spec.value.rules);
        if DefaultOf(ing).Some? {
          HostFallbacksAreNormal(ing, DefaultOf(ing).value, HostsOf(ing.spec.value.rules));
        }
      }
    }
  }

  /** Every planned route is filed under its own key, whose host is normal. */
  ghost predicate NormalRoutes(routes: Routes) {
    forall k :: k in routes ==> routes[k].key == k && NormalKey(k)
  }

  lemma PlannedIsNormal(production: seq<Ingress>, canaries: seq<Ingress>)
    ensures NormalRoutes(PlannedWithCanaries(production, canaries))
  {
    var planned, routes := Planned(production), PlannedWithCanaries(production, canaries);
    ClaimsAreNormal(production);
    forall k | k in routes ensures routes[k].key == k && NormalKey(k) {
      FirstCanaryWins(planned, AllCanaries(canaries), k);
      PlannedIsClaimed(production, k);
    }
  }

  // -------------------------------------------------------------------------
  // Building does not fail
  // -------------------------------------------------------------------------

  /** What an accepted route becomes: its own place, and the names it refers by. */
  lemma DraftMeans(pats: Patterns, p: RoutePlan)
    requires Accepted(pats, p).Some?
    ensures var d := Accepted(pats, p).value;
            && SlotOf(p.key.host) == Ok(d.slot) && d.path == p.key.path && d.pathType == p.key.pathType
            && d.backend == BackendName(p.backend)
            && (d.canary.Some? ==> p.canary.Some? && d.canary.value.backend == BackendName(p.canary.value.backend))
            && (d.mirror.Some? ==> p.mirror.Some? && d.mirror.value.backend == BackendName(p.mirror.value.backend))
  {
  }

  lemma {:induction false} DraftFrom(pats: Patterns, routes: Routes, keys: seq<RouteKey>, d: RouteDraft)
    requires Within(keys, routes)
    ensures d in Drafts(pats, routes, keys) <==> exists k :: k in keys && Accepted(pats, routes[k]) == Some(d)
  {
    if keys != [] {
      var init, last := keys[..|keys| - 1], keys[|keys| - 1];
      DraftFrom(pats, routes, init, d);
      assert forall k :: k in keys <==> k in init || k == last;
    }
  }

  lemma PlacesApart(pats: Patterns, a: RoutePlan, b: RoutePlan)
    requires NormalKey(a.key) && NormalKey(b.key) && a.key != b.key
    requires Accepted(pats, a).Some? && Accepted(pats, b).Some?
    ensures PlaceOf(Accepted(pats, a).value) != PlaceOf(Accepted(pats, b).value)
  {
    DraftMeans(pats, a);
    DraftMeans(pats, b);
    SlotsDiffer(a.key.host, b.key.host);
  }

  /** No two planned routes ask for one place in the table. */
  lemma {:induction false} PlacesAreDistinct(pats: Patterns, routes: Routes, keys: seq<RouteKey>)
    requires Within(keys, routes) && NormalRoutes(routes) && Distinct(keys)
    ensures DistinctPlaces(Drafts(pats, routes, keys))
  {
    if keys != [] {
      var init, last := keys[..|keys| - 1], keys[|keys| - 1];
      PlacesAreDistinct(pats, routes, init);
      if Accepted(pats, routes[last]).Some? {
        var drafts := Drafts(pats, routes, init);
        forall d | d in drafts ensures PlaceOf(d) != PlaceOf(Accepted(pats, routes[last]).value) {
          DraftFrom(pats, routes, init, d);
          var k :| k in init && Accepted(pats, routes[k]) == Some(d);
          PlacesApart(pats, routes[k], routes[last]);
        }
      }
    }
  }

  /** Every name in use belongs to some registered backend. */
  ghost predicate Closed(backends: seq<Registered>, routes: Routes, default: Option<ServiceRef>) {
    forall t :: Referenced(routes, default, t) ==> IdOf(backends, BackendName(t)).Some?
  }

  lemma EntryIsNamed(parseIp: IpParser, services: seq<Service>, slices: seq<Slice>, m: Protocols, t: ServiceRef)
    requires t in m
    ensures IdOf(AllEntries(parseIp, services, slices, m), BackendName(t)).Some?
  {
    var refs := SortedSet(RefLe, m.Keys);
    assert t in refs;
    var i :| 0 <= i < |refs| && refs[i] == t;
    var all := AllEntries(parseIp, services, slices, m);
    assert all[i] in all && all[i] == Entry(parseIp, services, slices, t, m[t]);
  }

  lemma EntriesAreClosed(parseIp: IpParser, services: seq<Service>, slices: seq<Slice>, routes: Routes, default: Option<ServiceRef>)
    ensures Closed(AllEntries(parseIp, services, slices, Collected(routes, default)), routes, default)
  {
    var m := Collected(routes, default);
    forall t | Referenced(routes, default, t) ensures IdOf(AllEntries(parseIp, services, slices, m), BackendName(t)).Some? {
      BackendsAreClosed(routes, default, t);
      EntryIsNamed(parseIp, services, slices, m, t);
    }
  }

  lemma RouteResolves(pats: Patterns, backends: seq<Registered>, routes: Routes, default: Option<ServiceRef>, k: RouteKey)
    requires Closed(backends, routes, default) && k in routes && Accepted(pats, routes[k]).Some?
    ensures ResolveDraft(backends, Accepted(pats, routes[k]).value).Ok?
  {
    var p := routes[k];
    DraftMeans(pats, p);
    assert ClaimsOf(p)[0] in ClaimsOf(p) && Referenced(routes, default, p.backend);
    if p.canary.Some? {
      assert ClaimsOf(p)[1] in ClaimsOf(p) && Referenced(routes, default, p.canary.value.backend);
    }
    if p.mirror.Some? {
      assert ClaimsOf(p)[|ClaimsOf(p)| - 1] in ClaimsOf(p) && Referenced(routes, default, p.mirror.value.backend);
    }
  }

  lemma DraftsResolve(pats: Patterns, backends: seq<Registered>, routes: Routes, default: Option<ServiceRef>)
    requires Closed(backends, routes, default)
    ensures forall d :: d in Drafts(pats, routes, RouteOrderOf(routes)) ==> ResolveDraft(backends, d).Ok?
  {
    var keys := RouteOrderOf(routes);
    forall d | d in Drafts(pats, routes, keys) ensures ResolveDraft(backends, d).Ok? {
      DraftFrom(pats, routes, keys, d);
      var k :| k in keys && Accepted(pats, routes[k]) == Some(d);
      RouteResolves(pats, backends, routes, default, k);
    }
  }

  /**
   * Building never fails: no two planned routes share a place, and every name
   * they and the default use is registered.
   */
  lemma BuildSucceeds(pats: Patterns, generation: u64, backends: seq<Registered>, routes: Routes,
                      default: Option<ServiceRef>, certs: CertPlan)
    requires NormalRoutes(routes) && Closed(backends, routes, default)
    ensures TableOf(pats, generation, backends, routes, default, certs).Ok?
  {
    var keys := RouteOrderOf(routes);
    var drafts := Drafts(pats, routes, keys);
    PlacesAreDistinct(pats, routes, keys);
    DraftsResolve(pats, backends, routes, default);
    RulesAreTheDrafts(backends, drafts);
    if default.Some? {
      assert Referenced(routes, default, default.value);
    }
  }

  // -------------------------------------------------------------------------
  // What the table serves
  // -------------------------------------------------------------------------

  /** The rule a planned route becomes. */
  ghost predicate ServedBy(pats: Patterns, backends: seq<Registered>, p: RoutePlan, slot: RouteHost, rule: PathRule) {
    && Accepted(pats, p).Some?
    && Accepted(pats, p).value.slot == slot
    && ResolveDraft(backends, Accepted(pats, p).value) == Ok(rule)
  }

  /** Some planned route became this rule. */
  ghost predicate Served(pats: Patterns, backends: seq<Registered>, routes: Routes, slot: RouteHost, rule: PathRule) {
    exists k :: k in routes && ServedBy(pats, backends, routes[k], slot, rule)
  }

  lemma RuleFromRoute(pats: Patterns, backends: seq<Registered>, routes: Routes, slot: RouteHost, rule: PathRule)
    ensures RuleOf(backends, Drafts(pats, routes, RouteOrderOf(routes)), slot, rule) <==> Served(pats, backends, routes, slot, rule)
  {
    var keys := RouteOrderOf(routes);
    if RuleOf(backends, Drafts(pats, routes, keys), slot, rule) {
      var d :| d in Drafts(pats, routes, keys) && d.slot == slot && ResolveDraft(backends, d) == Ok(rule);
      DraftFrom(pats, routes, keys, d);
      var k :| k in keys && Accepted(pats, routes[k]) == Some(d);
      assert ServedBy(pats, backends, routes[k], slot, rule);
    }
    if k :| k in routes && ServedBy(pats, backends, routes[k], slot, rule) {
      DraftFrom(pats, routes, keys, Accepted(pats, routes[k]).value);
      assert k in keys;
    }
  }

  lemma BuiltFromRules(pats: Patterns, generation: u64, backends: seq<Registered>, routes: Routes,
                       default: Option<ServiceRef>, certs: CertPlan)
    requires TableOf(pats, generation, backends, routes, default, certs).Ok?
    ensures Rules(backends, Drafts(pats, routes, RouteOrderOf(routes))).Ok?
    ensures TableOf(pats, generation, backends, routes, default, certs).value.hosts
         == InPrecedence(Rules(backends, Drafts(pats, routes, RouteOrderOf(routes))).value)
  {
  }

  /** The table's rules are exactly those of the accepted routes: none lost, none added. */
  lemma TableServesThePlan(pats: Patterns, generation: u64, backends: seq<Registered>, routes: Routes,
                           default: Option<ServiceRef>, certs: CertPlan, slot: RouteHost, rule: PathRule)
    requires NormalRoutes(routes) && Closed(backends, routes, default)
    ensures TableOf(pats, generation, backends, routes, default, certs).Ok?
    ensures rule in RulesAt(TableOf(pats, generation, backends, routes, default, certs).value.hosts, slot)
            <==> Served(pats, backends, routes, slot, rule)
  {
    BuildSucceeds(pats, generation, backends, routes, default, certs);
    BuiltFromRules(pats, generation, backends, routes, default, certs);
    PlacesAreDistinct(pats, routes, RouteOrderOf(routes));
    DraftsResolve(pats, backends, routes, default);
    RulesAreTheDrafts(backends, Drafts(pats, routes, RouteOrderOf(routes)));
    SortedAt(Rules(backends, Drafts(pats, routes, RouteOrderOf(routes))).value, slot);
    RuleFromRoute(pats, backends, routes, slot, rule);
  }

  lemma SomeRuleAt(backends: seq<Registered>, drafts: seq<RouteDraft>, slot: RouteHost) returns (rule: PathRule)
    requires DistinctPlaces(drafts) && forall d :: d in drafts ==> ResolveDraft(backends, d).Ok?
    requires Rules(backends, drafts).Ok? && slot in Rules(backends, drafts).value
    ensures rule in RulesAt(Rules(backends, drafts).value, slot)
  {
    RulesAreTheDrafts(backends, drafts);
    rule := RulesAt(Rules(backends, drafts).value, slot)[0];
  }

  /** No host in the table is without a rule. */
  lemma SomeRule(pats: Patterns, generation: u64, backends: seq<Registered>, routes: Routes,
                 default: Option<ServiceRef>, certs: CertPlan, slot: RouteHost) returns (rule: PathRule)
    requires NormalRoutes(routes) && Closed(backends, routes, default)
    requires TableOf(pats, generation, backends, routes, default, certs).Ok?
    requires slot in TableOf(pats, generation, backends, routes, default, certs).value.hosts
    ensures rule in RulesAt(TableOf(pats, generation, backends, routes, default, certs).value.hosts, slot)
  {
    BuiltFromRules(pats, generation, backends, routes, default, certs);
    PlacesAreDistinct(pats, routes, RouteOrderOf(routes));
    DraftsResolve(pats, backends, routes, default);
    rule := SomeRuleAt(backends, Drafts(pats, routes, RouteOrderOf(routes)), slot);
    SortedAt(Rules(backends, Drafts(pats, routes, RouteOrderOf(routes))).value, slot);
  }

  /** What a served route sends where: the backend it named, under its own name. */
  lemma ServedByItsBackend(pats: Patterns, backends: seq<Registered>, p: RoutePlan, slot: RouteHost, rule: PathRule)
    requires ServedBy(pats, backends, p, slot, rule)
    ensures SlotOf(p.key.host) == Ok(slot) && rule.path == p.key.path && rule.pathType == p.key.pathType
    ensures rule.backend < |backends| && backends[rule.backend].name == BackendName(p.backend)
    ensures rule.canary.Some? ==> p.canary.Some? && rule.canary.value.backend < |backends|
                                  && backends[rule.canary.value.backend].name == BackendName(p.canary.value.backend)
    ensures rule.mirror.Some? ==> p.mirror.Some? && rule.mirror.value.backend < |backends|
                                  && backends[rule.mirror.value.backend].name == BackendName(p.mirror.value.backend)
  {
    DraftMeans(pats, p);
  }
}
