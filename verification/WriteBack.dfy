/**
 * The write-back cannot feed a rebuild: the annotation the status writer puts
 * on an Ingress it watches changes nothing that is compiled from it.
 */
module WriteBack {
  import opened Wrappers
  import opened Ordering
  import opened Config
  import opened Objects
  import opened Planning
  import opened Endpoints
  import opened Backends
  import opened Certificates
  import opened Promotions
  import opened Translate
  import opened Machine

  function Bare(ing: Ingress): Ingress {
    ing.(observedGeneration := None)
  }

  function AllBare(ings: seq<Ingress>): seq<Ingress> {
    MapSeq(Bare, ings)
  }

  lemma BareInit(ings: seq<Ingress>)
    requires ings != []
    ensures AllBare(ings)[..|ings| - 1] == AllBare(ings[..|ings| - 1])
    ensures AllBare(ings)[|ings| - 1] == Bare(ings[|ings| - 1])
    ensures AllBare(ings) == AllBare(ings[..|ings| - 1]) + [Bare(ings[|ings| - 1])]
  {
  }

  // -------------------------------------------------------------------------
  // Claims
  // -------------------------------------------------------------------------

  lemma {:induction false} PathsBare(ing: Ingress, host: Option<string>, paths: seq<PathEntry>)
    ensures PathClaims(Bare(ing), host, paths) == PathClaims(ing, host, paths)
    ensures CanaryPathClaims(Bare(ing), host, paths) == CanaryPathClaims(ing, host, paths)
  {
    if paths != [] {
      PathsBare(ing, host, paths[..|paths| - 1]);
    }
  }

  lemma {:induction false} RulesBare(ing: Ingress, rules: seq<Rule>)
    ensures RuleClaims(Bare(ing), rules) == RuleClaims(ing, rules)
    ensures CanaryRuleClaims(Bare(ing), rules) == CanaryRuleClaims(ing, rules)
  {
    if rules != [] {
      var last := rules[|rules| - 1];
      RulesBare(ing, rules[..|rules| - 1]);
      PathsBare(ing, NormalizeHost(last.host), last.paths);
    }
  }

  lemma {:induction false} FallbacksBare(ing: Ingress, backend: ServiceRef, hosts: seq<Option<string>>)
    ensures HostFallbacks(Bare(ing), backend, hosts) == HostFallbacks(ing, backend, hosts)
  {
    if hosts != [] {
      FallbacksBare(ing, backend, hosts[..|hosts| - 1]);
    }
  }

  lemma ClaimsBare(ing: Ingress)
    ensures Explicit(Bare(ing)) == Explicit(ing) && Fallbacks(Bare(ing)) == Fallbacks(ing)
    ensures CanaryClaims(Bare(ing)) == CanaryClaims(ing) && DefaultBid(Bare(ing)) == DefaultBid(ing)
  {
    if ing.spec.Some? {
      RulesBare(ing, ing.spec.value.rules);
      if DefaultOf(ing).Some? {
        FallbacksBare(ing, DefaultOf(ing).value, HostsOf(ing.spec.value.rules));
      }
    }
  }

  lemma {:induction false} PlanBare(ings: seq<Ingress>)
    ensures AllExplicit(AllBare(ings)) == AllExplicit(ings) && AllFallbacks(AllBare(ings)) == AllFallbacks(ings)
    ensures AllCanaries(AllBare(ings)) == AllCanaries(ings) && GlobalDefault(AllBare(ings)) == GlobalDefault(ings)
  {
    if ings == [] {
      assert AllBare(ings) == [];
    } else {
      PlanBare(ings[..|ings| - 1]);
      ClaimsBare(ings[|ings| - 1]);
      BareInit(ings);
    }
  }

  lemma {:induction false} CertsBare(index: Secrets, ings: seq<Ingress>)
    ensures AllCertClaims(index, AllBare(ings)) == AllCertClaims(index, ings)
  {
    if ings == [] {
      assert AllBare(ings) == [];
    } else {
      CertsBare(index, ings[..|ings| - 1]);
      BareInit(ings);
    }
  }

  lemma {:induction false} TargetsBare(routes: Routes, ings: seq<Ingress>)
    ensures Targets(routes, AllBare(ings)) == Targets(routes, ings)
  {
    if ings == [] {
      assert AllBare(ings) == [];
    } else {
      TargetsBare(routes, ings[..|ings| - 1]);
      BareInit(ings);
    }
  }

  // -------------------------------------------------------------------------
  // The compiler
  // -------------------------------------------------------------------------

  /** The class filter reads the class, not what we write back. */
  ghost predicate FilterIgnoresWriteBack(opts: Options) {
    forall i :: opts.ours(Bare(i)) == opts.ours(i)
  }

  lemma ManagedBare(opts: Options, ings: seq<Ingress>)
    requires FilterIgnoresWriteBack(opts)
    ensures Managed(opts, AllBare(ings)) == AllBare(Managed(opts, ings))
  {
    KeepMap(opts.ours, Bare, ings);
    SortMap(AgeLe, Bare, Keep(opts.ours, ings));
  }

  lemma SplitBare(managed: seq<Ingress>)
    ensures Production(AllBare(managed)) == AllBare(Production(managed))
    ensures Canaries(AllBare(managed)) == AllBare(Canaries(managed))
    ensures KeysOf(AllBare(managed)) == KeysOf(managed)
  {
    KeepMap((i: Ingress) => !i.canary.enabled, Bare, managed);
    KeepMap((i: Ingress) => i.canary.enabled, Bare, managed);
  }

  lemma TranslationBare(fmt: Formats, opts: Options, s: Snapshot)
    requires FilterIgnoresWriteBack(opts)
    ensures PlanOf(fmt, opts, s.(ingresses := AllBare(s.ingresses))) == PlanOf(fmt, opts, s)
  {
    ManagedBare(opts, s.ingresses);
    var managed := Managed(opts, s.ingresses);
    SplitBare(managed);
    PlanBare(Production(managed));
    PlanBare(Canaries(managed));
    CertsBare(IndexSecrets(s.secrets), managed);
    TargetsBare(PlannedWithCanaries(Production(managed), Canaries(managed)), Canaries(managed));
  }

  /** Two snapshots that differ only in what was written back compile to the same digest. */
  lemma WriteBackIsInvisible(fmt: Formats, opts: Options, a: Snapshot, b: Snapshot, previous: Option<u64>)
    requires FilterIgnoresWriteBack(opts)
    requires AllBare(a.ingresses) == AllBare(b.ingresses)
    requires a.services == b.services && a.slices == b.slices && a.secrets == b.secrets
    ensures TranslationOf(fmt, opts, a, previous) == TranslationOf(fmt, opts, b, previous)
  {
    TranslationBare(fmt, opts, a);
    TranslationBare(fmt, opts, b);
  }
}
