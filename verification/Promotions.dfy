/** Which canaries are handed to the promotion loop, and the routes they cover. */
module Promotions {
  import opened Wrappers
  import opened Machine
  import opened Ordering
  import opened TextOps
  import opened Objects
  import opened Planning
  import opened Backends
  import opened Digests

  /** A covered route in the table's own spelling: `*` is the catch-all host. */
  datatype PromotionRoute = PromotionRoute(host: string, path: string, pathType: PathType)

  datatype PromotionTarget = PromotionTarget(
    ingress: ObjectKey,
    uid: Option<string>,
    routes: seq<PromotionRoute>,
    weight: u32,
    policy: PromotionPolicy)

  function InTable(k: RouteKey): PromotionRoute {
    PromotionRoute(if k.host.Some? then k.host.value else "*", k.path, k.pathType)
  }

  predicate PromotionRouteLe(a: PromotionRoute, b: PromotionRoute) {
    RouteLe(RouteKey(Some(a.host), a.path, a.pathType), RouteKey(Some(b.host), b.path, b.pathType))
  }

  lemma PromotionRouteOrder()
    ensures TotalPreorder(PromotionRouteLe)
    ensures forall a, b :: PromotionRouteLe(a, b) && PromotionRouteLe(b, a) ==> a == b
  {
    RouteOrder();
  }

  predicate Shadows(routes: Routes, owner: ObjectKey, k: RouteKey) {
    k in routes && routes[k].canary.Some? && routes[k].canary.value.owner == owner
  }

  function CoveredAmong(routes: Routes, owner: ObjectKey, keys: seq<RouteKey>): seq<PromotionRoute> {
    MapSeq(InTable, Keep(k => Shadows(routes, owner, k), keys))
  }

  ghost function Covered(routes: Routes, owner: ObjectKey): seq<PromotionRoute> {
    SortBy(PromotionRouteLe, CoveredAmong(routes, owner, RouteOrderOf(routes)))
  }

  lemma CoveredForgetsOrder(routes: Routes, owner: ObjectKey, order: seq<RouteKey>)
    requires Distinct(order) && forall k :: k in order <==> k in routes
    ensures SortBy(PromotionRouteLe, CoveredAmong(routes, owner, order)) == Covered(routes, owner)
  {
    var keys := RouteOrderOf(routes);
    var p := (k: RouteKey) => Shadows(routes, owner, k);
    DistinctSameSet(order, keys);
    KeepForgetsOrder(p, order, keys);
    MapForgetsOrder(InTable, Keep(p, order), Keep(p, keys));
    PromotionRouteOrder();
    SortForgetsOrder(PromotionRouteLe, CoveredAmong(routes, owner, order), CoveredAmong(routes, owner, keys));
  }

  /** Filters the plan's hash map and sorts what is left. */
  method CoveredRoutes(routes: Routes, owner: ObjectKey) returns (covered: seq<PromotionRoute>)
    ensures covered == Covered(routes, owner)
  {
    var order := Walk(routes.Keys);
    covered := SortBy(PromotionRouteLe, CoveredAmong(routes, owner, order));
    CoveredForgetsOrder(routes, owner, order);
  }

  lemma MappedFrom(keys: seq<RouteKey>, r: PromotionRoute)
    ensures r in MapSeq(InTable, keys) <==> exists k :: k in keys && InTable(k) == r
  {
    var rs := MapSeq(InTable, keys);
    if r in rs {
      var i :| 0 <= i < |rs| && rs[i] == r;
      assert keys[i] in keys;
    }
    if k :| k in keys && InTable(k) == r {
      var i :| 0 <= i < |keys| && keys[i] == k;
      assert rs[i] == r;
    }
  }

  /** Some route of this canary's displays as `r`. */
  ghost predicate Holds(routes: Routes, owner: ObjectKey, r: PromotionRoute) {
    exists k :: Shadows(routes, owner, k) && InTable(k) == r
  }

  lemma AmongIsAttached(routes: Routes, owner: ObjectKey, r: PromotionRoute)
    ensures r in CoveredAmong(routes, owner, RouteOrderOf(routes)) <==> Holds(routes, owner, r)
  {
    var keys := RouteOrderOf(routes);
    var kept := Keep(k => Shadows(routes, owner, k), keys);
    MappedFrom(kept, r);
    assert forall k :: k in kept <==> Shadows(routes, owner, k);
  }

  /** A canary's covered routes: ascending, and exactly those it attached to. */
  lemma CoveredIsAttached(routes: Routes, owner: ObjectKey)
    ensures SortedBy(PromotionRouteLe, Covered(routes, owner))
    ensures forall r :: r in Covered(routes, owner) <==> Holds(routes, owner, r)
  {
    var among := CoveredAmong(routes, owner, RouteOrderOf(routes));
    PromotionRouteOrder();
    SortBySorted(PromotionRouteLe, among);
    SameMembers(among, SortBy(PromotionRouteLe, among));
    forall r ensures r in among <==> Holds(routes, owner, r) {
      AmongIsAttached(routes, owner, r);
    }
  }

  // -------------------------------------------------------------------------
  // Targets
  // -------------------------------------------------------------------------

  function KeyText(k: ObjectKey): string {
    if k.namespace == "" then k.name else k.namespace + "/" + k.name
  }

  /** How a list of steps prints: `[5, 10, 25]`. */
  function StepsText(steps: seq<u32>): string {
    "[" + StepsBody(steps) + "]"
  }

  function StepsBody(steps: seq<u32>): string {
    if steps == [] then ""
    else if |steps| == 1 then Decimal(steps[0])
    else Decimal(steps[0]) + ", " + StepsBody(steps[1..])
  }

  /** How a threshold prints: six decimals. */
  type RealPrinter = real -> string

  function RouteListFields(routes: seq<PromotionRoute>): seq<Field> {
    if routes == [] then []
    else
      var last := routes[|routes| - 1];
      RouteListFields(routes[..|routes| - 1])
      + [Text(Utf8(last.host)), Text(Utf8(last.path)), Tag(PathTypeRank(last.pathType))]
  }

  function OptBytes(s: Option<string>): Option<seq<byte>> {
    match s case None => None case Some(t) => Some(Utf8(t))
  }

  function PolicyFields(show: RealPrinter, t: PromotionTarget): seq<Field> {
    [Text(Utf8(KeyText(t.ingress))), Word(t.weight), Word(t.policy.interval), Word(t.policy.minRequests),
     Text(Utf8(StepsText(t.policy.steps))), Text(Utf8(show(t.policy.max5xxPercent))),
     Text(Utf8(show(t.policy.maxLatencyFactor))), OptText(OptBytes(t.policy.status))]
  }

  /** The uid is the object's identity, not its configuration, and stays out. */
  function TargetFields(show: RealPrinter, t: PromotionTarget): seq<Field> {
    PolicyFields(show, t) + RouteListFields(t.routes)
  }

  function TargetsFields(show: RealPrinter, ts: seq<PromotionTarget>): seq<Field> {
    if ts == [] then [] else TargetsFields(show, ts[..|ts| - 1]) + TargetFields(show, ts[|ts| - 1])
  }

  /** A canary that opted in and attached to something. */
  ghost function TargetOf(routes: Routes, ing: Ingress): seq<PromotionTarget> {
    if !ing.promotion.enabled || Covered(routes, ing.key) == [] then []
    else [PromotionTarget(ing.key, ing.uid, Covered(routes, ing.key), ing.canary.weight, ing.promotion)]
  }

  ghost function Targets(routes: Routes, canaries: seq<Ingress>): seq<PromotionTarget> {
    if canaries == [] then []
    else Targets(routes, canaries[..|canaries| - 1]) + TargetOf(routes, canaries[|canaries| - 1])
  }

  predicate TargetLe(a: PromotionTarget, b: PromotionTarget) {
    KeyLe(a.ingress, b.ingress)
  }

  lemma {:induction false} TargetsFieldsConcat(show: RealPrinter, a: seq<PromotionTarget>, b: seq<PromotionTarget>)
    ensures TargetsFields(show, a + b) == TargetsFields(show, a) + TargetsFields(show, b)
  {
    if b == [] {
      assert a + b == a;
    } else {
      var init, last := b[..|b| - 1], b[|b| - 1];
      TargetsFieldsConcat(show, a, init);
      assert (a + b)[..|a + b| - 1] == a + init && (a + b)[|a + b| - 1] == last;
      ConcatAssociative(TargetsFields(show, a), TargetsFields(show, init), TargetFields(show, last));
    }
  }

  lemma OneTargetFields(show: RealPrinter, ts: seq<PromotionTarget>, t: PromotionTarget)
    ensures TargetsFields(show, ts + [t]) == TargetsFields(show, ts) + TargetFields(show, t)
  {
    assert (ts + [t])[..|ts|] == ts;
  }

  method MixTarget(show: RealPrinter, t: PromotionTarget, d: Digest, ghost seed: u64, ghost before: seq<PromotionTarget>)
    requires d.state == Fnv(seed, Stream(TargetsFields(show, before)))
    modifies d`state
    ensures d.state == Fnv(seed, Stream(TargetsFields(show, before + [t])))
  {
    OneTargetFields(show, before, t);
    OneMoreItem(seed, TargetsFields(show, before), TargetFields(show, t));
    d.MixAll(TargetFields(show, t));
  }

  /** Takes one canary Ingress into the list, or leaves the list alone. */
  method CollectOne(show: RealPrinter, routes: Routes, ing: Ingress, so: seq<PromotionTarget>, d: Digest, ghost seed: u64)
    returns (ts: seq<PromotionTarget>)
    requires d.state == Fnv(seed, Stream(TargetsFields(show, so)))
    modifies d`state
    ensures ts == so + TargetOf(routes, ing)
    ensures d.state == Fnv(seed, Stream(TargetsFields(show, ts)))
  {
    ts := so;
    if !ing.promotion.enabled {
      return;
    }
    var covered := CoveredRoutes(routes, ing.key);
    if covered == [] {
      return;
    }
    var t := PromotionTarget(ing.key, ing.uid, covered, ing.canary.weight, ing.promotion);
    MixTarget(show, t, d, seed, so);
    ts := so + [t];
  }

  method CollectPromotions(show: RealPrinter, canaries: seq<Ingress>, routes: Routes, d: Digest)
    returns (sorted: seq<PromotionTarget>)
    modifies d`state
    ensures sorted == SortBy(TargetLe, Targets(routes, canaries))
    ensures d.state == Fnv(old(d.state), Stream(TargetsFields(show, Targets(routes, canaries))))
  {
    var ts: seq<PromotionTarget> := [];
    for i := 0 to |canaries|
      invariant ts == Targets(routes, canaries[..i])
      invariant d.state == Fnv(old(d.state), Stream(TargetsFields(show, ts)))
    {
      assert canaries[..i + 1][..i] == canaries[..i];
      ts := CollectOne(show, routes, canaries[i], ts, d, old(d.state));
    }
    assert canaries[..|canaries|] == canaries;
    sorted := SortBy(TargetLe, ts);
  }

  lemma {:induction false} TargetFrom(routes: Routes, canaries: seq<Ingress>, t: PromotionTarget)
    ensures t in Targets(routes, canaries) <==> exists i :: i in canaries && t in TargetOf(routes, i)
  {
    if canaries != [] {
      var init, last := canaries[..|canaries| - 1], canaries[|canaries| - 1];
      TargetFrom(routes, init, t);
      assert forall i :: i in canaries <==> i in init || i == last;
    }
  }

  lemma CoversSomething(routes: Routes, owner: ObjectKey)
    ensures Covered(routes, owner) != [] <==> exists k :: Shadows(routes, owner, k)
  {
    CoveredIsAttached(routes, owner);
    var covered := Covered(routes, owner);
    if covered != [] {
      assert covered[0] in covered;
      assert Holds(routes, owner, covered[0]);
    }
    if k :| Shadows(routes, owner, k) {
      assert Holds(routes, owner, InTable(k));
      assert InTable(k) in covered;
    }
  }

  /** The Ingress a target came from. */
  lemma Origin(routes: Routes, canaries: seq<Ingress>, t: PromotionTarget) returns (ing: Ingress)
    requires t in Targets(routes, canaries)
    ensures ing in canaries && ing.key == t.ingress && t in TargetOf(routes, ing)
  {
    TargetFrom(routes, canaries, t);
    ing :| ing in canaries && t in TargetOf(routes, ing);
  }

  lemma Targeted(routes: Routes, canaries: seq<Ingress>, ing: Ingress)
    requires ing in canaries && TargetOf(routes, ing) != []
    ensures exists t :: t in Targets(routes, canaries) && t.ingress == ing.key
  {
    var t := TargetOf(routes, ing)[0];
    assert t in TargetOf(routes, ing);
    TargetFrom(routes, canaries, t);
  }

  lemma TargetedOnce(routes: Routes, canaries: seq<Ingress>, ing: Ingress)
    requires ing in canaries
    requires forall other :: other in canaries && other.key == ing.key ==> other == ing
    ensures (exists t :: t in Targets(routes, canaries) && t.ingress == ing.key) <==> TargetOf(routes, ing) != []
  {
    if t :| t in Targets(routes, canaries) && t.ingress == ing.key {
      var origin := Origin(routes, canaries, t);
      assert origin == ing;
    }
    if TargetOf(routes, ing) != [] {
      Targeted(routes, canaries, ing);
    }
  }

  /**
   * A canary is handed to the promotion loop exactly when it opted in and holds
   * a route; an orphan never is, whatever it asked for.
   */
  lemma PromotedExactlyWhenAttached(routes: Routes, canaries: seq<Ingress>, ing: Ingress)
    requires ing in canaries
    requires forall other :: other in canaries && other.key == ing.key ==> other == ing
    ensures (exists t :: t in SortBy(TargetLe, Targets(routes, canaries)) && t.ingress == ing.key)
            <==> ing.promotion.enabled && exists k :: Shadows(routes, ing.key, k)
  {
    SameMembers(Targets(routes, canaries), SortBy(TargetLe, Targets(routes, canaries)));
    TargetedOnce(routes, canaries, ing);
    CoversSomething(routes, ing.key);
  }
}
