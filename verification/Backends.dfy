/** Which backends a plan refers to, how each is dialled, and their registration. */
module Backends {
  import opened Wrappers
  import opened Machine
  import opened Ordering
  import opened Config
  import opened Objects
  import opened Planning
  import opened Endpoints
  import opened Digests

  datatype BackendClaim = BackendClaim(target: ServiceRef, protocol: BackendProtocol)

  /** A route speaks for its backend first, then its canary's, then its mirror's. */
  function ClaimsOf(plan: RoutePlan): seq<BackendClaim> {
    [BackendClaim(plan.backend, plan.protocol)]
    + (match plan.canary case None => [] case Some(c) => [BackendClaim(c.backend, c.protocol)])
    + (match plan.mirror case None => [] case Some(m) => [BackendClaim(m.backend, m.protocol)])
  }

  ghost predicate Within(keys: seq<RouteKey>, routes: Routes) {
    forall k :: k in keys ==> k in routes
  }

  function RouteClaims(routes: Routes, keys: seq<RouteKey>): seq<BackendClaim>
    requires Within(keys, routes)
  {
    if keys == [] then []
    else RouteClaims(routes, keys[..|keys| - 1]) + ClaimsOf(routes[keys[|keys| - 1]])
  }

  type Protocols = map<ServiceRef, BackendProtocol>

  function AddBackend(m: Protocols, c: BackendClaim): Protocols {
    if c.target in m then m else m[c.target := c.protocol]
  }

  function AddBackends(m: Protocols, claims: seq<BackendClaim>): Protocols {
    if claims == [] then m
    else AddBackend(AddBackends(m, claims[..|claims| - 1]), claims[|claims| - 1])
  }

  function WithDefault(m: Protocols, default: Option<ServiceRef>): Protocols {
    match default
    case None => m
    case Some(target) => if target in m then m else m[target := Http1]
  }

  /** The planned routes' keys in route order. */
  ghost function RouteOrderOf(routes: Routes): (keys: seq<RouteKey>)
    ensures Within(keys, routes) && |keys| == |routes|
  {
    assert |routes.Keys| == |routes|;
    SortedSet(RouteLe, routes.Keys)
  }

  ghost function Collected(routes: Routes, default: Option<ServiceRef>): Protocols {
    WithDefault(AddBackends(map[], RouteClaims(routes, RouteOrderOf(routes))), default)
  }

  lemma {:induction false} AddBackendsConcat(m: Protocols, a: seq<BackendClaim>, b: seq<BackendClaim>)
    ensures AddBackends(m, a + b) == AddBackends(AddBackends(m, a), b)
  {
    if b == [] {
      assert a + b == a;
    } else {
      AddBackendsConcat(m, a, b[..|b| - 1]);
      assert (a + b)[..|a + b| - 1] == a + b[..|b| - 1];
    }
  }

  /** Walks the plan's hash map and sorts what it found. */
  method SortedRoutes(routes: Routes) returns (keys: seq<RouteKey>)
    ensures keys == RouteOrderOf(routes)
  {
    var order := Walk(routes.Keys);
    keys := SortBy(RouteLe, order);
    RouteOrder();
    SortedWalk(RouteLe, order, routes.Keys);
  }

  lemma OneMoreRoute(m: Protocols, routes: Routes, keys: seq<RouteKey>, i: nat)
    requires i < |keys| && Within(keys, routes)
    ensures Within(keys[..i], routes) && Within(keys[..i + 1], routes)
    ensures AddBackends(m, RouteClaims(routes, keys[..i + 1]))
         == AddBackends(AddBackends(m, RouteClaims(routes, keys[..i])), ClaimsOf(routes[keys[i]]))
  {
    assert keys[..i + 1][..i] == keys[..i];
    AddBackendsConcat(m, RouteClaims(routes, keys[..i]), ClaimsOf(routes[keys[i]]));
  }

  /** Every distinct backend the table will reference, and how to dial it. */
  method CollectBackends(routes: Routes, default: Option<ServiceRef>) returns (m: Protocols)
    ensures m == Collected(routes, default)
  {
    var keys := SortedRoutes(routes);
    m := ClaimRoutes(routes, keys);
    match default {
      case None =>
      case Some(target) =>
        if target !in m {
          m := m[target := Http1];
        }
    }
  }

  /** Lets the routes claim their backends in turn. */
  method ClaimRoutes(routes: Routes, keys: seq<RouteKey>) returns (m: Protocols)
    requires Within(keys, routes)
    ensures m == AddBackends(map[], RouteClaims(routes, keys))
  {
    m := map[];
    for i := 0 to |keys|
      invariant Within(keys[..i], routes)
      invariant m == AddBackends(map[], RouteClaims(routes, keys[..i]))
    {
      OneMoreRoute(map[], routes, keys, i);
      m := ClaimBackends(m, routes[keys[i]]);
    }
    assert keys[..|keys|] == keys;
  }

  method ClaimBackends(before: Protocols, plan: RoutePlan) returns (m: Protocols)
    ensures m == AddBackends(before, ClaimsOf(plan))
  {
    var claims := ClaimsOf(plan);
    m := before;
    for i := 0 to |claims|
      invariant m == AddBackends(before, claims[..i])
    {
      assert claims[..i + 1][..i] == claims[..i];
      if claims[i].target !in m {
        m := m[claims[i].target := claims[i].protocol];
      }
    }
    assert claims[..|claims|] == claims;
  }

  // -------------------------------------------------------------------------
  // Closure
  // -------------------------------------------------------------------------

  /** Some planned route claims the reference. */
  ghost predicate Claimed(routes: Routes, t: ServiceRef) {
    exists k, c :: k in routes && c in ClaimsOf(routes[k]) && c.target == t
  }

  /** The reference is named by a route, a canary, a mirror or the default. */
  ghost predicate Referenced(routes: Routes, default: Option<ServiceRef>, t: ServiceRef) {
    default == Some(t) || Claimed(routes, t)
  }

  lemma {:induction false} ClaimedTargets(m: Protocols, claims: seq<BackendClaim>, t: ServiceRef)
    ensures t in AddBackends(m, claims) <==> t in m || exists c :: c in claims && c.target == t
    ensures t in m ==> AddBackends(m, claims)[t] == m[t]
  {
    if claims != [] {
      var init, last := claims[..|claims| - 1], claims[|claims| - 1];
      ClaimedTargets(m, init, t);
      assert forall c :: c in claims <==> c in init || c == last;
    }
  }

  lemma {:induction false} RouteClaimMembers(routes: Routes, keys: seq<RouteKey>, c: BackendClaim)
    requires Within(keys, routes)
    ensures c in RouteClaims(routes, keys) <==> exists k :: k in keys && c in ClaimsOf(routes[k])
  {
    if keys != [] {
      var init, last := keys[..|keys| - 1], keys[|keys| - 1];
      RouteClaimMembers(routes, init, c);
      assert forall k :: k in keys <==> k in init || k == last;
    }
  }

  lemma ClaimedInOrder(routes: Routes, t: ServiceRef)
    ensures (exists c :: c in RouteClaims(routes, RouteOrderOf(routes)) && c.target == t) <==> Claimed(routes, t)
  {
    var keys := RouteOrderOf(routes);
    if c :| c in RouteClaims(routes, keys) && c.target == t {
      RouteClaimMembers(routes, keys, c);
    }
    if k, c :| k in routes && c in ClaimsOf(routes[k]) && c.target == t {
      assert k in keys;
      RouteClaimMembers(routes, keys, c);
    }
  }

  /** Registered backends are exactly the referenced ones: none missing, none extra. */
  lemma BackendsAreClosed(routes: Routes, default: Option<ServiceRef>, t: ServiceRef)
    ensures t in Collected(routes, default) <==> Referenced(routes, default, t)
  {
    ClaimedTargets(map[], RouteClaims(routes, RouteOrderOf(routes)), t);
    ClaimedInOrder(routes, t);
  }

  ghost predicate IsFirstBackend(claims: seq<BackendClaim>, t: ServiceRef, i: nat) {
    i < |claims| && claims[i].target == t && forall j :: 0 <= j < i ==> claims[j].target != t
  }

  lemma {:induction false} FirstProtocolWins(m: Protocols, claims: seq<BackendClaim>, t: ServiceRef, i: nat)
    requires t !in m && IsFirstBackend(claims, t, i)
    ensures t in AddBackends(m, claims) && AddBackends(m, claims)[t] == claims[i].protocol
  {
    var init, last := claims[..|claims| - 1], claims[|claims| - 1];
    if i < |init| {
      FirstProtocolWins(m, init, t, i);
    } else {
      ClaimedTargets(m, init, t);
    }
  }

  /** A shared Service port is dialled as the first claim in route order asked. */
  lemma ProtocolIsTheFirstClaims(routes: Routes, default: Option<ServiceRef>, t: ServiceRef, i: nat)
    requires IsFirstBackend(RouteClaims(routes, RouteOrderOf(routes)), t, i)
    ensures t in Collected(routes, default)
    ensures Collected(routes, default)[t] == RouteClaims(routes, RouteOrderOf(routes))[i].protocol
  {
    FirstProtocolWins(map[], RouteClaims(routes, RouteOrderOf(routes)), t, i);
  }

  /** A default backend that no route names is dialled as HTTP/1.1. */
  lemma DefaultAloneIsHttp1(routes: Routes, t: ServiceRef)
    requires !Claimed(routes, t)
    ensures t in Collected(routes, Some(t)) && Collected(routes, Some(t))[t] == Http1
  {
    ClaimedInOrder(routes, t);
    ClaimedTargets(map[], RouteClaims(routes, RouteOrderOf(routes)), t);
  }

  // -------------------------------------------------------------------------
  // Registration
  // -------------------------------------------------------------------------

  datatype Registered = Registered(name: string, protocol: BackendProtocol, endpoints: seq<Address>)

  datatype BuildError =
    | DuplicateBackend(name: string)
    | DuplicatePath(host: string, path: string, pathType: PathType)
    | UnknownBackend(name: string, referrer: string)

  datatype LbPolicy = RoundRobin | Random | LeastConn

  function LbTag(p: LbPolicy): byte {
    match p case RoundRobin => 0 case Random => 1 case LeastConn => 2
  }

  function ProtocolTag(p: BackendProtocol): byte {
    match p case Http1 => 0 case H2c => 1
  }

  /** How an address prints. */
  type AddressPrinter = Address -> string

  /** The digest calls one backend makes; every endpoint has weight 1. */
  function BackendFields(show: AddressPrinter, lb: LbPolicy, b: Registered): seq<Field> {
    [Text(Utf8(b.name)), Tag(LbTag(lb)), Tag(ProtocolTag(b.protocol)), Word(|b.endpoints| % TWO_TO_64)]
    + EndpointFields(show, b.endpoints)
  }

  function EndpointFields(show: AddressPrinter, endpoints: seq<Address>): (r: seq<Field>)
    ensures |r| == 2 * |endpoints|
  {
    if endpoints == [] then []
    else EndpointFields(show, endpoints[..|endpoints| - 1]) + [Text(Utf8(show(endpoints[|endpoints| - 1]))), Word(1)]
  }

  function BackendsFields(show: AddressPrinter, lb: LbPolicy, bs: seq<Registered>): seq<Field> {
    if bs == [] then [] else BackendsFields(show, lb, bs[..|bs| - 1]) + BackendFields(show, lb, bs[|bs| - 1])
  }

  /** An unresolvable backend is registered with no endpoints, never skipped. */
  function Entry(parseIp: IpParser, services: seq<Service>, slices: seq<Slice>, t: ServiceRef, p: BackendProtocol): Registered {
    match Resolve(parseIp, IndexServices(services), slices, t)
    case Ok(r) => Registered(BackendName(t), p, r.endpoints)
    case Err(_) => Registered(BackendName(t), p, [])
  }

  function Entries(parseIp: IpParser, services: seq<Service>, slices: seq<Slice>, m: Protocols, refs: seq<ServiceRef>): (r: seq<Registered>)
    requires forall t :: t in refs ==> t in m
    ensures |r| == |refs|
    ensures forall i :: 0 <= i < |refs| ==> r[i] == Entry(parseIp, services, slices, refs[i], m[refs[i]])
  {
    seq(|refs|, i requires 0 <= i < |refs| => Entry(parseIp, services, slices, refs[i], m[refs[i]]))
  }

  ghost predicate DistinctNames(bs: seq<Registered>) {
    forall i, j :: 0 <= i < j < |bs| ==> bs[i].name != bs[j].name
  }

  /** The whole backend list, in reference order. */
  ghost function AllEntries(parseIp: IpParser, services: seq<Service>, slices: seq<Slice>, m: Protocols): seq<Registered> {
    Entries(parseIp, services, slices, m, SortedSet(RefLe, m.Keys))
  }

  method SortedRefs(m: Protocols) returns (refs: seq<ServiceRef>)
    ensures refs == SortedSet(RefLe, m.Keys)
  {
    var order := Walk(m.Keys);
    refs := SortBy(RefLe, order);
    RefOrder();
    SortedWalk(RefLe, order, m.Keys);
  }

  /** Folds one backend into the digest. */
  method MixBackend(show: AddressPrinter, lb: LbPolicy, d: Digest, entry: Registered,
                    ghost seed: u64, ghost done: seq<Registered>)
    requires d.state == Fnv(seed, Stream(BackendsFields(show, lb, done)))
    modifies d`state
    ensures d.state == Fnv(seed, Stream(BackendsFields(show, lb, done + [entry])))
  {
    assert (done + [entry])[..|done|] == done;
    StreamConcat(BackendsFields(show, lb, done), BackendFields(show, lb, entry));
    FnvConcat(seed, Stream(BackendsFields(show, lb, done)), Stream(BackendFields(show, lb, entry)));
    d.MixAll(BackendFields(show, lb, entry));
  }

  lemma OneMoreEntry(parseIp: IpParser, services: seq<Service>, slices: seq<Slice>, m: Protocols, refs: seq<ServiceRef>, i: nat)
    requires i < |refs| && forall t :: t in refs ==> t in m
    ensures (forall t :: t in refs[..i] ==> t in m) && (forall t :: t in refs[..i + 1] ==> t in m)
    ensures Entries(parseIp, services, slices, m, refs[..i + 1])
         == Entries(parseIp, services, slices, m, refs[..i]) + [Entry(parseIp, services, slices, refs[i], m[refs[i]])]
  {
    assert refs[..i + 1][..i] == refs[..i];
  }

  /** A clash among the first entries is a clash of the whole list. */
  lemma ClashStays(parseIp: IpParser, services: seq<Service>, slices: seq<Slice>, m: Protocols,
                   refs: seq<ServiceRef>, i: nat, done: seq<Registered>)
    requires i < |refs| && forall t :: t in refs ==> t in m
    requires (forall t :: t in refs[..i] ==> t in m) && done == Entries(parseIp, services, slices, m, refs[..i])
    requires exists b :: b in done && b.name == BackendName(refs[i])
    ensures !DistinctNames(Entries(parseIp, services, slices, m, refs))
  {
    var j :| 0 <= j < |done| && done[j].name == BackendName(refs[i]);
    var all := Entries(parseIp, services, slices, m, refs);
    assert refs[..i][j] == refs[j];
    assert all[j].name == all[i].name;
  }

  lemma AppendDistinct(done: seq<Registered>, entry: Registered)
    requires DistinctNames(done)
    requires forall b :: b in done ==> b.name != entry.name
    ensures DistinctNames(done + [entry])
  {
  }

  /** Resolves one backend and folds it into the digest. */
  method ResolveEntry(parseIp: IpParser, show: AddressPrinter, lb: LbPolicy, index: EndpointIndex,
                      t: ServiceRef, p: BackendProtocol, d: Digest,
                      ghost services: seq<Service>, ghost slices: seq<Slice>, ghost seed: u64, ghost done: seq<Registered>)
    returns (entry: Registered)
    requires index.Indexes(services, slices)
    requires d.state == Fnv(seed, Stream(BackendsFields(show, lb, done)))
    modifies d`state
    ensures entry == Entry(parseIp, services, slices, t, p)
    ensures d.state == Fnv(seed, Stream(BackendsFields(show, lb, done + [entry])))
  {
    var resolution := index.ResolveTarget(parseIp, t, services, slices);
    var endpoints := match resolution case Ok(x) => x.endpoints case Err(_) => [];
    entry := Registered(BackendName(t), p, endpoints);
    MixBackend(show, lb, d, entry, seed, done);
  }

  /** The first `i` references, resolved, none sharing a name. */
  ghost predicate Registering(parseIp: IpParser, services: seq<Service>, slices: seq<Slice>, m: Protocols,
                              refs: seq<ServiceRef>, i: nat, done: seq<Registered>) {
    && i <= |refs| && (forall t :: t in refs ==> t in m) && (forall t :: t in refs[..i] ==> t in m)
    && done == Entries(parseIp, services, slices, m, refs[..i])
    && DistinctNames(done)
  }

  lemma OneMoreRegistered(parseIp: IpParser, services: seq<Service>, slices: seq<Slice>, m: Protocols,
                          refs: seq<ServiceRef>, i: nat, done: seq<Registered>, entry: Registered)
    requires Registering(parseIp, services, slices, m, refs, i, done) && i < |refs|
    requires entry == Entry(parseIp, services, slices, refs[i], m[refs[i]])
    ensures (exists b :: b in done && b.name == entry.name) ==>
              !DistinctNames(Entries(parseIp, services, slices, m, refs))
    ensures (forall b :: b in done ==> b.name != entry.name) ==>
              Registering(parseIp, services, slices, m, refs, i + 1, done + [entry])
  {
    OneMoreEntry(parseIp, services, slices, m, refs, i);
    if exists b :: b in done && b.name == entry.name {
      ClashStays(parseIp, services, slices, m, refs, i, done);
    } else {
      AppendDistinct(done, entry);
    }
  }

  predicate NameTaken(done: seq<Registered>, name: string) {
    exists b :: b in done && b.name == name
  }

  lemma AllRegistered(parseIp: IpParser, services: seq<Service>, slices: seq<Slice>, m: Protocols,
                      refs: seq<ServiceRef>, done: seq<Registered>)
    requires Registering(parseIp, services, slices, m, refs, |refs|, done)
    ensures done == Entries(parseIp, services, slices, m, refs) && DistinctNames(done)
  {
    assert refs[..|refs|] == refs;
  }

  /** Registers the references in turn; the router refuses a repeated name. */
  method RegisterRefs(parseIp: IpParser, show: AddressPrinter, lb: LbPolicy, services: seq<Service>, slices: seq<Slice>,
                      m: Protocols, refs: seq<ServiceRef>, index: EndpointIndex, d: Digest)
    returns (clash: Option<string>, done: seq<Registered>)
    requires index.Indexes(services, slices) && forall t :: t in refs ==> t in m
    modifies d`state
    ensures clash.Some? ==> !DistinctNames(Entries(parseIp, services, slices, m, refs))
    ensures clash.None? ==> done == Entries(parseIp, services, slices, m, refs) && DistinctNames(done)
    ensures clash.None? ==> d.state == Fnv(old(d.state), Stream(BackendsFields(show, lb, done)))
  {
    done := [];
    ghost var seed := d.state;
    for i := 0 to |refs|
      invariant Registering(parseIp, services, slices, m, refs, i, done)
      invariant d.state == Fnv(seed, Stream(BackendsFields(show, lb, done)))
    {
      var entry := ResolveEntry(parseIp, show, lb, index, refs[i], m[refs[i]], d, services, slices, seed, done);
      OneMoreRegistered(parseIp, services, slices, m, refs, i, done, entry);
      if NameTaken(done, entry.name) {
        return Some(entry.name), done;
      }
      done := done + [entry];
    }
    AllRegistered(parseIp, services, slices, m, refs, done);
    return None, done;
  }

  /** Resolves and registers every backend. */
  method RegisterBackends(parseIp: IpParser, show: AddressPrinter, lb: LbPolicy,
                          services: seq<Service>, slices: seq<Slice>, m: Protocols, d: Digest)
    returns (r: Result<seq<Registered>, BuildError>)
    modifies d`state
    ensures var all := AllEntries(parseIp, services, slices, m);
            && (r.Ok? <==> DistinctNames(all)) && (r.Err? ==> r.error.DuplicateBackend?)
            && (r.Ok? ==> r.value == all && d.state == Fnv(old(d.state), Stream(BackendsFields(show, lb, all))))
  {
    var index := new EndpointIndex(services, slices);
    var refs := SortedRefs(m);
    var clash, done := RegisterRefs(parseIp, show, lb, services, slices, m, refs, index, d);
    match clash
    case Some(name) => return Err(DuplicateBackend(name));
    case None => return Ok(done);
  }

  /**
   * Registration cannot fail on references as Kubernetes admits them: the
   * rendered names are distinct because the references are.
   */
  lemma RegistrationSucceeds(parseIp: IpParser, services: seq<Service>, slices: seq<Slice>, m: Protocols)
    requires forall t :: t in m ==> WellFormed(t)
    ensures DistinctNames(AllEntries(parseIp, services, slices, m))
  {
    var refs := SortedSet(RefLe, m.Keys);
    forall i, j | 0 <= i < j < |refs| ensures BackendName(refs[i]) != BackendName(refs[j]) {
      assert refs[i] in refs && refs[j] in refs && refs[i] != refs[j];
      if BackendName(refs[i]) == BackendName(refs[j]) {
        BackendNamesDistinct(refs[i], refs[j]);
      }
    }
    EntriesAreNamed(parseIp, services, slices, m, refs);
  }

  lemma EntriesAreNamed(parseIp: IpParser, services: seq<Service>, slices: seq<Slice>, m: Protocols, refs: seq<ServiceRef>)
    requires forall t :: t in refs ==> t in m
    requires forall i, j :: 0 <= i < j < |refs| ==> BackendName(refs[i]) != BackendName(refs[j])
    ensures DistinctNames(Entries(parseIp, services, slices, m, refs))
  {
    var all := Entries(parseIp, services, slices, m, refs);
    forall i | 0 <= i < |all| ensures all[i].name == BackendName(refs[i]) {
    }
  }

  /** Each referenced backend appears once, under its rendered name and protocol. */
  lemma RegisteredExactlyOnce(parseIp: IpParser, services: seq<Service>, slices: seq<Slice>, m: Protocols, t: ServiceRef)
    requires forall t :: t in m ==> WellFormed(t)
    requires t in m
    ensures exists i :: && 0 <= i < |AllEntries(parseIp, services, slices, m)|
                        && AllEntries(parseIp, services, slices, m)[i] == Entry(parseIp, services, slices, t, m[t])
                        && forall j :: 0 <= j < |AllEntries(parseIp, services, slices, m)| && j != i ==>
                             AllEntries(parseIp, services, slices, m)[j].name != BackendName(t)
  {
    var refs := SortedSet(RefLe, m.Keys);
    var all := AllEntries(parseIp, services, slices, m);
    RegistrationSucceeds(parseIp, services, slices, m);
    assert t in refs;
    var i :| 0 <= i < |refs| && refs[i] == t;
    assert all[i] == Entry(parseIp, services, slices, t, m[t]);
  }

  lemma EntriesForgetOrder(parseIp: IpParser, svcA: seq<Service>, svcB: seq<Service>,
                           slcA: seq<Slice>, slcB: seq<Slice>, m: Protocols)
    requires DistinctServices(svcA) && DistinctServices(svcB)
    requires multiset(svcA) == multiset(svcB) && multiset(slcA) == multiset(slcB)
    ensures AllEntries(parseIp, svcA, slcA, m) == AllEntries(parseIp, svcB, slcB, m)
  {
    var refs := SortedSet(RefLe, m.Keys);
    forall i | 0 <= i < |refs|
      ensures Entry(parseIp, svcA, slcA, refs[i], m[refs[i]]) == Entry(parseIp, svcB, slcB, refs[i], m[refs[i]])
    {
      assert refs[i] in refs;
      ResolveForgetsOrder(parseIp, svcA, svcB, slcA, slcB, refs[i]);
    }
  }

  // -------------------------------------------------------------------------
  // A changed protocol is a changed digest
  // -------------------------------------------------------------------------

  lemma {:induction false} BackendsFieldsConcat(show: AddressPrinter, lb: LbPolicy, a: seq<Registered>, b: seq<Registered>)
    ensures BackendsFields(show, lb, a + b) == BackendsFields(show, lb, a) + BackendsFields(show, lb, b)
  {
    if b == [] {
      assert a + b == a;
    } else {
      var init, last := b[..|b| - 1], b[|b| - 1];
      BackendsFieldsConcat(show, lb, a, init);
      assert (a + b)[..|a + b| - 1] == a + init && (a + b)[|a + b| - 1] == last;
      ConcatAssociative(BackendsFields(show, lb, a), BackendsFields(show, lb, init), BackendFields(show, lb, last));
    }
  }

  lemma StreamAroundTag(head: seq<Field>, tag: byte, tail: seq<Field>)
    ensures Stream(head + ([Tag(tag)] + tail)) == Stream(head) + [tag] + Stream(tail)
  {
    StreamConcat(head, [Tag(tag)] + tail);
    StreamConcat([Tag(tag)], tail);
    assert [Tag(tag)][1..] == [];
    assert Stream([Tag(tag)]) == [tag];
    ConcatAssociative(Stream(head), [tag], Stream(tail));
  }

  function BeforeProtocol(show: AddressPrinter, lb: LbPolicy, a: seq<Registered>, name: string): seq<Field> {
    BackendsFields(show, lb, a) + [Text(Utf8(name)), Tag(LbTag(lb))]
  }

  function AfterProtocol(show: AddressPrinter, lb: LbPolicy, endpoints: seq<Address>, c: seq<Registered>): seq<Field> {
    [Word(|endpoints| % TWO_TO_64)] + EndpointFields(show, endpoints) + BackendsFields(show, lb, c)
  }

  /** A backend's protocol is one tag of the stream. */
  lemma AroundProtocol(show: AddressPrinter, lb: LbPolicy, a: seq<Registered>, b: Registered, c: seq<Registered>)
    ensures BackendsFields(show, lb, a + ([b] + c))
         == BeforeProtocol(show, lb, a, b.name) + ([Tag(ProtocolTag(b.protocol))] + AfterProtocol(show, lb, b.endpoints, c))
  {
    BackendsFieldsConcat(show, lb, a, [b] + c);
    BackendsFieldsConcat(show, lb, [b], c);
    OneBackendFields(show, lb, b);
    Regroup(BackendsFields(show, lb, a), [Text(Utf8(b.name)), Tag(LbTag(lb))], Tag(ProtocolTag(b.protocol)),
            [Word(|b.endpoints| % TWO_TO_64)] + EndpointFields(show, b.endpoints), BackendsFields(show, lb, c));
  }

  lemma Regroup(before: seq<Field>, head: seq<Field>, f: Field, tail: seq<Field>, later: seq<Field>)
    ensures before + ((head + ([f] + tail)) + later) == (before + head) + ([f] + (tail + later))
  {
  }

  lemma OneBackendFields(show: AddressPrinter, lb: LbPolicy, b: Registered)
    ensures BackendsFields(show, lb, [b])
         == [Text(Utf8(b.name)), Tag(LbTag(lb))]
            + ([Tag(ProtocolTag(b.protocol))] + ([Word(|b.endpoints| % TWO_TO_64)] + EndpointFields(show, b.endpoints)))
  {
    assert [b][..0] == [];
  }

  /** Flipping the protocol of one registered backend always changes the digest. */
  lemma ProtocolFlipShows(show: AddressPrinter, lb: LbPolicy, bs: seq<Registered>, i: nat, p: BackendProtocol, rest: seq<Field>)
    requires i < |bs| && p != bs[i].protocol
    ensures Fnv(FNV_OFFSET, Stream(BackendsFields(show, lb, bs) + rest))
         != Fnv(FNV_OFFSET, Stream(BackendsFields(show, lb, bs[i := bs[i].(protocol := p)]) + rest))
  {
    var a, b, c := bs[..i], bs[i], bs[i + 1..];
    assert bs == a + ([b] + c);
    assert bs[i := b.(protocol := p)] == a + ([b.(protocol := p)] + c);
    FlipInTheMiddle(show, lb, a, b, p, c, rest);
  }

  lemma FlipInTheMiddle(show: AddressPrinter, lb: LbPolicy, a: seq<Registered>, b: Registered, p: BackendProtocol,
                        c: seq<Registered>, rest: seq<Field>)
    requires p != b.protocol
    ensures Fnv(FNV_OFFSET, Stream(BackendsFields(show, lb, a + ([b] + c)) + rest))
         != Fnv(FNV_OFFSET, Stream(BackendsFields(show, lb, a + ([b.(protocol := p)] + c)) + rest))
  {
    var head, tail := BeforeProtocol(show, lb, a, b.name), AfterProtocol(show, lb, b.endpoints, c);
    AroundProtocol(show, lb, a, b, c);
    AroundProtocol(show, lb, a, b.(protocol := p), c);
    FlipOneTag(head, ProtocolTag(b.protocol), ProtocolTag(p), tail + rest);
    ConcatAround(head, Tag(ProtocolTag(b.protocol)), tail, rest);
    ConcatAround(head, Tag(ProtocolTag(p)), tail, rest);
  }

  lemma ConcatAround(head: seq<Field>, f: Field, tail: seq<Field>, rest: seq<Field>)
    ensures head + ([f] + tail) + rest == head + ([f] + (tail + rest))
  {
  }

  lemma FlipOneByte(before: seq<byte>, a: byte, b: byte, after: seq<byte>)
    requires a != b
    ensures Fnv(FNV_OFFSET, before + [a] + after) != Fnv(FNV_OFFSET, before + [b] + after)
  {
    OneByteChangeShows(FNV_OFFSET, before + [a] + after, before + [b] + after, |before|);
  }

  lemma FlipOneTag(head: seq<Field>, a: byte, b: byte, tail: seq<Field>)
    requires a != b
    ensures Fnv(FNV_OFFSET, Stream(head + ([Tag(a)] + tail))) != Fnv(FNV_OFFSET, Stream(head + ([Tag(b)] + tail)))
  {
    StreamAroundTag(head, a, tail);
    StreamAroundTag(head, b, tail);
    FlipOneByte(Stream(head), a, b, Stream(tail));
  }
}
