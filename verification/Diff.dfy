/** What changed between two compiled tables, as an operator is told it. */
module Diff {
  import opened Wrappers
  import opened Machine
  import opened Ordering
  import opened TextOps
  import opened Objects

  /** Host, path and path type, as the table displays them. */
  type RouteId = (string, string, string)

  /** `mirror` is rendered as it will be reported. */
  datatype RouteTarget = RouteTarget(backend: string, endpoints: nat, protocol: BackendProtocol, mirror: Option<string>)

  /** What a comparison looks at in a table. */
  datatype View = View(
    routes: map<RouteId, RouteTarget>,
    hosts: set<string>,
    certs: map<string, u64>,
    defaultBackend: Option<string>)

  datatype Table = Table(generation: u64, view: View)

  const NOTHING := View(map[], {}, map[], None)

  datatype ConfigDiff = ConfigDiff(
    from: Option<u64>,
    to: u64,
    routesAdded: seq<string>,
    routesRemoved: seq<string>,
    backendsChanged: seq<string>,
    certsRotated: seq<string>,
    hostsAdded: seq<string>,
    hostsRemoved: seq<string>,
    mirrorsAdded: seq<string>,
    mirrorsRemoved: seq<string>,
    defaultBackendChanged: bool,
    defaultBackend: Option<string>,
    certsAdded: nat,
    certsRemoved: nat)

  function ViewOf(table: Option<Table>): View {
    match table case None => NOTHING case Some(t) => t.view
  }

  // -------------------------------------------------------------------------
  // The lines
  // -------------------------------------------------------------------------

  function ProtocolName(p: BackendProtocol): string {
    match p case Http1 => "http" case H2c => "h2c"
  }

  function RouteLine(routes: map<RouteId, RouteTarget>, k: RouteId): string {
    if k in routes then k.0 + " " + k.1 + " -> " + routes[k].backend else ""
  }

  function MirrorAt(routes: map<RouteId, RouteTarget>, k: RouteId): Option<string> {
    if k in routes then routes[k].mirror else None
  }

  function MirrorLine(routes: map<RouteId, RouteTarget>, k: RouteId): string {
    match MirrorAt(routes, k) case None => "" case Some(m) => k.0 + " " + k.1 + " -> " + m
  }

  /** The first difference that explains the others is the one reported. */
  function ChangeLine(before: map<RouteId, RouteTarget>, after: map<RouteId, RouteTarget>, k: RouteId): string {
    if k !in before || k !in after then ""
    else
      var was, now := before[k], after[k];
      if was.backend != now.backend then k.0 + " " + k.1 + ": " + was.backend + " -> " + now.backend
      else if was.protocol != now.protocol then
        k.0 + " " + k.1 + ": " + ProtocolName(was.protocol) + " -> " + ProtocolName(now.protocol) + " upstream"
      else k.0 + " " + k.1 + ": " + Decimal(was.endpoints) + " -> " + Decimal(now.endpoints) + " endpoints"
  }

  /** A kept route goes elsewhere, by another protocol, or to another number of endpoints. */
  predicate Moved(before: map<RouteId, RouteTarget>, after: map<RouteId, RouteTarget>, k: RouteId) {
    k in before && k in after && before[k].(mirror := after[k].mirror) != after[k]
  }

  /** The mirror `routes` has here is not the one `others` has. */
  predicate MirrorGone(routes: map<RouteId, RouteTarget>, others: map<RouteId, RouteTarget>, k: RouteId) {
    MirrorAt(routes, k).Some? && MirrorAt(others, k) != MirrorAt(routes, k)
  }

  function Itself(h: string): string { h }

  function CertAt(certs: map<string, u64>, host: string): Option<u64> {
    if host in certs then Some(certs[host]) else None
  }

  /** One line per key, sorted; the walk that produced them does not show. */
  ghost function Lines<K(!new)>(line: K -> string, keys: set<K>): (r: seq<string>)
    ensures |r| == |keys|
  {
    SortBy(LexLe, MapSeq(line, Enumerate(keys)))
  }

  lemma LinesOfWalk<K(!new)>(line: K -> string, walk: seq<K>, keys: set<K>)
    requires Distinct(walk) && forall k :: k in walk <==> k in keys
    ensures SortBy(LexLe, MapSeq(line, walk)) == Lines(line, keys)
  {
    DistinctSameSet(walk, Enumerate(keys));
    MapForgetsOrder(line, walk, Enumerate(keys));
    LexOrder();
    SortForgetsOrder(LexLe, MapSeq(line, walk), MapSeq(line, Enumerate(keys)));
  }

  // -------------------------------------------------------------------------
  // The difference
  // -------------------------------------------------------------------------

  type Routes = map<RouteId, RouteTarget>

  function MovedKeys(before: Routes, after: Routes): set<RouteId> {
    set k | k in before && Moved(before, after, k)
  }

  function MirrorKeys(routes: Routes, others: Routes): set<RouteId> {
    set k | k in routes && MirrorGone(routes, others, k)
  }

  function RotatedHosts(before: map<string, u64>, after: map<string, u64>): set<string> {
    set h | h in before.Keys + after.Keys && CertAt(before, h) != CertAt(after, h)
  }

  ghost function RoutesOnly(routes: Routes, others: Routes): seq<string> {
    Lines(k => RouteLine(routes, k), routes.Keys - others.Keys)
  }

  ghost function RoutesMoved(before: Routes, after: Routes): seq<string> {
    Lines(k => ChangeLine(before, after, k), MovedKeys(before, after))
  }

  ghost function MirrorsOnly(routes: Routes, others: Routes): seq<string> {
    Lines(k => MirrorLine(routes, k), MirrorKeys(routes, others))
  }

  ghost function DiffOf(previous: Option<Table>, next: Table): ConfigDiff {
    var b, a := ViewOf(previous), next.view;
    ConfigDiff(
      match previous case None => None case Some(t) => Some(t.generation),
      next.generation,
      RoutesOnly(a.routes, b.routes),
      RoutesOnly(b.routes, a.routes),
      RoutesMoved(b.routes, a.routes),
      Lines(Itself, RotatedHosts(b.certs, a.certs)),
      Lines(Itself, a.hosts - b.hosts),
      Lines(Itself, b.hosts - a.hosts),
      MirrorsOnly(a.routes, b.routes),
      MirrorsOnly(b.routes, a.routes),
      b.defaultBackend != a.defaultBackend,
      a.defaultBackend,
      |a.certs.Keys - b.certs.Keys|,
      |b.certs.Keys - a.certs.Keys|)
  }

  predicate IsEmpty(d: ConfigDiff) {
    && d.routesAdded == [] && d.routesRemoved == [] && d.backendsChanged == [] && d.certsRotated == []
    && d.hostsAdded == [] && d.hostsRemoved == [] && d.mirrorsAdded == [] && d.mirrorsRemoved == []
    && !d.defaultBackendChanged
  }

  // -------------------------------------------------------------------------
  // Computing it
  // -------------------------------------------------------------------------

  /** Lines for the walked routes that `others` lacks. */
  function OnlyHere(routes: Routes, others: Routes, walk: seq<RouteId>): seq<string> {
    MapSeq(k => RouteLine(routes, k), Keep(k => k !in others, walk))
  }

  function MovedLines(before: Routes, after: Routes, walk: seq<RouteId>): seq<string> {
    MapSeq(k => ChangeLine(before, after, k), Keep(k => Moved(before, after, k), walk))
  }

  function MirrorLines(routes: Routes, others: Routes, walk: seq<RouteId>): seq<string> {
    MapSeq(k => MirrorLine(routes, k), Keep(k => MirrorGone(routes, others, k), walk))
  }

  function MirrorsOnlyHere(routes: Routes, others: Routes, walk: seq<RouteId>): seq<string> {
    MapSeq(k => MirrorLine(routes, k), Keep(k => k !in others && MirrorGone(routes, others, k), walk))
  }

  lemma KeepStep<K(!new)>(p: K -> bool, walk: seq<K>, i: nat)
    requires i < |walk|
    ensures Keep(p, walk[..i + 1]) == Keep(p, walk[..i]) + if p(walk[i]) then [walk[i]] else []
  {
    assert walk[..i + 1][..i] == walk[..i];
  }

  lemma StepOnlyHere(routes: Routes, others: Routes, walk: seq<RouteId>, i: nat)
    requires i < |walk|
    ensures OnlyHere(routes, others, walk[..i + 1])
         == OnlyHere(routes, others, walk[..i]) + if walk[i] !in others then [RouteLine(routes, walk[i])] else []
  {
    KeepStep(k => k !in others, walk, i);
  }

  lemma StepMoved(before: Routes, after: Routes, walk: seq<RouteId>, i: nat)
    requires i < |walk|
    ensures MovedLines(before, after, walk[..i + 1])
         == MovedLines(before, after, walk[..i])
            + if Moved(before, after, walk[i]) then [ChangeLine(before, after, walk[i])] else []
  {
    KeepStep(k => Moved(before, after, k), walk, i);
  }

  lemma StepMirror(routes: Routes, others: Routes, walk: seq<RouteId>, i: nat)
    requires i < |walk|
    ensures MirrorLines(routes, others, walk[..i + 1])
         == MirrorLines(routes, others, walk[..i])
            + if MirrorGone(routes, others, walk[i]) then [MirrorLine(routes, walk[i])] else []
    ensures MirrorsOnlyHere(routes, others, walk[..i + 1])
         == MirrorsOnlyHere(routes, others, walk[..i])
            + if walk[i] !in others && MirrorGone(routes, others, walk[i]) then [MirrorLine(routes, walk[i])] else []
  {
    KeepStep(k => MirrorGone(routes, others, k), walk, i);
    KeepStep(k => k !in others && MirrorGone(routes, others, k), walk, i);
  }

  /** Walks the new routes, and where they used to go. */
  method WalkRoutes(before: Routes, after: Routes, walk: seq<RouteId>) returns (added: seq<string>, changed: seq<string>)
    requires forall k :: k in walk ==> k in after
    ensures added == OnlyHere(after, before, walk) && changed == MovedLines(before, after, walk)
  {
    added, changed := [], [];
    for i := 0 to |walk|
      invariant added == OnlyHere(after, before, walk[..i]) && changed == MovedLines(before, after, walk[..i])
    {
      StepOnlyHere(after, before, walk, i);
      StepMoved(before, after, walk, i);
      var key := walk[i];
      assert key in walk;
      var target := after[key];
      if key !in before {
        added := added + [key.0 + " " + key.1 + " -> " + target.backend];
      } else if before[key].backend != target.backend {
        changed := changed + [key.0 + " " + key.1 + ": " + before[key].backend + " -> " + target.backend];
      } else if before[key].protocol != target.protocol {
        changed := changed + [ChangeLine(before, after, key)];
      } else if before[key].endpoints != target.endpoints {
        changed := changed + [ChangeLine(before, after, key)];
      }
    }
    assert walk[..|walk|] == walk;
  }

  /** Walks the new routes, and the mirrors they used to have. */
  method WalkMirrors(before: Routes, after: Routes, walk: seq<RouteId>) returns (added: seq<string>, removed: seq<string>)
    requires forall k :: k in walk ==> k in after
    ensures added == MirrorLines(after, before, walk) && removed == MirrorLines(before, after, walk)
  {
    added, removed := [], [];
    for i := 0 to |walk|
      invariant added == MirrorLines(after, before, walk[..i]) && removed == MirrorLines(before, after, walk[..i])
    {
      StepMirror(after, before, walk, i);
      StepMirror(before, after, walk, i);
      var key := walk[i];
      assert key in walk;
      var had, now := MirrorAt(before, key), after[key].mirror;
      if had != now {
        if now.Some? {
          added := added + [MirrorLine(after, key)];
        }
        if had.Some? {
          removed := removed + [MirrorLine(before, key)];
        }
      }
    }
    assert walk[..|walk|] == walk;
  }

  /** Walks the old routes for what has gone. */
  method WalkGone(before: Routes, after: Routes, walk: seq<RouteId>) returns (removed: seq<string>, mirrors: seq<string>)
    requires forall k :: k in walk ==> k in before
    ensures removed == OnlyHere(before, after, walk) && mirrors == MirrorsOnlyHere(before, after, walk)
  {
    removed, mirrors := [], [];
    for i := 0 to |walk|
      invariant removed == OnlyHere(before, after, walk[..i]) && mirrors == MirrorsOnlyHere(before, after, walk[..i])
    {
      StepOnlyHere(before, after, walk, i);
      StepMirror(before, after, walk, i);
      var key := walk[i];
      assert key in walk;
      if key !in after {
        removed := removed + [RouteLine(before, key)];
        if before[key].mirror.Some? {
          mirrors := mirrors + [MirrorLine(before, key)];
        }
      }
    }
    assert walk[..|walk|] == walk;
  }

  lemma LinesOfKept<K(!new)>(line: K -> string, p: K -> bool, walk: seq<K>, keys: set<K>)
    requires Distinct(walk) && forall k :: k in keys <==> k in walk && p(k)
    ensures SortBy(LexLe, MapSeq(line, Keep(p, walk))) == Lines(line, keys)
  {
    KeepDistinct(p, walk);
    LinesOfWalk(line, Keep(p, walk), keys);
  }

  /** Two walks whose kept keys never meet, gathered into one list. */
  lemma LinesOfTwo<K(!new)>(line: K -> string, p: K -> bool, q: K -> bool, a: seq<K>, b: seq<K>, keys: set<K>)
    requires Distinct(a) && Distinct(b)
    requires forall k :: k in a && p(k) ==> !(k in b && q(k))
    requires forall k :: k in keys <==> (k in a && p(k)) || (k in b && q(k))
    ensures SortBy(LexLe, MapSeq(line, Keep(p, a)) + MapSeq(line, Keep(q, b))) == Lines(line, keys)
  {
    KeepDistinct(p, a);
    KeepDistinct(q, b);
    DistinctConcat(Keep(p, a), Keep(q, b));
    LinesOfWalk(line, Keep(p, a) + Keep(q, b), keys);
    assert MapSeq(line, Keep(p, a) + Keep(q, b)) == MapSeq(line, Keep(p, a)) + MapSeq(line, Keep(q, b));
  }

  /** The route half of a difference. */
  datatype RouteDiff = RouteDiff(
    added: seq<string>,
    removed: seq<string>,
    changed: seq<string>,
    mirrorsAdded: seq<string>,
    mirrorsRemoved: seq<string>)

  ghost predicate WalkOf<V>(walk: seq<RouteId>, m: map<RouteId, V>) {
    Distinct(walk) && forall k :: k in walk <==> k in m
  }

  lemma OnlyHereSorts(routes: Routes, others: Routes, walk: seq<RouteId>)
    requires WalkOf(walk, routes)
    ensures SortBy(LexLe, OnlyHere(routes, others, walk)) == RoutesOnly(routes, others)
  {
    LinesOfKept(k => RouteLine(routes, k), (k: RouteId) => k !in others, walk, routes.Keys - others.Keys);
  }

  lemma MovedSorts(before: Routes, after: Routes, walk: seq<RouteId>)
    requires WalkOf(walk, after)
    ensures SortBy(LexLe, MovedLines(before, after, walk)) == RoutesMoved(before, after)
  {
    LinesOfKept(k => ChangeLine(before, after, k), k => Moved(before, after, k), walk, MovedKeys(before, after));
  }

  lemma MirrorsSort(routes: Routes, others: Routes, walk: seq<RouteId>)
    requires WalkOf(walk, routes)
    ensures SortBy(LexLe, MirrorLines(routes, others, walk)) == MirrorsOnly(routes, others)
  {
    LinesOfKept(k => MirrorLine(routes, k), k => MirrorGone(routes, others, k), walk, MirrorKeys(routes, others));
  }

  lemma GoneMirrorsSort(before: Routes, after: Routes, walkB: seq<RouteId>, walkA: seq<RouteId>)
    requires WalkOf(walkB, before) && WalkOf(walkA, after)
    ensures SortBy(LexLe, MirrorLines(before, after, walkA) + MirrorsOnlyHere(before, after, walkB)) == MirrorsOnly(before, after)
  {
    LinesOfTwo(k => MirrorLine(before, k), k => MirrorGone(before, after, k),
               k => k !in after && MirrorGone(before, after, k), walkA, walkB, MirrorKeys(before, after));
  }

  method CompareRoutes(before: Routes, after: Routes) returns (d: RouteDiff)
    ensures d == RouteDiff(RoutesOnly(after, before), RoutesOnly(before, after), RoutesMoved(before, after),
                           MirrorsOnly(after, before), MirrorsOnly(before, after))
  {
    var walkB := Walk(before.Keys);
    var walkA := Walk(after.Keys);
    var added, changed := WalkRoutes(before, after, walkA);
    var mirrorsAdded, mirrorsMoved := WalkMirrors(before, after, walkA);
    var removed, mirrorsGone := WalkGone(before, after, walkB);
    OnlyHereSorts(after, before, walkA);
    OnlyHereSorts(before, after, walkB);
    MovedSorts(before, after, walkA);
    MirrorsSort(after, before, walkA);
    GoneMirrorsSort(before, after, walkB, walkA);
    d := RouteDiff(SortBy(LexLe, added), SortBy(LexLe, removed), SortBy(LexLe, changed),
                   SortBy(LexLe, mirrorsAdded), SortBy(LexLe, mirrorsMoved + mirrorsGone));
  }

  method SortedSetOf(hosts: set<string>) returns (r: seq<string>)
    ensures r == Lines(Itself, hosts)
  {
    var walk := Walk(hosts);
    LinesOfWalk(Itself, walk, hosts);
    assert MapSeq(Itself, walk) == walk;
    r := SortBy(LexLe, walk);
  }

  predicate Rotated(before: map<string, u64>, after: map<string, u64>, h: string) {
    CertAt(before, h) != CertAt(after, h)
  }

  function RotatedAmong(before: map<string, u64>, after: map<string, u64>, walk: seq<string>): seq<string> {
    Keep(h => Rotated(before, after, h), walk)
  }

  function Lacking(certs: map<string, u64>, walk: seq<string>): seq<string> {
    Keep(h => h !in certs, walk)
  }

  /** New and replaced certificates; only the new are counted. */
  method WalkCerts(before: map<string, u64>, after: map<string, u64>, walk: seq<string>)
    returns (rotated: seq<string>, added: nat)
    requires forall h :: h in walk ==> h in after
    ensures rotated == RotatedAmong(before, after, walk) && added == |Lacking(before, walk)|
  {
    rotated, added := [], 0;
    for i := 0 to |walk|
      invariant rotated == RotatedAmong(before, after, walk[..i]) && added == |Lacking(before, walk[..i])|
    {
      KeepStep(h => Rotated(before, after, h), walk, i);
      KeepStep(h => h !in before, walk, i);
      var host := walk[i];
      assert host in walk;
      if host !in before {
        added := added + 1;
        rotated := rotated + [host];
      } else if before[host] != after[host] {
        rotated := rotated + [host];
      }
    }
    assert walk[..|walk|] == walk;
  }

  method WalkGoneCerts(after: map<string, u64>, walk: seq<string>) returns (gone: seq<string>, removed: nat)
    ensures gone == Lacking(after, walk) && removed == |gone|
  {
    gone, removed := [], 0;
    for i := 0 to |walk|
      invariant gone == Lacking(after, walk[..i]) && removed == |gone|
    {
      KeepStep(h => h !in after, walk, i);
      if walk[i] !in after {
        removed := removed + 1;
        gone := gone + [walk[i]];
      }
    }
    assert walk[..|walk|] == walk;
  }

  /** Certificates appear, are replaced, or go; all three are one list and two counts. */
  method CompareCerts(before: map<string, u64>, after: map<string, u64>)
    returns (rotated: seq<string>, added: nat, removed: nat)
    ensures rotated == Lines(Itself, RotatedHosts(before, after))
    ensures added == |after.Keys - before.Keys| && removed == |before.Keys - after.Keys|
  {
    var walkA := Walk(after.Keys);
    var walkB := Walk(before.Keys);
    var changed, gained := WalkCerts(before, after, walkA);
    var gone, lost := WalkGoneCerts(after, walkB);
    KeptCount((h: string) => h !in before, walkA, after.Keys - before.Keys);
    KeptCount((h: string) => h !in after, walkB, before.Keys - after.Keys);
    CertWalksSort(before, after, walkB, walkA);
    rotated, added, removed := SortBy(LexLe, changed + gone), gained, lost;
  }

  lemma KeptCount(p: string -> bool, walk: seq<string>, keys: set<string>)
    requires Distinct(walk) && forall h :: h in keys <==> h in walk && p(h)
    ensures |Keep(p, walk)| == |keys|
  {
    KeepDistinct(p, walk);
    DistinctSameSet(Keep(p, walk), Enumerate(keys));
    SameMembers(Keep(p, walk), Enumerate(keys));
  }

  lemma CertWalksSort(before: map<string, u64>, after: map<string, u64>, walkB: seq<string>, walkA: seq<string>)
    requires Distinct(walkB) && forall h :: h in walkB <==> h in before
    requires Distinct(walkA) && forall h :: h in walkA <==> h in after
    ensures SortBy(LexLe, RotatedAmong(before, after, walkA) + Lacking(after, walkB)) == Lines(Itself, RotatedHosts(before, after))
  {
    LinesOfTwo(Itself, h => Rotated(before, after, h), h => h !in after, walkA, walkB, RotatedHosts(before, after));
    MapItself(RotatedAmong(before, after, walkA));
    MapItself(Lacking(after, walkB));
  }

  lemma MapItself(s: seq<string>)
    ensures MapSeq(Itself, s) == s
  {
  }

  /** Compares two compiled tables; against nothing, everything is added. */
  method Compute(previous: Option<Table>, next: Table) returns (d: ConfigDiff)
    ensures d == DiffOf(previous, next)
  {
    var b, a := ViewOf(previous), next.view;
    var routes := CompareRoutes(b.routes, a.routes);
    var hostsAdded := SortedSetOf(a.hosts - b.hosts);
    var hostsRemoved := SortedSetOf(b.hosts - a.hosts);
    var rotated, added, removed := CompareCerts(b.certs, a.certs);
    d := ConfigDiff(
      match previous case None => None case Some(t) => Some(t.generation), next.generation,
      routes.added, routes.removed, routes.changed, rotated, hostsAdded, hostsRemoved,
      routes.mirrorsAdded, routes.mirrorsRemoved,
      b.defaultBackend != a.defaultBackend, a.defaultBackend, added, removed);
  }

  // -------------------------------------------------------------------------
  // The difference is exact
  // -------------------------------------------------------------------------

  lemma NoLines<K(!new)>(line: K -> string, keys: set<K>)
    ensures Lines(line, keys) == [] <==> keys == {}
  {
    assert |keys| == 0 <==> keys == {};
  }

  lemma SameRoutesExactly(before: Routes, after: Routes)
    ensures before.Keys - after.Keys == {} && after.Keys - before.Keys == {} && MovedKeys(before, after) == {}
            && MirrorKeys(after, before) == {} && MirrorKeys(before, after) == {}
            <==> before == after
  {
    if before.Keys - after.Keys == {} && after.Keys - before.Keys == {} && MovedKeys(before, after) == {}
       && MirrorKeys(after, before) == {} && MirrorKeys(before, after) == {} {
      SetDifferenceEmpty(before.Keys, after.Keys);
      forall k | k in before ensures before[k] == after[k] {
        assert k !in MovedKeys(before, after) && k !in MirrorKeys(after, before) && k !in MirrorKeys(before, after);
        assert MirrorAt(before, k) == MirrorAt(after, k);
      }
    }
  }

  lemma SameCertsExactly(before: map<string, u64>, after: map<string, u64>)
    ensures RotatedHosts(before, after) == {} <==> before == after
  {
    if RotatedHosts(before, after) == {} {
      forall h ensures CertAt(before, h) == CertAt(after, h) {
        assert h !in RotatedHosts(before, after);
      }
    }
  }

  lemma SetDifferenceEmpty<T>(x: set<T>, y: set<T>)
    ensures x - y == {} && y - x == {} <==> x == y
  {
    if x - y == {} && y - x == {} {
      forall e ensures e in x <==> e in y {
        assert e !in x - y && e !in y - x;
      }
    }
  }

  /** A difference is empty exactly when the two tables look the same in every respect compared. */
  lemma EmptyExactlyWhenEqual(previous: Option<Table>, next: Table)
    ensures IsEmpty(DiffOf(previous, next)) <==> ViewOf(previous) == next.view
  {
    var b, a := ViewOf(previous), next.view;
    NoRouteLines(b.routes, a.routes);
    NoRouteLines(a.routes, b.routes);
    NoLines(Itself, RotatedHosts(b.certs, a.certs));
    NoLines(Itself, a.hosts - b.hosts);
    NoLines(Itself, b.hosts - a.hosts);
    SameRoutesExactly(b.routes, a.routes);
    SameCertsExactly(b.certs, a.certs);
    SetDifferenceEmpty(b.hosts, a.hosts);
  }

  lemma NoRouteLines(before: Routes, after: Routes)
    ensures RoutesOnly(before, after) == [] <==> before.Keys - after.Keys == {}
    ensures RoutesMoved(before, after) == [] <==> MovedKeys(before, after) == {}
    ensures MirrorsOnly(before, after) == [] <==> MirrorKeys(before, after) == {}
  {
    NoLines(k => RouteLine(before, k), before.Keys - after.Keys);
    NoLines(k => ChangeLine(before, after, k), MovedKeys(before, after));
    NoLines(k => MirrorLine(before, k), MirrorKeys(before, after));
  }

  lemma SetSizes<T>(x: set<T>, y: set<T>)
    ensures |x - y| - |y - x| == |x| - |y|
  {
    assert x == (x - y) + (x * y) && (x - y) !! (x * y);
    assert y == (y - x) + (x * y) && (y - x) !! (x * y);
  }

  function MirroredRoutes(routes: Routes): set<RouteId> {
    set k | k in routes && routes[k].mirror.Some?
  }

  function SharedMirrors(routes: Routes, others: Routes): set<RouteId> {
    set k | k in MirroredRoutes(routes) && MirrorAt(routes, k) == MirrorAt(others, k)
  }

  lemma MirrorsSplit(routes: Routes, others: Routes)
    ensures |MirroredRoutes(routes)| == |MirrorKeys(routes, others)| + |SharedMirrors(routes, others)|
  {
    assert MirroredRoutes(routes) == MirrorKeys(routes, others) + SharedMirrors(routes, others);
    assert MirrorKeys(routes, others) !! SharedMirrors(routes, others);
  }

  lemma MirrorSizes(before: Routes, after: Routes)
    ensures |MirrorKeys(after, before)| - |MirrorKeys(before, after)| == |MirroredRoutes(after)| - |MirroredRoutes(before)|
  {
    MirrorsSplit(before, after);
    MirrorsSplit(after, before);
    assert SharedMirrors(before, after) == SharedMirrors(after, before);
  }

  /** Added less removed is the change in size, for routes, mirrors, hosts and certificates. */
  lemma CountsBalance(previous: Option<Table>, next: Table)
    ensures var d, b, a := DiffOf(previous, next), ViewOf(previous), next.view;
            && |d.routesAdded| - |d.routesRemoved| == |a.routes| - |b.routes|
            && |d.mirrorsAdded| - |d.mirrorsRemoved| == |MirroredRoutes(a.routes)| - |MirroredRoutes(b.routes)|
            && |d.hostsAdded| - |d.hostsRemoved| == |a.hosts| - |b.hosts|
            && d.certsAdded - d.certsRemoved == |a.certs| - |b.certs|
  {
    var b, a := ViewOf(previous), next.view;
    assert |a.routes| == |a.routes.Keys| && |b.routes| == |b.routes.Keys|;
    assert |a.certs| == |a.certs.Keys| && |b.certs| == |b.certs.Keys|;
    SetSizes(a.routes.Keys, b.routes.Keys);
    MirrorSizes(b.routes, a.routes);
    SetSizes(a.hosts, b.hosts);
    SetSizes(a.certs.Keys, b.certs.Keys);
  }

  /** Hosts that kept a certificate but not the same one. */
  function ReplacedHosts(before: map<string, u64>, after: map<string, u64>): set<string> {
    set h | h in before && h in after && before[h] != after[h]
  }

  /** What the summary calls rotated: one list less two counts, never below zero. */
  function RotatedCount(d: ConfigDiff): nat {
    if |d.certsRotated| >= d.certsAdded + d.certsRemoved then |d.certsRotated| - (d.certsAdded + d.certsRemoved) else 0
  }

  lemma ThreeDisjoint<T>(x: set<T>, y: set<T>, z: set<T>)
    requires x !! y && (x + y) !! z
    ensures |x + y + z| == |x| + |y| + |z|
  {
  }

  lemma RotatedMeans(before: map<string, u64>, after: map<string, u64>, h: string)
    ensures h in RotatedHosts(before, after)
            <==> h in after.Keys - before.Keys || h in before.Keys - after.Keys || h in ReplacedHosts(before, after)
  {
  }

  lemma RotationsSplit(before: map<string, u64>, after: map<string, u64>)
    ensures |RotatedHosts(before, after)|
         == |after.Keys - before.Keys| + |before.Keys - after.Keys| + |ReplacedHosts(before, after)|
  {
    var added, removed, replaced := after.Keys - before.Keys, before.Keys - after.Keys, ReplacedHosts(before, after);
    forall h ensures h in RotatedHosts(before, after) <==> h in added + removed + replaced {
      RotatedMeans(before, after, h);
    }
    SameSet(RotatedHosts(before, after), added + removed + replaced);
    ThreeDisjoint(added, removed, replaced);
  }

  lemma SameSet<T>(x: set<T>, y: set<T>)
    requires forall e :: e in x <==> e in y
    ensures x == y
  {
  }

  /** The subtraction never saturates: what is left is exactly the replacements. */
  lemma RotatedCountsReplacements(previous: Option<Table>, next: Table)
    ensures var d := DiffOf(previous, next);
            && d.certsAdded + d.certsRemoved <= |d.certsRotated|
            && RotatedCount(d) == |ReplacedHosts(ViewOf(previous).certs, next.view.certs)|
  {
    RotationsSplit(ViewOf(previous).certs, next.view.certs);
  }

  lemma MovedBothWays(before: Routes, after: Routes)
    ensures |RoutesMoved(before, after)| == |RoutesMoved(after, before)|
  {
    SameSet(MovedKeys(before, after), MovedKeys(after, before));
  }

  lemma RotatedBothWays(before: map<string, u64>, after: map<string, u64>)
    ensures RotatedHosts(before, after) == RotatedHosts(after, before)
  {
    SameSet(RotatedHosts(before, after), RotatedHosts(after, before));
  }

  /** Comparing the other way round swaps added for removed and keeps what is symmetric. */
  lemma SwapSwaps(older: Table, newer: Table)
    ensures var d, e := DiffOf(Some(older), newer), DiffOf(Some(newer), older);
            && e.routesAdded == d.routesRemoved && e.routesRemoved == d.routesAdded
            && e.mirrorsAdded == d.mirrorsRemoved && e.mirrorsRemoved == d.mirrorsAdded
            && e.hostsAdded == d.hostsRemoved && e.hostsRemoved == d.hostsAdded
            && e.certsAdded == d.certsRemoved && e.certsRemoved == d.certsAdded
            && e.certsRotated == d.certsRotated
            && |e.backendsChanged| == |d.backendsChanged|
            && e.defaultBackendChanged == d.defaultBackendChanged
  {
    RotatedBothWays(older.view.certs, newer.view.certs);
    MovedBothWays(older.view.routes, newer.view.routes);
  }

  // -------------------------------------------------------------------------
  // The summary
  // -------------------------------------------------------------------------

  function CountPart(count: nat, singular: string, plural: string): seq<string> {
    if count == 0 then [] else [Decimal(count) + " " + if count == 1 then singular else plural]
  }

  function DefaultPart(d: ConfigDiff): seq<string> {
    if !d.defaultBackendChanged then []
    else match d.defaultBackend
         case Some(backend) => ["default backend now " + backend]
         case None => ["default backend cleared"]
  }

  function Parts(d: ConfigDiff): seq<string> {
    CountPart(|d.routesAdded|, "route added", "routes added")
    + CountPart(|d.routesRemoved|, "route removed", "routes removed")
    + CountPart(|d.backendsChanged|, "backend changed", "backends changed")
    + CountPart(|d.hostsAdded|, "host added", "hosts added")
    + CountPart(|d.hostsRemoved|, "host removed", "hosts removed")
    + CountPart(|d.mirrorsAdded|, "mirror added", "mirrors added")
    + CountPart(|d.mirrorsRemoved|, "mirror removed", "mirrors removed")
    + CountPart(d.certsAdded, "cert added", "certs added")
    + CountPart(d.certsRemoved, "cert removed", "certs removed")
    + CountPart(RotatedCount(d), "cert rotated", "certs rotated")
    + DefaultPart(d)
  }

  /** The summary has something to say exactly when something compared is different. */
  lemma SummaryIsSilentExactlyWhenEqual(previous: Option<Table>, next: Table)
    ensures Parts(DiffOf(previous, next)) == [] <==> ViewOf(previous) == next.view
  {
    EmptyExactlyWhenEqual(previous, next);
    RotatedCountsReplacements(previous, next);
    PartsOf(DiffOf(previous, next));
  }

  lemma PartsOf(d: ConfigDiff)
    requires d.certsAdded + d.certsRemoved <= |d.certsRotated|
    ensures Parts(d) == [] <==> IsEmpty(d)
  {
    assert |Parts(d)| == |CountPart(|d.routesAdded|, "route added", "routes added")|
                         + |CountPart(|d.routesRemoved|, "route removed", "routes removed")|
                         + |CountPart(|d.backendsChanged|, "backend changed", "backends changed")|
                         + |CountPart(|d.hostsAdded|, "host added", "hosts added")|
                         + |CountPart(|d.hostsRemoved|, "host removed", "hosts removed")|
                         + |CountPart(|d.mirrorsAdded|, "mirror added", "mirrors added")|
                         + |CountPart(|d.mirrorsRemoved|, "mirror removed", "mirrors removed")|
                         + |CountPart(d.certsAdded, "cert added", "certs added")|
                         + |CountPart(d.certsRemoved, "cert removed", "certs removed")|
                         + |CountPart(RotatedCount(d), "cert rotated", "certs rotated")|
                         + |DefaultPart(d)|;
  }
}
