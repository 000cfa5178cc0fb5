/**
 * A route's counters: blocks that tables share. A rebuild carries a route's
 * block over by the route's identity, and a route whose identity is new gets a
 * new one, from zero.
 */
module RouteCounters {
  import opened Wrappers
  import opened Machine
  import opened Ordering
  import opened Objects
  import opened Promotions
  import opened Promotion

  // -------------------------------------------------------------------------
  // Blocks, and the tables that share them
  // -------------------------------------------------------------------------

  /** What makes a route the same route across a rebuild. */
  datatype RouteIdentity = RouteIdentity(host: string, path: string, pathType: PathType, backend: string)

  /** A rule as the counters see it; `backend` is the production backend. */
  datatype CountedRoute = CountedRoute(host: RouteHost, path: string, pathType: PathType, backend: string)

  function IdentityOf(r: CountedRoute): RouteIdentity {
    RouteIdentity(Displayed(r.host), r.path, r.pathType, r.backend)
  }

  function Identities(routes: seq<CountedRoute>): seq<RouteIdentity> {
    MapSeq(IdentityOf, routes)
  }

  /** Which block each route counts in, and the index the next table looks in. */
  datatype RouteStats = RouteStats(slots: seq<nat>, byIdentity: map<RouteIdentity, nat>)

  const NO_STATS := RouteStats([], map[])

  function Carried(previous: Option<RouteStats>, id: RouteIdentity): Option<nat> {
    match previous
    case None => None
    case Some(p) => if id in p.byIdentity then Some(p.byIdentity[id]) else None
  }

  /** The next table's counters, new blocks numbered from `base`, and the number after them. */
  function Rebuilt(ids: seq<RouteIdentity>, previous: Option<RouteStats>, base: nat): (RouteStats, nat) {
    if ids == [] then (NO_STATS, base)
    else
      var (before, next) := Rebuilt(ids[..|ids| - 1], previous, base);
      var id := ids[|ids| - 1];
      match Carried(previous, id)
      case Some(block) => (RouteStats(before.slots + [block], before.byIdentity[id := block]), next)
      case None => (RouteStats(before.slots + [next], before.byIdentity[id := next]), next + 1)
  }

  method Rebuild(ids: seq<RouteIdentity>, previous: Option<RouteStats>, base: nat) returns (stats: RouteStats, next: nat)
    ensures (stats, next) == Rebuilt(ids, previous, base)
  {
    var slots: seq<nat>, byIdentity: map<RouteIdentity, nat> := [], map[];
    next := base;
    for i := 0 to |ids|
      invariant (RouteStats(slots, byIdentity), next) == Rebuilt(ids[..i], previous, base)
    {
      assert ids[..i + 1][..i] == ids[..i];
      var block := next;
      if previous.Some? && ids[i] in previous.value.byIdentity {
        block := previous.value.byIdentity[ids[i]];
      } else {
        next := next + 1;
      }
      byIdentity := byIdentity[ids[i] := block];
      slots := slots + [block];
    }
    assert ids[..|ids|] == ids;
    stats := RouteStats(slots, byIdentity);
  }

  /** No two identities share a block. */
  ghost predicate OneEach(index: map<RouteIdentity, nat>, bound: nat) {
    && (forall id :: id in index ==> index[id] < bound)
    && (forall a, b :: a in index && b in index && index[a] == index[b] ==> a == b)
  }

  /** Every route's block is the one its identity is indexed under, and no other identity's. */
  ghost predicate Indexed(ids: seq<RouteIdentity>, stats: RouteStats, bound: nat) {
    && |stats.slots| == |ids|
    && (forall i :: 0 <= i < |ids| ==> ids[i] in stats.byIdentity && stats.slots[i] == stats.byIdentity[ids[i]])
    && (forall id :: id in stats.byIdentity <==> id in ids)
    && OneEach(stats.byIdentity, bound)
  }

  ghost predicate IndexedBefore(previous: Option<RouteStats>, bound: nat) {
    previous.Some? ==> OneEach(previous.value.byIdentity, bound)
  }

  /** Carried from the previous table, or nobody's before. */
  ghost predicate CarriedOrNew(previous: Option<RouteStats>, base: nat, index: map<RouteIdentity, nat>) {
    forall id :: id in index ==>
      if Carried(previous, id).Some? then index[id] == Carried(previous, id).value < base else base <= index[id]
  }

  lemma OneMoreBlock(index: map<RouteIdentity, nat>, previous: Option<RouteStats>, base: nat, next: nat, id: RouteIdentity)
    requires id !in index && OneEach(index, next) && base <= next
    requires IndexedBefore(previous, base) && CarriedOrNew(previous, base, index)
    ensures match Carried(previous, id)
            case Some(block) => OneEach(index[id := block], next) && CarriedOrNew(previous, base, index[id := block])
            case None => OneEach(index[id := next], next + 1) && CarriedOrNew(previous, base, index[id := next])
  {
  }

  /** A surviving identity keeps its block; any other gets one that is nobody's. */
  lemma OneMoreIndexed(init: seq<RouteIdentity>, before: RouteStats, bound: nat, last: RouteIdentity, block: nat, more: nat)
    requires Indexed(init, before, bound) && last !in init && OneEach(before.byIdentity[last := block], more)
    ensures Indexed(init + [last], RouteStats(before.slots + [block], before.byIdentity[last := block]), more)
  {
  }

  lemma RebuiltStep(ids: seq<RouteIdentity>, previous: Option<RouteStats>, base: nat)
    requires ids != []
    ensures var init, last := ids[..|ids| - 1], ids[|ids| - 1];
            var (before, next) := Rebuilt(init, previous, base);
            var block := if Carried(previous, last).Some? then Carried(previous, last).value else next;
            && ids == init + [last]
            && Rebuilt(ids, previous, base) == (RouteStats(before.slots + [block], before.byIdentity[last := block]),
                                                if Carried(previous, last).Some? then next else next + 1)
  {
  }

  /** A surviving identity keeps its block; any other gets one that is nobody's. */
  lemma {:induction false} RebuiltIsIndexed(ids: seq<RouteIdentity>, previous: Option<RouteStats>, base: nat)
    requires Distinct(ids) && IndexedBefore(previous, base)
    ensures var (stats, next) := Rebuilt(ids, previous, base);
            base <= next && Indexed(ids, stats, next) && CarriedOrNew(previous, base, stats.byIdentity)
  {
    if ids != [] {
      var init, last := ids[..|ids| - 1], ids[|ids| - 1];
      RebuiltIsIndexed(init, previous, base);
      assert last !in init;
      var (before, next) := Rebuilt(init, previous, base);
      var kept := Carried(previous, last);
      OneMoreBlock(before.byIdentity, previous, base, next, last);
      OneMoreIndexed(init, before, next, last, if kept.Some? then kept.value else next, if kept.Some? then next else next + 1);
      RebuiltStep(ids, previous, base);
    }
  }

  // -------------------------------------------------------------------------
  // Serving
  // -------------------------------------------------------------------------

  type Blocks = seq<Baseline>

  const EMPTY := Baseline(ZERO, ZERO)

  datatype ServedTable = ServedTable(routes: seq<CountedRoute>, stats: RouteStats)

  /** Every block ever made, every table ever built, and the one published. */
  datatype Plant = Plant(blocks: Blocks, tables: seq<ServedTable>, serving: nat)

  datatype Event =
    | Respond(block: nat, counted: RouteTotals, canary: bool)   // through whichever table the request holds
    | Compile(previous: Option<nat>, routes: seq<CountedRoute>) // a new table, carrying from an earlier one
    | Publish(table: nat)                                       // the newest, or a pinned one

  /** A canary's part is a part. */
  predicate Whole(b: Baseline) {
    b.canary.AtMost(b.totals)
  }

  ghost predicate AllWhole(blocks: Blocks) {
    forall i :: 0 <= i < |blocks| ==> Whole(blocks[i])
  }

  ghost predicate SoundTable(t: ServedTable, bound: nat) {
    Distinct(Identities(t.routes)) && Indexed(Identities(t.routes), t.stats, bound)
  }

  ghost predicate Sound(w: Plant) {
    && w.serving < |w.tables| && AllWhole(w.blocks)
    && forall i :: 0 <= i < |w.tables| ==> SoundTable(w.tables[i], |w.blocks|)
  }

  /** No built table holds one place twice, so no two of its routes share an identity. */
  ghost predicate Enabled(w: Plant, e: Event) {
    match e
    case Respond(b, _, _) => b < |w.blocks|
    case Compile(previous, routes) => (previous.Some? ==> previous.value < |w.tables|) && Distinct(Identities(routes))
    case Publish(i) => i < |w.tables|
  }

  /** The route's block counts every response, its canary's block those the canary took. */
  function Counting(b: Baseline, counted: RouteTotals, canary: bool): Baseline {
    Baseline(b.totals.Plus(counted), if canary then b.canary.Plus(counted) else b.canary)
  }

  function StatsBefore(w: Plant, previous: Option<nat>): Option<RouteStats>
    requires previous.Some? ==> previous.value < |w.tables|
  {
    match previous case None => None case Some(i) => Some(w.tables[i].stats)
  }

  function Empties(n: nat): (r: Blocks)
    ensures |r| == n && forall i :: 0 <= i < n ==> r[i] == EMPTY
  {
    seq(n, _ => EMPTY)
  }

  ghost function After(w: Plant, e: Event): Plant
    requires Sound(w) && Enabled(w, e)
  {
    match e
    case Respond(b, counted, canary) => w.(blocks := w.blocks[b := Counting(w.blocks[b], counted, canary)])
    case Compile(previous, routes) =>
      var (stats, next) := Rebuilt(Identities(routes), StatsBefore(w, previous), |w.blocks|);
      w.(tables := w.tables + [ServedTable(routes, stats)],
         blocks := w.blocks + Empties(if next >= |w.blocks| then next - |w.blocks| else 0))
    case Publish(i) => w.(serving := i)
  }

  lemma IndexLasts(t: ServedTable, bound: nat, more: nat)
    requires SoundTable(t, bound) && bound <= more
    ensures SoundTable(t, more)
  {
  }

  lemma CompiledIsSound(w: Plant, e: Event)
    requires Sound(w) && Enabled(w, e) && e.Compile?
    ensures Sound(After(w, e)) && |w.blocks| <= |After(w, e).blocks|
    ensures CarriedOrNew(StatsBefore(w, e.previous), |w.blocks|, After(w, e).tables[|w.tables|].stats.byIdentity)
  {
    RebuiltIsIndexed(Identities(e.routes), StatsBefore(w, e.previous), |w.blocks|);
    var x := After(w, e);
    forall i | 0 <= i < |x.tables| ensures SoundTable(x.tables[i], |x.blocks|) {
      if i < |w.tables| {
        IndexLasts(w.tables[i], |w.blocks|, |x.blocks|);
      }
    }
  }

  lemma StaysSound(w: Plant, e: Event)
    requires Sound(w) && Enabled(w, e)
    ensures Sound(After(w, e))
  {
    if e.Compile? {
      CompiledIsSound(w, e);
    }
  }

  /** Counters only advance, the canary's and the rest. */
  predicate Advances(a: Baseline, b: Baseline) {
    a.canary.AtMost(b.canary) && a.Stable().AtMost(b.Stable())
  }

  ghost predicate Grew(h: Blocks, g: Blocks) {
    |h| <= |g| && forall b :: 0 <= b < |h| ==> Advances(h[b], g[b])
  }

  lemma GrewOn(h: Blocks, g: Blocks, f: Blocks)
    requires Grew(h, g) && Grew(g, f)
    ensures Grew(h, f)
  {
    forall b | 0 <= b < |h| ensures Advances(h[b], f[b]) {
      assert Advances(h[b], g[b]) && Advances(g[b], f[b]);
    }
  }

  /** What a block holds, nothing before it was made. */
  function BlockIn(h: Blocks, b: nat): Baseline {
    if b < |h| then h[b] else EMPTY
  }

  ghost predicate Runs(w: Plant, run: seq<Event>)
    requires Sound(w)
    decreases |run|
  {
    run == [] || (Enabled(w, run[0]) && Sound(After(w, run[0])) && Runs(After(w, run[0]), run[1..]))
  }

  ghost function Final(w: Plant, run: seq<Event>): Plant
    requires Sound(w) && Runs(w, run)
    decreases |run|
  {
    if run == [] then w else Final(After(w, run[0]), run[1..])
  }

  function CountedBy(e: Event, b: nat, canary: bool): RouteTotals {
    if e.Respond? && e.block == b && e.canary == canary then e.counted else ZERO
  }

  /** What the responses of a run counted in one block, the canary's or the rest. */
  function Recorded(run: seq<Event>, b: nat, canary: bool): RouteTotals {
    if run == [] then ZERO else CountedBy(run[0], b, canary).Plus(Recorded(run[1..], b, canary))
  }

  lemma CountingCounts(x: Baseline, counted: RouteTotals, canary: bool)
    requires Whole(x)
    ensures Whole(Counting(x, counted, canary))
    ensures Counting(x, counted, canary).canary == x.canary.Plus(if canary then counted else ZERO)
    ensures Counting(x, counted, canary).Stable() == x.Stable().Plus(if canary then ZERO else counted)
  {
  }

  lemma NothingCounts(x: RouteTotals)
    ensures x.Plus(ZERO) == x
  {
  }

  lemma NewBlocksAreEmpty(h: Blocks, n: nat, b: nat)
    ensures BlockIn(h + Empties(n), b) == BlockIn(h, b)
  {
  }

  lemma OneResponseCounts(h: Blocks, b: nat, c: nat, counted: RouteTotals, canary: bool)
    requires c < |h| && AllWhole(h)
    ensures var g := h[c := Counting(h[c], counted, canary)];
            && BlockIn(g, b).canary == BlockIn(h, b).canary.Plus(if c == b && canary then counted else ZERO)
            && BlockIn(g, b).Stable() == BlockIn(h, b).Stable().Plus(if c == b && !canary then counted else ZERO)
  {
    NothingCounts(BlockIn(h, b).canary);
    NothingCounts(BlockIn(h, b).Stable());
    if c == b {
      CountingCounts(h[b], counted, canary);
    }
  }

  lemma OneEventCounts(w: Plant, e: Event, b: nat)
    requires Sound(w) && Enabled(w, e)
    ensures BlockIn(After(w, e).blocks, b).canary == BlockIn(w.blocks, b).canary.Plus(CountedBy(e, b, true))
    ensures BlockIn(After(w, e).blocks, b).Stable() == BlockIn(w.blocks, b).Stable().Plus(CountedBy(e, b, false))
  {
    match e
    case Respond(c, counted, canary) => OneResponseCounts(w.blocks, b, c, counted, canary);
    case Compile(_, _) =>
      NewBlocksAreEmpty(w.blocks, |After(w, e).blocks| - |w.blocks|, b);
      NothingCounts(BlockIn(w.blocks, b).canary);
      NothingCounts(BlockIn(w.blocks, b).Stable());
    case Publish(_) =>
      NothingCounts(BlockIn(w.blocks, b).canary);
      NothingCounts(BlockIn(w.blocks, b).Stable());
  }

  lemma PlusAssociative(a: RouteTotals, b: RouteTotals, c: RouteTotals)
    ensures a.Plus(b).Plus(c) == a.Plus(b.Plus(c))
  {
  }

  /** A block advances by exactly what was recorded in it, whatever was built and published meanwhile. */
  lemma {:induction false} BlocksCountWhatIsRecorded(w: Plant, run: seq<Event>, b: nat)
    requires Sound(w) && Runs(w, run)
    ensures Sound(Final(w, run))
    ensures BlockIn(Final(w, run).blocks, b).canary == BlockIn(w.blocks, b).canary.Plus(Recorded(run, b, true))
    ensures BlockIn(Final(w, run).blocks, b).Stable() == BlockIn(w.blocks, b).Stable().Plus(Recorded(run, b, false))
    decreases |run|
  {
    if run != [] {
      var x := After(w, run[0]);
      OneEventCounts(w, run[0], b);
      BlocksCountWhatIsRecorded(x, run[1..], b);
      PlusAssociative(BlockIn(w.blocks, b).canary, CountedBy(run[0], b, true), Recorded(run[1..], b, true));
      PlusAssociative(BlockIn(w.blocks, b).Stable(), CountedBy(run[0], b, false), Recorded(run[1..], b, false));
    }
  }

  lemma {:induction false} BlocksAreKept(w: Plant, run: seq<Event>)
    requires Sound(w) && Runs(w, run)
    ensures |w.blocks| <= |Final(w, run).blocks|
    decreases |run|
  {
    if run != [] {
      BlocksAreKept(After(w, run[0]), run[1..]);
    }
  }

  lemma BlockAdvances(w: Plant, run: seq<Event>, b: nat)
    requires Sound(w) && Runs(w, run) && b < |w.blocks| <= |Final(w, run).blocks|
    ensures Advances(w.blocks[b], Final(w, run).blocks[b])
  {
    BlocksCountWhatIsRecorded(w, run, b);
  }

  lemma RunsGrow(w: Plant, run: seq<Event>)
    requires Sound(w) && Runs(w, run)
    ensures Grew(w.blocks, Final(w, run).blocks) && Sound(Final(w, run))
  {
    BlocksAreKept(w, run);
    BlocksCountWhatIsRecorded(w, run, 0);
    forall b | 0 <= b < |w.blocks| ensures Advances(w.blocks[b], Final(w, run).blocks[b]) {
      BlockAdvances(w, run, b);
    }
  }
}
