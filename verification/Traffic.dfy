/** What a canary's windows say of the traffic it served. */
module Traffic {
  import opened Wrappers
  import opened Machine
  import opened Ordering
  import opened Objects
  import opened Promotions
  import opened Promotion
  import opened RouteCounters

  // -------------------------------------------------------------------------
  // Sums over blocks
  // -------------------------------------------------------------------------

  function Sum(blocks: seq<nat>, part: nat -> RouteTotals): RouteTotals {
    if blocks == [] then ZERO
    else Sum(blocks[..|blocks| - 1], part).Plus(part(blocks[|blocks| - 1]))
  }

  lemma LastOfSum(blocks: seq<nat>, part: nat -> RouteTotals)
    requires blocks != []
    ensures Sum(blocks, part) == Sum(blocks[..|blocks| - 1], part).Plus(part(blocks[|blocks| - 1]))
  {
  }

  lemma Rearranged(a: RouteTotals, b: RouteTotals, c: RouteTotals, d: RouteTotals)
    ensures a.Plus(b).Plus(c.Plus(d)) == a.Plus(c).Plus(b.Plus(d))
  {
  }

  lemma OneMoreAdded(a: RouteTotals, b: RouteTotals, x: RouteTotals, y: RouteTotals, c: RouteTotals, z: RouteTotals)
    requires c == a.Plus(b) && z == x.Plus(y)
    ensures c.Plus(z) == a.Plus(x).Plus(b.Plus(y))
  {
    Rearranged(a, b, x, y);
  }

  lemma OneMoreSum(blocks: seq<nat>, f: nat -> RouteTotals, g: nat -> RouteTotals, h: nat -> RouteTotals)
    requires blocks != []
    requires Sum(blocks[..|blocks| - 1], h) == Sum(blocks[..|blocks| - 1], f).Plus(Sum(blocks[..|blocks| - 1], g))
    requires h(blocks[|blocks| - 1]) == f(blocks[|blocks| - 1]).Plus(g(blocks[|blocks| - 1]))
    ensures Sum(blocks, h) == Sum(blocks, f).Plus(Sum(blocks, g))
  {
    var init, last := blocks[..|blocks| - 1], blocks[|blocks| - 1];
    OneMoreAdded(Sum(init, f), Sum(init, g), f(last), g(last), Sum(init, h), h(last));
    LastOfSum(blocks, f);
    LastOfSum(blocks, g);
    LastOfSum(blocks, h);
  }

  /** Block by block, one part is two others together. */
  ghost predicate Joined(blocks: seq<nat>, f: nat -> RouteTotals, g: nat -> RouteTotals, h: nat -> RouteTotals) {
    forall i :: 0 <= i < |blocks| ==> h(blocks[i]) == f(blocks[i]).Plus(g(blocks[i]))
  }

  lemma JoinedSplits(blocks: seq<nat>, f: nat -> RouteTotals, g: nat -> RouteTotals, h: nat -> RouteTotals)
    requires blocks != [] && Joined(blocks, f, g, h)
    ensures Joined(blocks[..|blocks| - 1], f, g, h)
    ensures h(blocks[|blocks| - 1]) == f(blocks[|blocks| - 1]).Plus(g(blocks[|blocks| - 1]))
  {
  }

  lemma NoSum(f: nat -> RouteTotals)
    ensures Sum([], f) == ZERO
  {
  }

  lemma {:induction false} SumPlus(blocks: seq<nat>, f: nat -> RouteTotals, g: nat -> RouteTotals, h: nat -> RouteTotals)
    requires Joined(blocks, f, g, h)
    ensures Sum(blocks, h) == Sum(blocks, f).Plus(Sum(blocks, g))
  {
    if blocks == [] {
      NoSum(f);
      NoSum(g);
      NoSum(h);
      NothingCounts(ZERO);
    } else {
      JoinedSplits(blocks, f, g, h);
      SumPlus(blocks[..|blocks| - 1], f, g, h);
      OneMoreSum(blocks, f, g, h);
    }
  }

  lemma {:induction false} SumAgrees(blocks: seq<nat>, f: nat -> RouteTotals, g: nat -> RouteTotals)
    requires forall i :: 0 <= i < |blocks| ==> f(blocks[i]) == g(blocks[i])
    ensures Sum(blocks, f) == Sum(blocks, g)
  {
    if blocks != [] {
      SumAgrees(blocks[..|blocks| - 1], f, g);
    }
  }

  lemma {:induction false} SumWithout(blocks: seq<nat>, f: nat -> RouteTotals, i: nat)
    requires i < |blocks|
    ensures Sum(blocks, f) == Sum(blocks[..i] + blocks[i + 1..], f).Plus(f(blocks[i]))
  {
    var n := |blocks| - 1;
    if i == n {
      assert blocks[..i] + blocks[i + 1..] == blocks[..n];
    } else {
      SumWithout(blocks[..n], f, i);
      var less := blocks[..i] + blocks[i + 1..];
      assert less[..|less| - 1] == blocks[..n][..i] + blocks[..n][i + 1..];
      assert less[|less| - 1] == blocks[n];
    }
  }

  lemma {:induction false} SumForgetsOrder(a: seq<nat>, b: seq<nat>, f: nat -> RouteTotals)
    requires multiset(a) == multiset(b)
    ensures Sum(a, f) == Sum(b, f)
    decreases |a|
  {
    if |a| == 0 {
      SameMembers(a, b);
      assert a == b;
    } else {
      var i := Located(a, b);
      SumForgetsOrder(a[1..], b[..i] + b[i + 1..], f);
      SumWithout(a, f, 0);
      SumWithout(b, f, i);
      WithoutFirst(a);
    }
  }

  // -------------------------------------------------------------------------
  // What one reading sees
  // -------------------------------------------------------------------------

  function Row(r: CountedRoute, b: Baseline): TableRoute {
    TableRoute(r.host, r.path, r.pathType, Some(b))
  }

  /** The published table as the promotion loop loads it, `seen` being what it reads of a block. */
  function Rows(routes: seq<CountedRoute>, slots: seq<nat>, seen: nat -> Baseline): (rows: seq<TableRoute>)
    requires |routes| == |slots|
    ensures |rows| == |routes|
    ensures forall i :: 0 <= i < |routes| ==> rows[i] == Row(routes[i], seen(slots[i]))
  {
    seq(|routes|, i requires 0 <= i < |routes| => Row(routes[i], seen(slots[i])))
  }

  predicate Covers(r: CountedRoute, wanted: seq<PromotionRoute>) {
    Wanted(Row(r, EMPTY), wanted)
  }

  /** The blocks of the routes a canary shadows. */
  function CoveredBlocks(routes: seq<CountedRoute>, slots: seq<nat>, wanted: seq<PromotionRoute>): (r: seq<nat>)
    requires |routes| == |slots|
    ensures forall b :: b in r ==> b in slots
  {
    if routes == [] then []
    else
      var n := |routes| - 1;
      var before := CoveredBlocks(routes[..n], slots[..n], wanted);
      if Covers(routes[n], wanted) then before + [slots[n]] else before
  }

  lemma {:induction false} CountedAreCovered(routes: seq<CountedRoute>, slots: seq<nat>, wanted: seq<PromotionRoute>, seen: nat -> Baseline)
    requires |routes| == |slots|
    ensures Counted(Rows(routes, slots, seen), wanted) == MapSeq(seen, CoveredBlocks(routes, slots, wanted))
  {
    if routes != [] {
      var n := |routes| - 1;
      CountedAreCovered(routes[..n], slots[..n], wanted, seen);
      assert Rows(routes, slots, seen)[..n] == Rows(routes[..n], slots[..n], seen);
      assert Wanted(Row(routes[n], seen(slots[n])), wanted) == Covers(routes[n], wanted);
      var before := CoveredBlocks(routes[..n], slots[..n], wanted);
      assert MapSeq(seen, before + [slots[n]]) == MapSeq(seen, before) + [seen(slots[n])];
    }
  }

  /**
   * A reading: the blocks covered, and the counters as they stood when their
   * totals were read and when their canary parts were, a moment later.
   */
  datatype Sight = Sight(blocks: seq<nat>, early: Blocks, late: Blocks)

  ghost predicate SoundSight(s: Sight) {
    AllWhole(s.early) && Grew(s.early, s.late) && forall b :: b in s.blocks ==> b < |s.early|
  }

  function TotalsIn(h: Blocks): nat -> RouteTotals {
    (b: nat) => BlockIn(h, b).totals
  }

  function CanaryIn(h: Blocks): nat -> RouteTotals {
    (b: nat) => BlockIn(h, b).canary
  }

  function StableIn(h: Blocks): nat -> RouteTotals {
    (b: nat) => BlockIn(h, b).Stable()
  }

  function SeenOf(early: Blocks, late: Blocks): nat -> Baseline {
    (b: nat) => Baseline(BlockIn(early, b).totals, BlockIn(late, b).canary)
  }

  function Seen(s: Sight): Baseline {
    Baseline(Sum(s.blocks, TotalsIn(s.early)), Sum(s.blocks, CanaryIn(s.late)))
  }

  lemma {:induction false} SumsAreSeen(blocks: seq<nat>, early: Blocks, late: Blocks)
    ensures SumOf(MapSeq(SeenOf(early, late), blocks)) == Seen(Sight(blocks, early, late))
  {
    if blocks != [] {
      var init, last := blocks[..|blocks| - 1], blocks[|blocks| - 1];
      SumsAreSeen(init, early, late);
      var all := MapSeq(SeenOf(early, late), blocks);
      assert all[..|all| - 1] == MapSeq(SeenOf(early, late), init);
      LastOfSum(blocks, TotalsIn(early));
      LastOfSum(blocks, CanaryIn(late));
    }
  }

  /** The loop's reading is the sight of what it covers. */
  lemma ReadingIsSeen(t: ServedTable, wanted: seq<PromotionRoute>, early: Blocks, late: Blocks)
    requires |t.routes| == |t.stats.slots|
    ensures var blocks := CoveredBlocks(t.routes, t.stats.slots, wanted);
            Reading(Rows(t.routes, t.stats.slots, SeenOf(early, late)), wanted)
            == if blocks == [] then None else Some(Seen(Sight(blocks, early, late)))
  {
    CountedAreCovered(t.routes, t.stats.slots, wanted, SeenOf(early, late));
    SumsAreSeen(CoveredBlocks(t.routes, t.stats.slots, wanted), early, late);
  }

  /** What the canary was counted for while the reading was being taken. */
  function Slip(s: Sight): RouteTotals {
    Sum(s.blocks, CanaryIn(s.late)).Minus(Sum(s.blocks, CanaryIn(s.early)))
  }

  lemma {:induction false} SumAtMost(blocks: seq<nat>, f: nat -> RouteTotals, g: nat -> RouteTotals)
    requires forall i :: 0 <= i < |blocks| ==> f(blocks[i]).AtMost(g(blocks[i]))
    ensures Sum(blocks, f).AtMost(Sum(blocks, g))
  {
    if blocks != [] {
      SumAtMost(blocks[..|blocks| - 1], f, g);
    }
  }

  lemma SlippedStable(totals: RouteTotals, stable: RouteTotals, early: RouteTotals, late: RouteTotals)
    requires totals == stable.Plus(early) && early.AtMost(late)
    ensures totals.Minus(late) == stable.Minus(late.Minus(early))
  {
  }

  /** The stable side as read: what it was, less what the canary took meanwhile. */
  lemma SeenStable(s: Sight)
    requires SoundSight(s)
    ensures Seen(s).Stable() == Sum(s.blocks, StableIn(s.early)).Minus(Slip(s))
  {
    forall i | 0 <= i < |s.blocks|
      ensures TotalsIn(s.early)(s.blocks[i]) == StableIn(s.early)(s.blocks[i]).Plus(CanaryIn(s.early)(s.blocks[i]))
      ensures CanaryIn(s.early)(s.blocks[i]).AtMost(CanaryIn(s.late)(s.blocks[i]))
    {
      assert s.blocks[i] in s.blocks;
      assert Whole(s.early[s.blocks[i]]) && Advances(s.early[s.blocks[i]], s.late[s.blocks[i]]);
    }
    SumPlus(s.blocks, StableIn(s.early), CanaryIn(s.early), TotalsIn(s.early));
    SumAtMost(s.blocks, CanaryIn(s.early), CanaryIn(s.late));
    SlippedStable(Sum(s.blocks, TotalsIn(s.early)), Sum(s.blocks, StableIn(s.early)),
                  Sum(s.blocks, CanaryIn(s.early)), Sum(s.blocks, CanaryIn(s.late)));
  }

  // -------------------------------------------------------------------------
  // One window
  // -------------------------------------------------------------------------

  /** What a block recorded between two states. */
  function Since(part: nat -> RouteTotals, later: nat -> RouteTotals): nat -> RouteTotals {
    (b: nat) => later(b).Minus(part(b))
  }

  /** What the blocks now covered recorded for the canary since the last reading. */
  function ServedCanary(a: Sight, b: Sight): RouteTotals {
    Sum(b.blocks, Since(CanaryIn(a.late), CanaryIn(b.late)))
  }

  function ServedStable(a: Sight, b: Sight): RouteTotals {
    Sum(b.blocks, Since(StableIn(a.early), StableIn(b.early)))
  }

  /** What the blocks now covered already held at the last reading. */
  function HeldCanary(a: Sight, b: Sight): RouteTotals {
    Sum(b.blocks, CanaryIn(a.late))
  }

  function HeldStable(a: Sight, b: Sight): RouteTotals {
    Sum(b.blocks, StableIn(a.early))
  }

  /** One counter: what it held is what was read; or, short of that, nothing was served. */
  predicate ExactField(served: nat, held: nat, read: nat) {
    held == read || (served == 0 && held < read)
  }

  predicate Exactly(served: RouteTotals, held: RouteTotals, read: RouteTotals) {
    && ExactField(served.requests, held.requests, read.requests)
    && ExactField(served.errors5xx, held.errors5xx, read.errors5xx)
    && ExactField(served.latencyMicros, held.latencyMicros, read.latencyMicros)
    && ExactField(served.latencyCount, held.latencyCount, read.latencyCount)
  }

  lemma DifferenceIsExactly(held: RouteTotals, served: RouteTotals, read: RouteTotals)
    ensures held.Plus(served).Minus(read) == served <==> Exactly(served, held, read)
  {
  }

  lemma TwoMinuses(a: RouteTotals, b: RouteTotals, c: RouteTotals)
    ensures a.Minus(b).Minus(c) == a.Minus(b.Plus(c))
  {
  }

  /** Two readings, the first over before the second begins. */
  ghost predicate InTurn(a: Sight, b: Sight) {
    SoundSight(a) && SoundSight(b) && Grew(a.late, b.early)
  }

  lemma BlockAdvanced(h: Blocks, g: Blocks, b: nat)
    requires Grew(h, g)
    ensures CanaryIn(g)(b) == CanaryIn(h)(b).Plus(Since(CanaryIn(h), CanaryIn(g))(b))
    ensures StableIn(g)(b) == StableIn(h)(b).Plus(Since(StableIn(h), StableIn(g))(b))
  {
    if b < |h| {
      assert Advances(h[b], g[b]);
    }
  }

  /** Reading what a set of blocks holds is reading what they held and what they recorded since. */
  lemma HeldAndServed(h: Blocks, g: Blocks, blocks: seq<nat>)
    requires Grew(h, g)
    ensures Sum(blocks, CanaryIn(g)) == Sum(blocks, CanaryIn(h)).Plus(Sum(blocks, Since(CanaryIn(h), CanaryIn(g))))
    ensures Sum(blocks, StableIn(g)) == Sum(blocks, StableIn(h)).Plus(Sum(blocks, Since(StableIn(h), StableIn(g))))
  {
    forall i | 0 <= i < |blocks|
      ensures CanaryIn(g)(blocks[i]) == CanaryIn(h)(blocks[i]).Plus(Since(CanaryIn(h), CanaryIn(g))(blocks[i]))
      ensures StableIn(g)(blocks[i]) == StableIn(h)(blocks[i]).Plus(Since(StableIn(h), StableIn(g))(blocks[i]))
    {
      BlockAdvanced(h, g, blocks[i]);
    }
    SumPlus(blocks, CanaryIn(h), Since(CanaryIn(h), CanaryIn(g)), CanaryIn(g));
    SumPlus(blocks, StableIn(h), Since(StableIn(h), StableIn(g)), StableIn(g));
  }

  lemma MomentsGrow(a: Sight, b: Sight)
    requires InTurn(a, b)
    ensures Grew(a.late, b.late) && Grew(a.early, b.early)
  {
    GrewOn(a.late, b.early, b.late);
    GrewOn(a.early, a.late, b.early);
  }

  /**
   * A window is what was served exactly when the blocks covered now held, at
   * the last reading, what was read then; or held less, and served nothing. Held
   * less, what was served is lost up to the shortfall; held more, the excess is
   * counted as served. The stable side also answers for what the canary took
   * while either reading was being made.
   */
  lemma WindowIsServedExactly(a: Sight, b: Sight)
    requires InTurn(a, b)
    ensures var w := WindowBetween(Seen(a), Seen(b));
            && w.canary == HeldCanary(a, b).Plus(ServedCanary(a, b)).Minus(Seen(a).canary)
            && (w.canary == ServedCanary(a, b) <==> Exactly(ServedCanary(a, b), HeldCanary(a, b), Seen(a).canary))
            && w.stable == HeldStable(a, b).Plus(ServedStable(a, b)).Minus(Slip(b).Plus(Seen(a).Stable()))
            && (w.stable == ServedStable(a, b)
                <==> Exactly(ServedStable(a, b), HeldStable(a, b), Slip(b).Plus(Seen(a).Stable())))
  {
    MomentsGrow(a, b);
    HeldAndServed(a.late, b.late, b.blocks);
    HeldAndServed(a.early, b.early, b.blocks);
    SeenStable(b);
    TwoMinuses(Sum(b.blocks, StableIn(b.early)), Slip(b), Seen(a).Stable());
    DifferenceIsExactly(HeldCanary(a, b), ServedCanary(a, b), Seen(a).canary);
    DifferenceIsExactly(HeldStable(a, b), ServedStable(a, b), Slip(b).Plus(Seen(a).Stable()));
  }

  lemma NothingSlips(s: Sight)
    requires s.early == s.late
    ensures Slip(s) == ZERO
  {
  }

  lemma EqualIsExact(served: RouteTotals, held: RouteTotals)
    ensures Exactly(served, held, held) && held.Minus(ZERO) == held && ZERO.Plus(held) == held
  {
  }

  lemma StillStable(a: Sight, b: Sight)
    requires InTurn(a, b) && multiset(a.blocks) == multiset(b.blocks) && a.early == a.late && b.early == b.late
    ensures Slip(b).Plus(Seen(a).Stable()) == HeldStable(a, b)
  {
    NothingSlips(a);
    NothingSlips(b);
    SeenStable(a);
    SumForgetsOrder(a.blocks, b.blocks, StableIn(a.early));
    EqualIsExact(ZERO, HeldStable(a, b));
  }

  /**
   * While the covered blocks stay the same the canary's window is what it
   * served, whatever that was; and so is the stable side's, for readings no
   * response got into.
   */
  lemma SameBlocksAreExact(a: Sight, b: Sight)
    requires InTurn(a, b) && multiset(a.blocks) == multiset(b.blocks)
    ensures WindowBetween(Seen(a), Seen(b)).canary == ServedCanary(a, b)
    ensures a.early == a.late && b.early == b.late ==> WindowBetween(Seen(a), Seen(b)).stable == ServedStable(a, b)
  {
    WindowIsServedExactly(a, b);
    SumForgetsOrder(a.blocks, b.blocks, CanaryIn(a.late));
    EqualIsExact(ServedCanary(a, b), HeldCanary(a, b));
    EqualIsExact(ServedStable(a, b), HeldStable(a, b));
    if a.early == a.late && b.early == b.late {
      StillStable(a, b);
    }
  }

  /** What a run of responses served is what it recorded in the blocks now covered. */
  lemma ServedIsRecorded(w: Plant, run: seq<Event>, b: nat)
    requires Sound(w) && Runs(w, run)
    ensures Since(CanaryIn(w.blocks), CanaryIn(Final(w, run).blocks))(b) == Recorded(run, b, true)
    ensures Since(StableIn(w.blocks), StableIn(Final(w, run).blocks))(b) == Recorded(run, b, false)
  {
    BlocksCountWhatIsRecorded(w, run, b);
    PlusThenMinus(BlockIn(w.blocks, b).canary, Recorded(run, b, true));
    PlusThenMinus(BlockIn(w.blocks, b).Stable(), Recorded(run, b, false));
  }

  lemma PlusThenMinus(a: RouteTotals, b: RouteTotals)
    ensures a.Plus(b).Minus(a) == b
  {
  }

  // -------------------------------------------------------------------------
  // Which rebuilds keep the blocks
  // -------------------------------------------------------------------------

  /** The identities a canary covers in a table. */
  ghost function CoveredIdentities(routes: seq<CountedRoute>, wanted: seq<PromotionRoute>): set<RouteIdentity> {
    set r | r in routes && Covers(r, wanted) :: IdentityOf(r)
  }

  lemma {:induction false} CoveredAre(routes: seq<CountedRoute>, slots: seq<nat>, wanted: seq<PromotionRoute>, b: nat)
    requires |routes| == |slots|
    ensures b in CoveredBlocks(routes, slots, wanted) <==> exists i :: 0 <= i < |routes| && Covers(routes[i], wanted) && slots[i] == b
  {
    if routes != [] {
      var n := |routes| - 1;
      CoveredAre(routes[..n], slots[..n], wanted, b);
      assert forall i :: 0 <= i < n ==> routes[..n][i] == routes[i] && slots[..n][i] == slots[i];
      if i :| 0 <= i < n && Covers(routes[..n][i], wanted) && slots[..n][i] == b {
        assert Covers(routes[i], wanted) && slots[i] == b;
      }
      if i :| 0 <= i < |routes| && Covers(routes[i], wanted) && slots[i] == b {
        assert i < n ==> Covers(routes[..n][i], wanted) && slots[..n][i] == b;
      }
    }
  }

  /** An identity covered, and the block it is indexed under. */
  ghost predicate OwnsIt(t: ServedTable, wanted: seq<PromotionRoute>, id: RouteIdentity, b: nat) {
    id in CoveredIdentities(t.routes, wanted) && id in t.stats.byIdentity && t.stats.byIdentity[id] == b
  }

  lemma OwnedAt(t: ServedTable, bound: nat, wanted: seq<PromotionRoute>, i: nat)
    requires SoundTable(t, bound) && i < |t.routes| && Covers(t.routes[i], wanted)
    ensures OwnsIt(t, wanted, IdentityOf(t.routes[i]), t.stats.slots[i])
  {
    assert t.routes[i] in t.routes && Identities(t.routes)[i] == IdentityOf(t.routes[i]);
  }

  lemma PlaceOwned(t: ServedTable, bound: nat, wanted: seq<PromotionRoute>, id: RouteIdentity, b: nat) returns (i: nat)
    requires SoundTable(t, bound) && OwnsIt(t, wanted, id, b)
    ensures i < |t.routes| && Covers(t.routes[i], wanted) && t.stats.slots[i] == b
  {
    var r :| r in t.routes && Covers(r, wanted) && IdentityOf(r) == id;
    i :| 0 <= i < |t.routes| && t.routes[i] == r;
    assert Identities(t.routes)[i] == id;
  }

  /** The block each covered identity is indexed under, and no other. */
  lemma CoveredByIdentity(t: ServedTable, bound: nat, wanted: seq<PromotionRoute>, b: nat)
    requires SoundTable(t, bound)
    ensures b in CoveredBlocks(t.routes, t.stats.slots, wanted) <==> exists id :: OwnsIt(t, wanted, id, b)
  {
    CoveredAre(t.routes, t.stats.slots, wanted, b);
    if i :| 0 <= i < |t.routes| && Covers(t.routes[i], wanted) && t.stats.slots[i] == b {
      OwnedAt(t, bound, wanted, i);
    }
    if id :| OwnsIt(t, wanted, id, b) {
      var _ := PlaceOwned(t, bound, wanted, id, b);
    }
  }

  lemma CoveredIsIndexed(t: ServedTable, bound: nat, wanted: seq<PromotionRoute>, id: RouteIdentity)
    requires SoundTable(t, bound) && id in CoveredIdentities(t.routes, wanted)
    ensures id in t.stats.byIdentity && t.stats.byIdentity[id] < bound
    ensures t.stats.byIdentity[id] in CoveredBlocks(t.routes, t.stats.slots, wanted)
  {
    var r :| r in t.routes && Covers(r, wanted) && IdentityOf(r) == id;
    var i :| 0 <= i < |t.routes| && t.routes[i] == r;
    OwnedAt(t, bound, wanted, i);
    CoveredByIdentity(t, bound, wanted, t.stats.byIdentity[id]);
  }

  lemma {:induction false} CoveredOnce(routes: seq<CountedRoute>, slots: seq<nat>, wanted: seq<PromotionRoute>)
    requires |routes| == |slots| && Distinct(slots)
    ensures Distinct(CoveredBlocks(routes, slots, wanted))
  {
    if routes != [] {
      var n := |routes| - 1;
      CoveredOnce(routes[..n], slots[..n], wanted);
      var before := CoveredBlocks(routes[..n], slots[..n], wanted);
      assert slots[n] !in slots[..n];
      DistinctConcat(before, [slots[n]]);
    }
  }

  lemma SlotsAreDistinct(t: ServedTable, bound: nat)
    requires SoundTable(t, bound)
    ensures Distinct(t.stats.slots)
  {
  }

  /** The blocks a canary covers in a table. */
  function CoverOf(t: ServedTable, wanted: seq<PromotionRoute>): seq<nat> {
    if |t.routes| == |t.stats.slots| then CoveredBlocks(t.routes, t.stats.slots, wanted) else []
  }

  /** Covered by identity, no two identities one block: the same set of blocks is the same blocks. */
  lemma SameSetSameBlocks(t: ServedTable, u: ServedTable, bound: nat, more: nat, wanted: seq<PromotionRoute>, now: seq<PromotionRoute>)
    requires SoundTable(t, bound) && SoundTable(u, more)
    ensures multiset(CoverOf(t, wanted)) == multiset(CoverOf(u, now))
            <==> forall b :: b in CoverOf(t, wanted) <==> b in CoverOf(u, now)
  {
    var x, y := CoverOf(t, wanted), CoverOf(u, now);
    SlotsAreDistinct(t, bound);
    SlotsAreDistinct(u, more);
    CoveredOnce(t.routes, t.stats.slots, wanted);
    CoveredOnce(u.routes, u.stats.slots, now);
    if multiset(x) == multiset(y) {
      SameMembers(x, y);
    }
    if forall b :: b in x <==> b in y {
      DistinctSameSet(x, y);
    }
  }

  /** A table built from another keeps a block exactly for an identity it keeps. */
  ghost predicate BuiltFrom(t: ServedTable, u: ServedTable, bound: nat) {
    CarriedOrNew(Some(t.stats), bound, u.stats.byIdentity)
  }

  lemma KeptOwner(t: ServedTable, u: ServedTable, bound: nat, more: nat, wanted: seq<PromotionRoute>, now: seq<PromotionRoute>,
                  id: RouteIdentity, b: nat)
    requires SoundTable(t, bound) && SoundTable(u, more) && BuiltFrom(t, u, bound)
    requires CoveredIdentities(t.routes, wanted) == CoveredIdentities(u.routes, now)
    ensures OwnsIt(t, wanted, id, b) <==> OwnsIt(u, now, id, b)
  {
    if id in CoveredIdentities(t.routes, wanted) {
      CoveredIsIndexed(t, bound, wanted, id);
      CoveredIsIndexed(u, more, now, id);
      assert Carried(Some(t.stats), id) == Some(t.stats.byIdentity[id]);
    }
  }

  lemma KeptIdentityKeepsItsBlock(t: ServedTable, u: ServedTable, bound: nat, more: nat, wanted: seq<PromotionRoute>,
                                  now: seq<PromotionRoute>, b: nat)
    requires SoundTable(t, bound) && SoundTable(u, more) && BuiltFrom(t, u, bound)
    requires CoveredIdentities(t.routes, wanted) == CoveredIdentities(u.routes, now)
    ensures b in CoverOf(t, wanted) <==> b in CoverOf(u, now)
  {
    CoveredByIdentity(t, bound, wanted, b);
    CoveredByIdentity(u, more, now, b);
    forall id ensures OwnsIt(t, wanted, id, b) <==> OwnsIt(u, now, id, b) {
      KeptOwner(t, u, bound, more, wanted, now, id, b);
    }
  }

  lemma SharedBlockSharedIdentity(t: ServedTable, u: ServedTable, bound: nat, a: RouteIdentity, id: RouteIdentity)
    requires OneEach(t.stats.byIdentity, bound) && BuiltFrom(t, u, bound)
    requires a in t.stats.byIdentity && id in u.stats.byIdentity && t.stats.byIdentity[a] == u.stats.byIdentity[id]
    ensures a == id
  {
    assert Carried(Some(t.stats), id).Some?;
  }

  /** Whose a covered block is. */
  lemma OwnerOf(t: ServedTable, bound: nat, wanted: seq<PromotionRoute>, b: nat) returns (id: RouteIdentity)
    requires SoundTable(t, bound) && b in CoverOf(t, wanted)
    ensures id in CoveredIdentities(t.routes, wanted) && id in t.stats.byIdentity && t.stats.byIdentity[id] == b
  {
    CoveredByIdentity(t, bound, wanted, b);
    id :| OwnsIt(t, wanted, id, b);
  }

  lemma KeptBlockKeepsItsIdentity(t: ServedTable, u: ServedTable, bound: nat, more: nat, wanted: seq<PromotionRoute>,
                                  now: seq<PromotionRoute>, id: RouteIdentity)
    requires SoundTable(t, bound) && SoundTable(u, more) && BuiltFrom(t, u, bound) && id in CoveredIdentities(t.routes, wanted)
    requires forall b :: b in CoverOf(t, wanted) ==> b in CoverOf(u, now)
    ensures id in CoveredIdentities(u.routes, now)
  {
    CoveredIsIndexed(t, bound, wanted, id);
    var other := OwnerOf(u, more, now, t.stats.byIdentity[id]);
    SharedBlockSharedIdentity(t, u, bound, id, other);
  }

  lemma KnownBlockKnownIdentity(t: ServedTable, u: ServedTable, bound: nat, more: nat, wanted: seq<PromotionRoute>,
                                now: seq<PromotionRoute>, id: RouteIdentity)
    requires SoundTable(t, bound) && SoundTable(u, more) && BuiltFrom(t, u, bound) && id in CoveredIdentities(u.routes, now)
    requires forall b :: b in CoverOf(u, now) ==> b in CoverOf(t, wanted)
    ensures id in CoveredIdentities(t.routes, wanted)
  {
    CoveredIsIndexed(u, more, now, id);
    var other := OwnerOf(t, bound, wanted, u.stats.byIdentity[id]);
    SharedBlockSharedIdentity(t, u, bound, other, id);
  }

  lemma SameBlocksSameIdentities(t: ServedTable, u: ServedTable, bound: nat, more: nat, wanted: seq<PromotionRoute>, now: seq<PromotionRoute>)
    requires SoundTable(t, bound) && SoundTable(u, more) && BuiltFrom(t, u, bound)
    requires forall b :: b in CoverOf(t, wanted) <==> b in CoverOf(u, now)
    ensures CoveredIdentities(t.routes, wanted) == CoveredIdentities(u.routes, now)
  {
    forall id | id in CoveredIdentities(t.routes, wanted) ensures id in CoveredIdentities(u.routes, now) {
      KeptBlockKeepsItsIdentity(t, u, bound, more, wanted, now, id);
    }
    forall id | id in CoveredIdentities(u.routes, now) ensures id in CoveredIdentities(t.routes, wanted) {
      KnownBlockKnownIdentity(t, u, bound, more, wanted, now, id);
    }
  }

  lemma SurviveExactly(t: ServedTable, u: ServedTable, bound: nat, more: nat, wanted: seq<PromotionRoute>, now: seq<PromotionRoute>)
    requires SoundTable(t, bound) && SoundTable(u, more) && BuiltFrom(t, u, bound)
    ensures multiset(CoverOf(t, wanted)) == multiset(CoverOf(u, now))
            <==> CoveredIdentities(t.routes, wanted) == CoveredIdentities(u.routes, now)
  {
    SameSetSameBlocks(t, u, bound, more, wanted, now);
    if CoveredIdentities(t.routes, wanted) == CoveredIdentities(u.routes, now) {
      forall b ensures b in CoverOf(t, wanted) <==> b in CoverOf(u, now) {
        KeptIdentityKeepsItsBlock(t, u, bound, more, wanted, now, b);
      }
    }
    if forall b :: b in CoverOf(t, wanted) <==> b in CoverOf(u, now) {
      SameBlocksSameIdentities(t, u, bound, more, wanted, now);
    }
  }

  /**
   * A rebuild leaves a canary's counters in place exactly when it leaves the
   * covered routes' hosts, paths, types and production backends as they were.
   */
  lemma BlocksSurviveExactly(w: Plant, i: nat, routes: seq<CountedRoute>, wanted: seq<PromotionRoute>, now: seq<PromotionRoute>)
    requires Sound(w) && Enabled(w, Compile(Some(i), routes))
    ensures var x := After(w, Compile(Some(i), routes));
            && Sound(x) && |x.tables| == |w.tables| + 1
            && (multiset(CoverOf(w.tables[i], wanted)) == multiset(CoverOf(x.tables[|w.tables|], now))
                <==> CoveredIdentities(w.tables[i].routes, wanted) == CoveredIdentities(routes, now))
  {
    var e := Compile(Some(i), routes);
    CompiledIsSound(w, e);
    var x := After(w, e);
    SurviveExactly(w.tables[i], x.tables[|w.tables|], |w.blocks|, |x.blocks|, wanted, now);
  }

  /** A table carries from the newest, and covers these identities. */
  ghost predicate KeepsIdentities(w: Plant, e: Event, wanted: seq<PromotionRoute>, ids: set<RouteIdentity>) {
    e.Compile? ==> e.previous == Some(|w.tables| - 1) && CoveredIdentities(e.routes, wanted) == ids
  }

  ghost predicate KeepsCovering(w: Plant, run: seq<Event>, wanted: seq<PromotionRoute>, ids: set<RouteIdentity>)
    requires Sound(w) && Runs(w, run)
    decreases |run|
  {
    run != [] ==> KeepsIdentities(w, run[0], wanted, ids) && KeepsCovering(After(w, run[0]), run[1..], wanted, ids)
  }

  /** Tables from `since` on cover just these blocks. */
  ghost predicate AllCover(tables: seq<ServedTable>, since: nat, wanted: seq<PromotionRoute>, blocks: multiset<nat>) {
    forall i :: since <= i < |tables| ==> multiset(CoverOf(tables[i], wanted)) == blocks
  }

  ghost function NewestIdentities(tables: seq<ServedTable>, wanted: seq<PromotionRoute>): set<RouteIdentity> {
    if tables == [] then {} else CoveredIdentities(tables[|tables| - 1].routes, wanted)
  }

  lemma CompileAppends(w: Plant, e: Event) returns (t: ServedTable)
    requires Sound(w) && Enabled(w, e) && e.Compile?
    ensures After(w, e).tables == w.tables + [t] && t == After(w, e).tables[|w.tables|] && t.routes == e.routes
  {
    t := After(w, e).tables[|w.tables|];
  }

  lemma CompiledCovers(w: Plant, e: Event, since: nat, wanted: seq<PromotionRoute>, blocks: multiset<nat>)
    requires Sound(w) && Enabled(w, e) && e.Compile? && since < |w.tables| && AllCover(w.tables, since, wanted, blocks)
    requires e.previous == Some(|w.tables| - 1) && CoveredIdentities(e.routes, wanted) == NewestIdentities(w.tables, wanted)
    ensures AllCover(After(w, e).tables, since, wanted, blocks) && since < |After(w, e).tables|
    ensures NewestIdentities(After(w, e).tables, wanted) == NewestIdentities(w.tables, wanted)
  {
    var t := CompileAppends(w, e);
    BlocksSurviveExactly(w, |w.tables| - 1, e.routes, wanted, wanted);
    NewestCovers(w.tables, t, since, wanted, blocks);
    assert (w.tables + [t])[|w.tables + [t]| - 1] == t;
  }

  lemma StillCovers(w: Plant, e: Event, since: nat, wanted: seq<PromotionRoute>, blocks: multiset<nat>)
    requires Sound(w) && Enabled(w, e) && since < |w.tables| && AllCover(w.tables, since, wanted, blocks)
    requires KeepsIdentities(w, e, wanted, NewestIdentities(w.tables, wanted))
    ensures AllCover(After(w, e).tables, since, wanted, blocks) && since < |After(w, e).tables|
    ensures NewestIdentities(After(w, e).tables, wanted) == NewestIdentities(w.tables, wanted)
  {
    if e.Compile? {
      CompiledCovers(w, e, since, wanted, blocks);
    } else {
      assert After(w, e).tables == w.tables;
    }
  }

  lemma NewestCovers(tables: seq<ServedTable>, t: ServedTable, since: nat, wanted: seq<PromotionRoute>, blocks: multiset<nat>)
    requires since < |tables| && AllCover(tables, since, wanted, blocks)
    requires multiset(CoverOf(tables[|tables| - 1], wanted)) == multiset(CoverOf(t, wanted))
    ensures AllCover(tables + [t], since, wanted, blocks)
  {
  }

  /**
   * As long as every table built keeps the covered routes and their production
   * backends, any of them that is published reads the same counters.
   */
  lemma {:induction false} CoverageSurvives(w: Plant, run: seq<Event>, since: nat, wanted: seq<PromotionRoute>, blocks: multiset<nat>)
    requires Sound(w) && Runs(w, run) && since < |w.tables| && AllCover(w.tables, since, wanted, blocks)
    requires KeepsCovering(w, run, wanted, NewestIdentities(w.tables, wanted))
    ensures AllCover(Final(w, run).tables, since, wanted, blocks)
    decreases |run|
  {
    if run != [] {
      StillCovers(w, run[0], since, wanted, blocks);
      CoverageSurvives(After(w, run[0]), run[1..], since, wanted, blocks);
    }
  }

  /** What a pass sees of the published table, were it to read it at once. */
  function SightAt(w: Plant, wanted: seq<PromotionRoute>): Sight
    requires w.serving < |w.tables|
  {
    Sight(CoverOf(w.tables[w.serving], wanted), w.blocks, w.blocks)
  }

  lemma GrewNothing(h: Blocks)
    ensures Grew(h, h)
  {
  }

  lemma CoveredExist(t: ServedTable, bound: nat, wanted: seq<PromotionRoute>)
    requires SoundTable(t, bound)
    ensures forall b :: b in CoverOf(t, wanted) ==> b < bound
  {
    forall b | b in CoverOf(t, wanted) ensures b < bound {
      var id := OwnerOf(t, bound, wanted, b);
    }
  }

  lemma SightIsSound(w: Plant, wanted: seq<PromotionRoute>)
    requires Sound(w)
    ensures SoundSight(SightAt(w, wanted))
  {
    GrewNothing(w.blocks);
    CoveredExist(w.tables[w.serving], |w.blocks|, wanted);
  }

  function RecordedIn(run: seq<Event>, canary: bool): nat -> RouteTotals {
    (b: nat) => Recorded(run, b, canary)
  }

  lemma ServedAreRecorded(w: Plant, run: seq<Event>, blocks: seq<nat>)
    requires Sound(w) && Runs(w, run)
    ensures Sum(blocks, Since(CanaryIn(w.blocks), CanaryIn(Final(w, run).blocks))) == Sum(blocks, RecordedIn(run, true))
    ensures Sum(blocks, Since(StableIn(w.blocks), StableIn(Final(w, run).blocks))) == Sum(blocks, RecordedIn(run, false))
  {
    forall i | 0 <= i < |blocks|
      ensures Since(CanaryIn(w.blocks), CanaryIn(Final(w, run).blocks))(blocks[i]) == RecordedIn(run, true)(blocks[i])
      ensures Since(StableIn(w.blocks), StableIn(Final(w, run).blocks))(blocks[i]) == RecordedIn(run, false)(blocks[i])
    {
      ServedIsRecorded(w, run, blocks[i]);
    }
    SumAgrees(blocks, Since(CanaryIn(w.blocks), CanaryIn(Final(w, run).blocks)), RecordedIn(run, true));
    SumAgrees(blocks, Since(StableIn(w.blocks), StableIn(Final(w, run).blocks)), RecordedIn(run, false));
  }

  lemma SightsInTurn(w: Plant, run: seq<Event>, wanted: seq<PromotionRoute>)
    requires Sound(w) && Runs(w, run)
    ensures Sound(Final(w, run)) && InTurn(SightAt(w, wanted), SightAt(Final(w, run), wanted))
  {
    RunsGrow(w, run);
    SightIsSound(w, wanted);
    SightIsSound(Final(w, run), wanted);
  }

  /**
   * As long as every table built keeps the covered routes and their production
   * backends, a window counts the responses the covered routes gave between its
   * two readings, the canary's and the rest, whichever of those tables is
   * published.
   */
  lemma CoveredResponsesAreCounted(w: Plant, run: seq<Event>, since: nat, wanted: seq<PromotionRoute>, blocks: multiset<nat>)
    requires Sound(w) && Runs(w, run) && AllCover(w.tables, since, wanted, blocks) && since <= w.serving
    requires KeepsCovering(w, run, wanted, NewestIdentities(w.tables, wanted))
    requires since <= Final(w, run).serving < |Final(w, run).tables|
    ensures var now := SightAt(Final(w, run), wanted);
            WindowBetween(Seen(SightAt(w, wanted)), Seen(now))
            == Window(Sum(now.blocks, RecordedIn(run, true)), Sum(now.blocks, RecordedIn(run, false)))
  {
    var a, b := SightAt(w, wanted), SightAt(Final(w, run), wanted);
    CoverageSurvives(w, run, since, wanted, blocks);
    SightsInTurn(w, run, wanted);
    assert multiset(a.blocks) == blocks && multiset(b.blocks) == blocks;
    SameBlocksAreExact(a, b);
    ServedAreRecorded(w, run, b.blocks);
  }

  // -------------------------------------------------------------------------
  // Over a run of passes
  // -------------------------------------------------------------------------

  /** What a pass loads: the published table, and its counters while they are read. */
  datatype Look = Look(table: ServedTable, early: Blocks, late: Blocks)

  ghost predicate SoundLook(l: Look) {
    && |l.table.routes| == |l.table.stats.slots| && (forall b :: b in l.table.stats.slots ==> b < |l.early|)
    && AllWhole(l.early) && Grew(l.early, l.late)
  }

  /** Each unpinned pass reads what it looks at, one after another. */
  ghost predicate Looking(passes: seq<Pass>, looks: seq<Look>, k: ObjectKey) {
    && |looks| == |passes|
    && (forall i :: 0 <= i < |passes| ==> SoundLook(looks[i]) && (!passes[i].pinned ==> LooksAt(passes[i], looks[i], k)))
    && (forall i, j :: 0 <= i < j < |looks| ==> Grew(looks[i].late, looks[j].early))
  }

  ghost predicate LooksAt(p: Pass, l: Look, k: ObjectKey)
    requires SoundLook(l)
  {
    p.table(k) == Rows(l.table.routes, l.table.stats.slots, SeenOf(l.early, l.late))
  }

  /** The sight a pass takes of a target, if it takes one. */
  ghost function Sighted(m: Memory, p: Pass, t: PromotionTarget, l: Look): seq<Sight>
    requires SoundLook(l)
  {
    var blocks := CoveredBlocks(l.table.routes, l.table.stats.slots, t.routes);
    if Skipped(m, t) || Deadline(m, p, t) > p.now || blocks == [] then [] else [Sight(blocks, l.early, l.late)]
  }

  lemma TakenIsSighted(m: Memory, p: Pass, t: PromotionTarget, l: Look)
    requires SoundLook(l) && LooksAt(p, l, t.ingress)
    ensures Taken(m, p, t) == MapSeq(Seen, Sighted(m, p, t, l))
    ensures forall s :: s in Sighted(m, p, t, l) ==> SoundSight(s)
  {
    ReadingIsSeen(l.table, t.routes, l.early, l.late);
  }

  /** Every sight of the canary a run takes. */
  ghost function Sights(m: Memory, passes: seq<Pass>, places: seq<nat>, k: ObjectKey, looks: seq<Look>): seq<Sight>
    requires KeepsListing(passes, places, k) && Looking(passes, looks, k)
  {
    if passes == [] then []
    else
      var n := |passes| - 1;
      var before := Sights(m, passes[..n], places[..n], k, looks[..n]);
      if passes[n].pinned then before
      else before + Sighted(AfterPasses(m, passes[..n]), passes[n], passes[n].targets[places[n]], looks[n])
  }

  ghost predicate Chained(ss: seq<Sight>) {
    forall i, j :: 0 <= i < j < |ss| ==> InTurn(ss[i], ss[j])
  }

  lemma MapAppended<A, B>(f: A -> B, a: seq<A>, b: seq<A>)
    ensures MapSeq(f, a + b) == MapSeq(f, a) + MapSeq(f, b)
  {
  }

  lemma OneMoreSight(ss: seq<Sight>, more: seq<Sight>, early: Blocks)
    requires Chained(ss) && |more| <= 1 && (more != [] ==> SoundSight(more[0]) && more[0].early == early)
    requires forall s :: s in ss ==> SoundSight(s) && Grew(s.late, early)
    ensures Chained(ss + more)
  {
    forall i, j | 0 <= i < j < |ss + more| ensures InTurn((ss + more)[i], (ss + more)[j]) {
      assert ss[i] in ss;
      if j < |ss| {
        assert InTurn(ss[i], ss[j]);
      }
    }
  }

  /** Readings are sights seen, and each sight is over before the next. */
  lemma {:induction false} ReadingsAreSights(m: Memory, passes: seq<Pass>, places: seq<nat>, k: ObjectKey, looks: seq<Look>)
    requires KeepsListing(passes, places, k) && Looking(passes, looks, k) && k !in m.baselines
    ensures Readings(m, passes, places, k) == MapSeq(Seen, Sights(m, passes, places, k, looks))
    ensures Chained(Sights(m, passes, places, k, looks))
    ensures forall s :: s in Sights(m, passes, places, k, looks) ==>
              SoundSight(s) && exists i :: 0 <= i < |looks| && s.early == looks[i].early && s.late == looks[i].late
  {
    if passes != [] {
      var n := |passes| - 1;
      ReadingsAreSights(m, passes[..n], places[..n], k, looks[..n]);
      var before := Sights(m, passes[..n], places[..n], k, looks[..n]);
      if !passes[n].pinned {
        var t := passes[n].targets[places[n]];
        var more := Sighted(AfterPasses(m, passes[..n]), passes[n], t, looks[n]);
        TakenIsSighted(AfterPasses(m, passes[..n]), passes[n], t, looks[n]);
        MapAppended(Seen, before, more);
        OneMoreSight(before, more, looks[n].early);
      }
    }
  }

  lemma {:induction false} NeighbourAt(rs: seq<Baseline>, i: nat)
    ensures |Neighbours(rs)| == if rs == [] then 0 else |rs| - 1
    ensures i + 1 < |rs| ==> Neighbours(rs)[i] == WindowBetween(rs[i], rs[i + 1])
  {
    if |rs| >= 2 {
      NeighbourAt(rs[..|rs| - 1], i);
    }
  }

  /**
   * Every window judged over a run of passes, whatever was served, built and
   * published meanwhile, is what was served since the last reading exactly when
   * the blocks covered now held, then, what was read.
   */
  lemma JudgedIsServed(m: Memory, passes: seq<Pass>, places: seq<nat>, k: ObjectKey, looks: seq<Look>, i: nat)
    requires KeepsListing(passes, places, k) && Looking(passes, looks, k) && k !in m.baselines
    requires i < |WindowsAbout(k, AllDecisions(m, passes))|
    ensures var ss, w := Sights(m, passes, places, k, looks), WindowsAbout(k, AllDecisions(m, passes))[i];
            && i + 1 < |ss| && InTurn(ss[i], ss[i + 1])
            && var a, b := ss[i], ss[i + 1];
               && (w.canary == ServedCanary(a, b) <==> Exactly(ServedCanary(a, b), HeldCanary(a, b), Seen(a).canary))
               && (w.stable == ServedStable(a, b)
                   <==> Exactly(ServedStable(a, b), HeldStable(a, b), Slip(b).Plus(Seen(a).Stable())))
               && (multiset(a.blocks) == multiset(b.blocks) ==> w.canary == ServedCanary(a, b))
  {
    var ss := Sights(m, passes, places, k, looks);
    WindowsAreConsecutive(m, passes, places, k);
    ReadingsAreSights(m, passes, places, k, looks);
    NeighbourAt(MapSeq(Seen, ss), i);
    assert InTurn(ss[i], ss[i + 1]);
    WindowIsServedExactly(ss[i], ss[i + 1]);
    if multiset(ss[i].blocks) == multiset(ss[i + 1].blocks) {
      SameBlocksAreExact(ss[i], ss[i + 1]);
    }
  }

  /** The same blocks at every sight. */
  ghost predicate SameCover(ss: seq<Sight>) {
    forall i :: 0 <= i < |ss| ==> multiset(ss[i].blocks) == multiset(ss[0].blocks)
  }

  lemma CanaryNeverFalls(a: Sight, b: Sight)
    requires InTurn(a, b) && multiset(a.blocks) == multiset(b.blocks)
    ensures Seen(a).canary.AtMost(Seen(b).canary)
  {
    MomentsGrow(a, b);
    SumForgetsOrder(a.blocks, b.blocks, CanaryIn(a.late));
    forall i | 0 <= i < |b.blocks| ensures CanaryIn(a.late)(b.blocks[i]).AtMost(CanaryIn(b.late)(b.blocks[i])) {
      BlockAdvanced(a.late, b.late, b.blocks[i]);
    }
    SumAtMost(b.blocks, CanaryIn(a.late), CanaryIn(b.late));
  }

  lemma SteadyNeverFalls(ss: seq<Sight>)
    requires Chained(ss) && SameCover(ss)
    ensures NeverFalls(CanarySide(MapSeq(Seen, ss)))
  {
    var side := CanarySide(MapSeq(Seen, ss));
    forall i, j | 0 <= i < |side| && j == i + 1 && j < |side| ensures side[i].AtMost(side[j]) {
      assert InTurn(ss[i], ss[j]);
      CanaryNeverFalls(ss[i], ss[j]);
    }
  }

  lemma WholeSpan(a: Sight, b: Sight)
    requires a == b || InTurn(a, b)
    requires multiset(a.blocks) == multiset(b.blocks)
    ensures Seen(b).canary == Seen(a).canary.Plus(ServedCanary(a, b))
  {
    SumForgetsOrder(a.blocks, b.blocks, CanaryIn(a.late));
    if a == b {
      GrewNothing(a.late);
    } else {
      MomentsGrow(a, b);
    }
    HeldAndServed(a.late, b.late, b.blocks);
  }

  lemma Cancelled(a: RouteTotals, b: RouteTotals, c: RouteTotals)
    requires a.Plus(c) == c.Plus(b)
    ensures a == b
  {
  }

  /** While the covered blocks stay the same, every canary request between the first reading and the last is judged, once. */
  lemma SteadyTrafficIsJudged(m: Memory, passes: seq<Pass>, places: seq<nat>, k: ObjectKey, looks: seq<Look>)
    requires KeepsListing(passes, places, k) && Looking(passes, looks, k) && k !in m.baselines
    requires Sights(m, passes, places, k, looks) != [] && SameCover(Sights(m, passes, places, k, looks))
    ensures var ss := Sights(m, passes, places, k, looks);
            CanaryTotal(WindowsAbout(k, AllDecisions(m, passes))) == ServedCanary(ss[0], ss[|ss| - 1])
  {
    var ss := Sights(m, passes, places, k, looks);
    var first, last := ss[0], ss[|ss| - 1];
    ReadingsAreSights(m, passes, places, k, looks);
    JudgedIsRead(m, passes, places, k);
    SteadyNeverFalls(ss);
    assert |ss| > 1 ==> InTurn(first, last);
    WholeSpan(first, last);
    Cancelled(CanaryTotal(WindowsAbout(k, AllDecisions(m, passes))), ServedCanary(first, last), Seen(first).canary);
  }
}
