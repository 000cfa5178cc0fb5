/** Where a canary's windows miss, or miscount, what it served. */
module Miscounts {
  import opened Wrappers
  import opened Machine
  import opened Ordering
  import opened Objects
  import opened Annotations
  import opened Promotions
  import opened Promotion
  import opened RouteCounters
  import opened Traffic

  // -------------------------------------------------------------------------
  // Where windows miss
  // -------------------------------------------------------------------------

  const CANARY := ObjectKey("shop", "canary")
  const POLICY := PromotionPolicy(true, 1, [10, 20], 5.0, 2.0, 1, None)
  const HOME := PromotionRoute("*", "/", Prefix)
  const CART := PromotionRoute("*", "/cart", Prefix)
  const FORGETFUL := Memory(map[], map[], {}, false)

  function Requests(n: nat): RouteTotals {
    RouteTotals(n, 0, 0, 0)
  }

  function TargetFor(wanted: seq<PromotionRoute>): PromotionTarget {
    PromotionTarget(CANARY, None, wanted, 10, POLICY)
  }

  /** One pass over the canary alone, at what it looks at. */
  function PassOver(now: int, wanted: seq<PromotionRoute>, l: Look): Pass
    requires |l.table.routes| == |l.table.stats.slots|
  {
    Pass([TargetFor(wanted)], now, false, _ => Rows(l.table.routes, l.table.stats.slots, SeenOf(l.early, l.late)), _ => true)
  }

  function CoveredAt(l: Look, wanted: seq<PromotionRoute>): seq<nat>
    requires |l.table.routes| == |l.table.stats.slots|
  {
    CoveredBlocks(l.table.routes, l.table.stats.slots, wanted)
  }

  function SightOf(l: Look, wanted: seq<PromotionRoute>): Sight
    requires |l.table.routes| == |l.table.stats.slots|
  {
    Sight(CoveredAt(l, wanted), l.early, l.late)
  }

  lemma PassTakes(m: Memory, now: int, wanted: seq<PromotionRoute>, l: Look)
    requires CANARY !in m.finished && (CANARY in m.due ==> m.due[CANARY] <= now)
    requires |l.table.routes| == |l.table.stats.slots| && CoveredAt(l, wanted) != []
    ensures Taken(m, PassOver(now, wanted, l), TargetFor(wanted)) == [Seen(SightOf(l, wanted))]
    ensures CANARY !in m.baselines ==>
              var n := AfterPass(m, PassOver(now, wanted, l));
              CANARY !in n.finished && CANARY in n.due && n.due[CANARY] == now + SECOND
  {
    var p := PassOver(now, wanted, l);
    ReadingIsSeen(l.table, wanted, l.early, l.late);
    PassAlone(m, p, 0);
    if CANARY !in m.baselines {
      assert CanaryOf(AfterPass(m, p), CANARY) == CanaryOf(Visited(m, p, TargetFor(wanted)), CANARY);
    }
  }

  lemma OneMoreReading(m: Memory, passes: seq<Pass>, places: seq<nat>, k: ObjectKey, p: Pass)
    requires |passes| == |places| && !p.pinned && p.targets != []
    requires forall i :: 0 <= i < |passes| && !passes[i].pinned ==> places[i] < |passes[i].targets|
    ensures AfterPasses(m, passes + [p]) == AfterPass(AfterPasses(m, passes), p)
    ensures Readings(m, passes + [p], places + [0], k)
         == Readings(m, passes, places, k) + Taken(AfterPasses(m, passes), p, p.targets[0])
  {
    assert (passes + [p])[..|passes|] == passes && (places + [0])[..|passes|] == places;
  }

  lemma TwoReadings(m: Memory, p: Pass, q: Pass, k: ObjectKey, a: Baseline, b: Baseline)
    requires !p.pinned && !q.pinned && p.targets != [] && q.targets != [] && k !in m.baselines
    requires Taken(m, p, p.targets[0]) == [a] && Taken(AfterPass(m, p), q, q.targets[0]) == [b]
    ensures Readings(m, [p, q], [0, 0], k) == [a, b]
  {
    OneMoreReading(m, [], [], k, p);
    OneMoreReading(m, [p], [0], k, q);
    assert [] + [p] == [p] && [p] + [q] == [p, q] && [0] + [0] == [0, 0];
    assert [] + [0] == [0] && [a] + [b] == [a, b];
  }

  lemma ListedTwice(p: Pass, q: Pass, k: ObjectKey)
    requires |p.targets| == 1 && |q.targets| == 1 && p.targets[0].ingress == k && q.targets[0].ingress == k
    ensures KeepsListing([p, q], [0, 0], k)
  {
  }

  /** Two looks, one window: the decision a new process takes on its second pass. */
  lemma TwoLooks(before: Look, wanted: seq<PromotionRoute>, after: Look, now: seq<PromotionRoute>)
    requires |before.table.routes| == |before.table.stats.slots| && CoveredAt(before, wanted) != []
    requires |after.table.routes| == |after.table.stats.slots| && CoveredAt(after, now) != []
    ensures WindowsAbout(CANARY, AllDecisions(FORGETFUL, [PassOver(0, wanted, before), PassOver(SECOND, now, after)]))
         == [WindowBetween(Seen(SightOf(before, wanted)), Seen(SightOf(after, now)))]
  {
    var p, q := PassOver(0, wanted, before), PassOver(SECOND, now, after);
    PassTakes(FORGETFUL, 0, wanted, before);
    PassTakes(AfterPass(FORGETFUL, p), SECOND, now, after);
    var rs := [Seen(SightOf(before, wanted)), Seen(SightOf(after, now))];
    TwoReadings(FORGETFUL, p, q, CANARY, rs[0], rs[1]);
    ListedTwice(p, q, CANARY);
    WindowsAreConsecutive(FORGETFUL, [p, q], [0, 0], CANARY);
    assert rs[..1] == [rs[0]] && Neighbours(rs[..1]) == [];
  }

  const WEB := CountedRoute(CatchAll, "/", Prefix, "shop/web:80")
  const MOVED := CountedRoute(CatchAll, "/", Prefix, "shop/api:80")
  const BASKET := CountedRoute(CatchAll, "/cart", Prefix, "shop/web:80")

  /** Both blocks alike: every request went to the canary. */
  function AllCanary(n: nat): Baseline {
    Baseline(Requests(n), Requests(n))
  }

  function Single(r: CountedRoute, block: nat): ServedTable {
    ServedTable([r], RouteStats([block], map[IdentityOf(r) := block]))
  }

  function LookAt(w: Plant): Look
    requires w.serving < |w.tables|
  {
    Look(w.tables[w.serving], w.blocks, w.blocks)
  }

  function Start(): Plant {
    Plant([AllCanary(10)], [Single(WEB, 0)], 0)
  }

  /** The production backend moves, and the route then serves `n` canary requests. */
  function MoveThenServe(n: nat): seq<Event> {
    [Compile(Some(0), [MOVED]), Publish(1), Respond(1, Requests(n), true)]
  }

  function AfterMove(n: nat): Plant {
    Plant([AllCanary(10), AllCanary(n)], [Single(WEB, 0), Single(MOVED, 1)], 1)
  }

  lemma MoveRebuilds()
    ensures Distinct(Identities([MOVED]))
    ensures Rebuilt(Identities([MOVED]), Some(Single(WEB, 0).stats), 1) == (Single(MOVED, 1).stats, 2)
  {
    var ids, previous := Identities([MOVED]), Some(Single(WEB, 0).stats);
    assert ids == [IdentityOf(MOVED)] && ids[..|ids| - 1] == [];
    assert IdentityOf(MOVED).backend[5] != IdentityOf(WEB).backend[5];
    assert Carried(previous, IdentityOf(MOVED)) == None;
    assert Rebuilt([], previous, 1) == (NO_STATS, 1);
    assert Rebuilt(ids, previous, 1)
        == (RouteStats([] + [1], map[][IdentityOf(MOVED) := 1]), 2);
    assert [] + [1] == [1];
  }

  lemma StartIsSound()
    ensures Sound(Start())
  {
    assert Identities([WEB]) == [IdentityOf(WEB)];
    assert SoundTable(Single(WEB, 0), 1);
  }

  /** A run taken one event at a time, from its last back. */
  lemma Preceded(w: Plant, e: Event, rest: seq<Event>)
    requires Sound(w) && Enabled(w, e) && Sound(After(w, e)) && Runs(After(w, e), rest)
    ensures Runs(w, [e] + rest) && Final(w, [e] + rest) == Final(After(w, e), rest)
  {
    assert ([e] + rest)[1..] == rest;
  }

  lemma MoveHappens(n: nat)
    ensures Sound(Start()) && Runs(Start(), MoveThenServe(n)) && Final(Start(), MoveThenServe(n)) == AfterMove(n)
  {
    StartIsSound();
    MoveRebuilds();
    var w, x, y := Start(), AfterMove(0).(serving := 0), AfterMove(0);
    var compile, publish, respond := Compile(Some(0), [MOVED]), Publish(1), Respond(1, Requests(n), true);
    StaysSound(w, compile);
    assert After(w, compile) == x;
    StaysSound(x, publish);
    assert After(x, publish) == y;
    StaysSound(y, respond);
    NothingBefore(Requests(n));
    assert After(y, respond) == AfterMove(n);
    Preceded(y, respond, []);
    assert [respond] + [] == [respond];
    Preceded(x, publish, [respond]);
    Preceded(w, compile, [publish] + [respond]);
    assert [compile] + ([publish] + [respond]) == MoveThenServe(n);
  }

  lemma OneCovered(r: CountedRoute, block: nat)
    requires r.host == CatchAll && r.path == "/" && r.pathType == Prefix
    ensures CoveredBlocks([r], [block], [HOME]) == [block]
  {
    assert HOME in [HOME] && [r][..0] == [] && [block][..0] == [];
    assert Covers(r, [HOME]);
  }

  lemma OneSeen(block: nat, h: Blocks)
    ensures Seen(Sight([block], h, h)) == BlockIn(h, block)
  {
    OneInSum(block, TotalsIn(h));
    OneInSum(block, CanaryIn(h));
  }

  lemma OneInSum(block: nat, part: nat -> RouteTotals)
    ensures Sum([block], part) == part(block)
  {
    LastOfSum([block], part);
    assert [block][..|[block]| - 1] == [];
    NoSum(part);
    NothingBefore(part(block));
  }

  lemma NothingBefore(x: RouteTotals)
    ensures ZERO.Plus(x) == x
  {
  }

  /** The two passes around it. */
  ghost function AroundMove(n: nat): seq<Pass> {
    [PassOver(0, [HOME], LookAt(Start())), PassOver(SECOND, [HOME], LookAt(AfterMove(n)))]
  }

  /** A production backend that moves takes the first ten of what follows for what went before. */
  lemma MoveMiscounts(n: nat)
    ensures Sound(Start()) && Runs(Start(), MoveThenServe(n)) && Final(Start(), MoveThenServe(n)) == AfterMove(n)
    ensures Recorded(MoveThenServe(n), 1, true).requests == n
    ensures var ws := WindowsAbout(CANARY, AllDecisions(FORGETFUL, AroundMove(n)));
            |ws| == 1 && ws[0].canary.requests == Monus(n, 10)
  {
    MoveHappens(n);
    MoveIsRecorded(n);
    OneCovered(WEB, 0);
    OneCovered(MOVED, 1);
    OneSeen(0, Start().blocks);
    OneSeen(1, AfterMove(n).blocks);
    TwoLooks(LookAt(Start()), [HOME], LookAt(AfterMove(n)), [HOME]);
  }

  lemma MoveIsRecorded(n: nat)
    ensures Recorded(MoveThenServe(n), 1, true) == Requests(n)
  {
    var run := MoveThenServe(n);
    assert run[1..] == [Publish(1), Respond(1, Requests(n), true)];
    assert run[1..][1..] == [Respond(1, Requests(n), true)] && run[1..][1..][1..] == [];
    NothingCounts(Requests(n));
    NothingBefore(Requests(n));
    assert Recorded(run[1..][1..], 1, true) == Requests(n).Plus(Recorded([], 1, true));
    assert Recorded(run[1..], 1, true) == ZERO.Plus(Recorded(run[1..][1..], 1, true));
    assert Recorded(run, 1, true) == ZERO.Plus(Recorded(run[1..], 1, true));
  }

  /** Four requests served after the move: none is judged. */
  lemma ServedAndLost()
    ensures Recorded(MoveThenServe(4), 1, true).requests == 4
    ensures var ws := WindowsAbout(CANARY, AllDecisions(FORGETFUL, AroundMove(4))); |ws| == 1 && ws[0].canary.requests == 0
  {
    MoveMiscounts(4);
  }

  /** Twelve: the new counter overtakes the old reading, no reading falls, and two are judged. */
  lemma ServedAndOvertaken()
    ensures Recorded(MoveThenServe(12), 1, true).requests == 12
    ensures var ws := WindowsAbout(CANARY, AllDecisions(FORGETFUL, AroundMove(12))); |ws| == 1 && ws[0].canary.requests == 2
  {
    MoveMiscounts(12);
  }

  /** Two routes of one backend; the second's past is the canary's too. */
  function TwoRoutes(served: nat): Plant {
    Plant([AllCanary(10 + served), AllCanary(7)],
          [ServedTable([WEB, BASKET], RouteStats([0, 1], map[IdentityOf(WEB) := 0, IdentityOf(BASKET) := 1]))], 0)
  }

  lemma TwoRoutesServe(n: nat)
    ensures Sound(TwoRoutes(0)) && Runs(TwoRoutes(0), [Respond(0, Requests(n), true)])
    ensures Final(TwoRoutes(0), [Respond(0, Requests(n), true)]) == TwoRoutes(n)
  {
    var w, e := TwoRoutes(0), Respond(0, Requests(n), true);
    assert Identities([WEB, BASKET]) == [IdentityOf(WEB), IdentityOf(BASKET)];
    assert IdentityOf(WEB).path != IdentityOf(BASKET).path;
    assert SoundTable(w.tables[0], 2);
    StaysSound(w, e);
    assert After(w, e) == TwoRoutes(n);
    Preceded(w, e, []);
    assert [e] + [] == [e];
  }

  lemma CoveredAtHome()
    ensures CoveredBlocks([WEB, BASKET], [0, 1], [HOME]) == [0]
    ensures CoveredBlocks([WEB, BASKET], [0, 1], [HOME, CART]) == [0, 1]
  {
    assert [WEB, BASKET][..1] == [WEB] && [0, 1][..1] == [0];
    assert [WEB][..0] == [] && [0][..0] == [];
    assert HOME in [HOME] && HOME in [HOME, CART] && CART in [HOME, CART];
    assert Covers(WEB, [HOME]) && Covers(WEB, [HOME, CART]) && Covers(BASKET, [HOME, CART]) && !Covers(BASKET, [HOME]);
    assert CoveredBlocks([WEB], [0], [HOME]) == [0] && CoveredBlocks([WEB], [0], [HOME, CART]) == [0];
  }

  lemma TwoInSum(part: nat -> RouteTotals)
    ensures Sum([0, 1], part) == part(0).Plus(part(1))
  {
    LastOfSum([0, 1], part);
    assert [0, 1][..|[0, 1]| - 1] == [0];
    OneInSum(0, part);
  }

  /** A route newly covered brings its whole past into one window. */
  lemma NewlyCoveredCountsItsPast(n: nat)
    ensures Sound(TwoRoutes(0)) && Runs(TwoRoutes(0), [Respond(0, Requests(n), true)])
    ensures Final(TwoRoutes(0), [Respond(0, Requests(n), true)]) == TwoRoutes(n)
    ensures var passes := [PassOver(0, [HOME], LookAt(TwoRoutes(0))), PassOver(SECOND, [HOME, CART], LookAt(TwoRoutes(n)))];
            var ws := WindowsAbout(CANARY, AllDecisions(FORGETFUL, passes));
            |ws| == 1 && ws[0].canary.requests == n + 7
  {
    TwoRoutesServe(n);
    CoveredAtHome();
    TwoLooks(LookAt(TwoRoutes(0)), [HOME], LookAt(TwoRoutes(n)), [HOME, CART]);
    OneSeen(0, TwoRoutes(0).blocks);
    TwoInSum(TotalsIn(TwoRoutes(n).blocks));
    TwoInSum(CanaryIn(TwoRoutes(n).blocks));
  }

  /** Counters as they are while a reading is made that `n` canary responses get into. */
  function Racing(n: nat): Look {
    Look(Single(WEB, 0), [Baseline(Requests(10), ZERO)], [Baseline(Requests(10 + n), Requests(n))])
  }

  function Settled(n: nat): Look {
    Look(Single(WEB, 0), [Baseline(Requests(10 + n), Requests(n))], [Baseline(Requests(10 + n), Requests(n))])
  }

  lemma OneRead(block: nat, early: Blocks, late: Blocks)
    ensures Seen(Sight([block], early, late)) == Baseline(BlockIn(early, block).totals, BlockIn(late, block).canary)
  {
    OneInSum(block, TotalsIn(early));
    OneInSum(block, CanaryIn(late));
  }

  lemma OneServed(block: nat, h: Blocks, g: Blocks)
    ensures Sum([block], Since(StableIn(h), StableIn(g))) == BlockIn(g, block).Stable().Minus(BlockIn(h, block).Stable())
  {
    OneInSum(block, Since(StableIn(h), StableIn(g)));
  }

  lemma RacingIsSound(n: nat)
    ensures SoundLook(Racing(n)) && SoundLook(Settled(n)) && Grew(Racing(n).late, Settled(n).early)
  {
    assert Whole(Racing(n).early[0]) && Whole(Settled(n).early[0]);
    assert Advances(Racing(n).early[0], Racing(n).late[0]);
  }

  lemma RacingWindow(n: nat)
    requires n <= 10
    ensures WindowBetween(Baseline(Requests(10), Requests(n)), Baseline(Requests(10 + n), Requests(n))).stable.requests == n
  {
  }

  lemma RaceWindow(n: nat)
    ensures WindowsAbout(CANARY, AllDecisions(FORGETFUL, [PassOver(0, [HOME], Racing(n)), PassOver(SECOND, [HOME], Settled(n))]))
         == [WindowBetween(Baseline(Requests(10), Requests(n)), Baseline(Requests(10 + n), Requests(n)))]
  {
    OneCovered(WEB, 0);
    OneRead(0, Racing(n).early, Racing(n).late);
    OneRead(0, Settled(n).early, Settled(n).late);
    TwoLooks(Racing(n), [HOME], Settled(n), [HOME]);
  }

  lemma RaceServesNoStable(n: nat)
    ensures CoveredAt(Racing(n), [HOME]) == [0] && CoveredAt(Settled(n), [HOME]) == [0]
    ensures ServedStable(SightOf(Racing(n), [HOME]), SightOf(Settled(n), [HOME])).requests == 0
  {
    OneCovered(WEB, 0);
    OneServed(0, Racing(n).early, Settled(n).early);
  }

  /** Canary responses that land between reading a total and its canary part are counted as stable next time. */
  lemma RaceOvercountsStable(n: nat)
    requires n <= 10
    ensures SoundLook(Racing(n)) && SoundLook(Settled(n)) && Grew(Racing(n).late, Settled(n).early)
    ensures ServedStable(SightOf(Racing(n), [HOME]), SightOf(Settled(n), [HOME])).requests == 0
    ensures var ws := WindowsAbout(CANARY, AllDecisions(FORGETFUL, [PassOver(0, [HOME], Racing(n)), PassOver(SECOND, [HOME], Settled(n))]));
            |ws| == 1 && ws[0].stable.requests == n
  {
    RacingIsSound(n);
    RaceServesNoStable(n);
    RaceWindow(n);
    RacingWindow(n);
  }
}
