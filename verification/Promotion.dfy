/** Automatic promotion: judging a canary's window, and acting on the verdict. */
module Promotion {
  import opened Wrappers
  import opened Machine
  import opened Ordering
  import opened TextOps
  import opened Objects
  import opened Annotations
  import opened Promotions

  // Instants and durations are nanoseconds.
  const SECOND: int := 1_000_000_000
  const IDLE_POLL: int := 30 * SECOND
  const MIN_TICK: int := SECOND

  // -------------------------------------------------------------------------
  // Counters
  // -------------------------------------------------------------------------

  datatype RouteTotals = RouteTotals(requests: nat, errors5xx: nat, latencyMicros: nat, latencyCount: nat) {
    function Plus(that: RouteTotals): RouteTotals {
      RouteTotals(requests + that.requests, errors5xx + that.errors5xx,
                  latencyMicros + that.latencyMicros, latencyCount + that.latencyCount)
    }

    /** Field by field, never below zero. */
    function Minus(that: RouteTotals): RouteTotals {
      RouteTotals(Monus(requests, that.requests), Monus(errors5xx, that.errors5xx),
                  Monus(latencyMicros, that.latencyMicros), Monus(latencyCount, that.latencyCount))
    }

    predicate AtMost(that: RouteTotals) {
      && requests <= that.requests && errors5xx <= that.errors5xx
      && latencyMicros <= that.latencyMicros && latencyCount <= that.latencyCount
    }
  }

  const ZERO := RouteTotals(0, 0, 0, 0)

  function Monus(a: nat, b: nat): nat {
    if a >= b then a - b else 0
  }

  /** Counters at one reading; a canary's requests count in both. */
  datatype Baseline = Baseline(totals: RouteTotals, canary: RouteTotals) {
    function Stable(): RouteTotals {
      totals.Minus(canary)
    }
  }

  datatype Window = Window(canary: RouteTotals, stable: RouteTotals)

  function WindowBetween(previous: Baseline, reading: Baseline): Window {
    Window(reading.canary.Minus(previous.canary), reading.Stable().Minus(previous.Stable()))
  }

  // -------------------------------------------------------------------------
  // The verdict
  // -------------------------------------------------------------------------

  datatype Breach =
    | TooManyErrors(percent: real, budget: real)
    | TooSlow(canaryMs: real, ceilingMs: real)

  datatype Verdict = Hold | Step(to: u32) | Promote | RollBack(breach: Breach)

  function ErrorPercent(t: RouteTotals): Option<real> {
    if t.requests == 0 then None else Some(t.errors5xx as real * 100.0 / t.requests as real)
  }

  function MeanLatency(t: RouteTotals): Option<real> {
    if t.latencyCount == 0 then None else Some(t.latencyMicros as real / 1000.0 / t.latencyCount as real)
  }

  /** The traffic gate, the error budget, the latency ceiling, in that order. */
  function Decide(policy: PromotionPolicy, weight: u32, w: Window): Verdict {
    if w.canary.requests < policy.minRequests || w.stable.requests < policy.minRequests then Hold
    else
      var percent := ErrorPercent(w.canary);
      if percent.Some? && percent.value > policy.max5xxPercent then
        RollBack(TooManyErrors(percent.value, policy.max5xxPercent))
      else
        var canary, stable := MeanLatency(w.canary), MeanLatency(w.stable);
        if canary.Some? && stable.Some? && canary.value > stable.value * policy.maxLatencyFactor then
          RollBack(TooSlow(canary.value, stable.value * policy.maxLatencyFactor))
        else
          match NextStep(policy.steps, weight)
          case Some(to) => Step(to)
          case None => Promote
  }

  predicate EnoughTraffic(policy: PromotionPolicy, w: Window) {
    w.canary.requests >= policy.minRequests && w.stable.requests >= policy.minRequests
  }

  /** The gates with the divisions cleared. */
  predicate OverBudget(policy: PromotionPolicy, w: Window) {
    w.canary.requests > 0 && w.canary.errors5xx as real * 100.0 > policy.max5xxPercent * w.canary.requests as real
  }

  predicate OverCeiling(policy: PromotionPolicy, w: Window) {
    && w.canary.latencyCount > 0 && w.stable.latencyCount > 0
    && w.canary.latencyMicros as real * w.stable.latencyCount as real
       > w.stable.latencyMicros as real * policy.maxLatencyFactor * w.canary.latencyCount as real
  }

  lemma QuotientExceeds(a: real, b: real, c: real)
    requires b > 0.0
    ensures a / b > c <==> a > c * b
  {
    assert a == a / b * b;
  }

  lemma LatencyGate(cl: real, cc: real, sl: real, sc: real, f: real)
    requires cc > 0.0 && sc > 0.0
    ensures cl / 1000.0 / cc > sl / 1000.0 / sc * f <==> cl * sc > sl * f * cc
  {
    var s := sl / sc;
    assert sl / 1000.0 / sc == s / 1000.0;
    assert sl == s * sc;
    QuotientExceeds(cl / 1000.0, cc, s / 1000.0 * f);
    assert cl / 1000.0 > s / 1000.0 * f * cc <==> cl > s * f * cc;
    ScaleBoth(cl, s * f * cc, sc);
    assert s * f * cc * sc == s * sc * f * cc;
  }

  lemma ScaleBoth(a: real, b: real, c: real)
    requires c > 0.0
    ensures a > b <==> a * c > b * c
  {
    assert a * c - b * c == (a - b) * c;
  }

  /** What the verdict means: each outcome exactly when its gates say so. */
  lemma DecideExactly(policy: PromotionPolicy, weight: u32, w: Window)
    ensures Decide(policy, weight, w).Hold? <==> !EnoughTraffic(policy, w)
    ensures Decide(policy, weight, w).RollBack? <==>
              EnoughTraffic(policy, w) && (OverBudget(policy, w) || OverCeiling(policy, w))
    ensures Decide(policy, weight, w).Promote? ==> NextStep(policy.steps, weight) == None
    ensures Decide(policy, weight, w).Step? ==> NextStep(policy.steps, weight) == Some(Decide(policy, weight, w).to)
  {
    if w.canary.requests > 0 {
      QuotientExceeds(w.canary.errors5xx as real * 100.0, w.canary.requests as real, policy.max5xxPercent);
    }
    if w.canary.latencyCount > 0 && w.stable.latencyCount > 0 {
      LatencyGate(w.canary.latencyMicros as real, w.canary.latencyCount as real,
                  w.stable.latencyMicros as real, w.stable.latencyCount as real, policy.maxLatencyFactor);
    }
  }

  predicate Terminal(status: Option<string>) {
    RolledBack(status) || status == Some(STATUS_PROMOTED)
  }

  predicate IsFinished(policy: PromotionPolicy) {
    Terminal(policy.status)
  }

  // -------------------------------------------------------------------------
  // Reading the counters
  // -------------------------------------------------------------------------

  /** `slot` is the route's counters: everything, and the canary's share. */
  datatype TableRoute = TableRoute(host: RouteHost, path: string, pathType: PathType, slot: Option<Baseline>)

  predicate HostMatches(host: RouteHost, wanted: string) {
    match host
    case ExactHost(name) => wanted == name
    case WildcardHost(parent) => "*." <= wanted && wanted[2..] == parent
    case CatchAll => wanted == "*"
  }

  /** A target's host is compared to the table's without rendering it, to the same effect. */
  lemma HostMatchesDisplay(host: RouteHost, wanted: string)
    ensures HostMatches(host, wanted) <==> Displayed(host) == wanted
  {
    if host.WildcardHost? {
      assert ("*." + host.parent)[2..] == host.parent;
      assert "*." <= wanted ==> wanted == "*." + wanted[2..];
    }
  }

  predicate Wanted(route: TableRoute, routes: seq<PromotionRoute>) {
    exists r :: r in routes && HostMatches(route.host, r.host) && r.path == route.path && r.pathType == route.pathType
  }

  function Counted(table: seq<TableRoute>, routes: seq<PromotionRoute>): seq<Baseline> {
    if table == [] then []
    else
      var before, last := Counted(table[..|table| - 1], routes), table[|table| - 1];
      if Wanted(last, routes) && last.slot.Some? then before + [last.slot.value] else before
  }

  function SumOf(slots: seq<Baseline>): Baseline {
    if slots == [] then Baseline(ZERO, ZERO)
    else
      var before, last := SumOf(slots[..|slots| - 1]), slots[|slots| - 1];
      Baseline(before.totals.Plus(last.totals), before.canary.Plus(last.canary))
  }

  /** The counters of every covered route, summed; nothing when none is in the table. */
  function Reading(table: seq<TableRoute>, routes: seq<PromotionRoute>): Option<Baseline> {
    var slots := Counted(table, routes);
    if slots == [] then None else Some(SumOf(slots))
  }

  method Read(table: seq<TableRoute>, routes: seq<PromotionRoute>) returns (reading: Option<Baseline>)
    ensures reading == Reading(table, routes)
  {
    var sum, found := Baseline(ZERO, ZERO), false;
    for i := 0 to |table|
      invariant sum == SumOf(Counted(table[..i], routes))
      invariant found <==> Counted(table[..i], routes) != []
    {
      assert table[..i + 1][..i] == table[..i];
      if Wanted(table[i], routes) && table[i].slot.Some? {
        ghost var before, now := Counted(table[..i], routes), Counted(table[..i + 1], routes);
        assert now[..|now| - 1] == before;
        found := true;
        var slot := table[i].slot.value;
        sum := Baseline(sum.totals.Plus(slot.totals), sum.canary.Plus(slot.canary));
      }
    }
    assert table[..|table|] == table;
    reading := if found then Some(sum) else None;
  }

  // -------------------------------------------------------------------------
  // Windows
  // -------------------------------------------------------------------------

  /** The differences between neighbours, added up. */
  function Added(readings: seq<RouteTotals>): RouteTotals {
    if |readings| < 2 then ZERO
    else
      var n := |readings|;
      Added(readings[..n - 1]).Plus(readings[n - 1].Minus(readings[n - 2]))
  }

  ghost predicate NeverFalls(readings: seq<RouteTotals>) {
    forall i, j :: 0 <= i < |readings| && j == i + 1 && j < |readings| ==> readings[i].AtMost(readings[j])
  }

  /**
   * Windows add up to no less than the last reading less the first, and to just
   * that exactly when no reading falls. This is about readings: what they miss
   * of the traffic is another matter.
   */
  lemma {:induction false} WindowsPartition(readings: seq<RouteTotals>)
    requires readings != []
    ensures readings[|readings| - 1].AtMost(Added(readings).Plus(readings[0]))
    ensures Added(readings).Plus(readings[0]) == readings[|readings| - 1] <==> NeverFalls(readings)
  {
    var n := |readings|;
    if n > 1 {
      var init := readings[..n - 1];
      WindowsPartition(init);
      assert init[n - 2] == readings[n - 2];
      LastFall(readings);
    }
  }

  lemma LastFall(readings: seq<RouteTotals>)
    requires |readings| > 1
    ensures var n := |readings|;
            NeverFalls(readings) <==> NeverFalls(readings[..n - 1]) && readings[n - 2].AtMost(readings[n - 1])
  {
    var n := |readings|;
    var init := readings[..n - 1];
    assert forall i :: 0 <= i < n - 1 ==> init[i] == readings[i];
    if NeverFalls(init) && readings[n - 2].AtMost(readings[n - 1]) {
      forall i, j | 0 <= i < n && j == i + 1 && j < n ensures readings[i].AtMost(readings[j]) {
        assert j < n - 1 ==> init[i].AtMost(init[j]);
      }
    }
    if NeverFalls(readings) {
      forall i, j | 0 <= i < n - 1 && j == i + 1 && j < n - 1 ensures init[i].AtMost(init[j]) {
        assert readings[i].AtMost(readings[j]);
      }
    }
  }

  // -------------------------------------------------------------------------
  // The promoter
  // -------------------------------------------------------------------------

  /** What one process remembers. */
  datatype Memory = Memory(
    baselines: map<ObjectKey, Baseline>,
    due: map<ObjectKey, int>,
    finished: set<ObjectKey>,
    pinnedReported: bool)

  /** A merge patch: what it names is set, everything else is left alone. */
  datatype Patch = Patch(weight: Option<u32>, disarm: bool, status: Option<string>)

  type BreachPrinter = Breach -> string

  function PatchOf(render: BreachPrinter, v: Verdict): Option<Patch> {
    match v
    case Hold => None
    case Step(to) => Some(Patch(Some(to), false, None))
    case Promote => Some(Patch(None, false, Some(STATUS_PROMOTED)))
    case RollBack(breach) => Some(Patch(Some(0), true, Some(STATUS_ROLLED_BACK + ": " + render(breach))))
  }

  /** What one pass runs into: the pin, the clock, the tables loaded, the API server's answers. */
  datatype Pass = Pass(
    targets: seq<PromotionTarget>,
    now: int,
    pinned: bool,
    table: ObjectKey -> seq<TableRoute>,
    ok: ObjectKey -> bool)

  datatype Decision = Decision(ingress: ObjectKey, window: Window, verdict: Verdict)

  /** The decision taken about one target, if it has been read before and can be read now. */
  function Judged(m: Memory, p: Pass, t: PromotionTarget): Option<Decision> {
    match Reading(p.table(t.ingress), t.routes)
    case None => None
    case Some(reading) =>
      if t.ingress !in m.baselines then None
      else
        var w := WindowBetween(m.baselines[t.ingress], reading);
        Some(Decision(t.ingress, w, Decide(t.policy, t.weight, w)))
  }

  predicate Ends(v: Verdict) {
    v.Promote? || v.RollBack?
  }

  function Evaluated(m: Memory, p: Pass, t: PromotionTarget): Memory {
    match Reading(p.table(t.ingress), t.routes)
    case None => m
    case Some(reading) =>
      var read := m.(baselines := m.baselines[t.ingress := reading]);
      match Judged(m, p, t)
      case Some(d) => if Ends(d.verdict) && p.ok(t.ingress) then read.(finished := read.finished + {t.ingress}) else read
      case None => read
  }

  predicate Skipped(m: Memory, t: PromotionTarget) {
    IsFinished(t.policy) || t.ingress in m.finished
  }

  function Deadline(m: Memory, p: Pass, t: PromotionTarget): int {
    if t.ingress in m.due then m.due[t.ingress] else p.now
  }

  function Interval(t: PromotionTarget): int {
    t.policy.interval * SECOND
  }

  function Rescheduled(m: Memory, p: Pass, t: PromotionTarget): Memory {
    m.(due := m.due[t.ingress := p.now + Interval(t)])
  }

  function Visited(m: Memory, p: Pass, t: PromotionTarget): Memory {
    if Skipped(m, t) then m
    else if Deadline(m, p, t) > p.now then m.(due := m.due[t.ingress := Deadline(m, p, t)])
    else Evaluated(Rescheduled(m, p, t), p, t)
  }

  function VisitedAll(m: Memory, p: Pass, targets: seq<PromotionTarget>): Memory {
    if targets == [] then m
    else Visited(VisitedAll(m, p, targets[..|targets| - 1]), p, targets[|targets| - 1])
  }

  /** The decisions of a visit: none when skipped or not yet due. */
  function VisitDecision(m: Memory, p: Pass, t: PromotionTarget): seq<Decision> {
    if Skipped(m, t) || Deadline(m, p, t) > p.now then []
    else match Judged(m, p, t) case None => [] case Some(d) => [d]
  }

  function Decisions(m: Memory, p: Pass, targets: seq<PromotionTarget>): seq<Decision> {
    if targets == [] then []
    else
      var init, last := targets[..|targets| - 1], targets[|targets| - 1];
      Decisions(m, p, init) + VisitDecision(VisitedAll(m, p, init), p, last)
  }

  predicate Listed(targets: seq<PromotionTarget>, k: ObjectKey) {
    exists t :: t in targets && t.ingress == k
  }

  /** Canaries that have gone are forgotten. */
  function Retained(m: Memory, targets: seq<PromotionTarget>): Memory {
    Memory(map k | k in m.baselines && Listed(targets, k) :: m.baselines[k],
           map k | k in m.due && Listed(targets, k) :: m.due[k],
           (set k | k in m.finished && Listed(targets, k)),
           m.pinnedReported)
  }

  function AfterPass(m: Memory, p: Pass): Memory {
    if p.pinned then m.(pinnedReported := true)
    else VisitedAll(Retained(m, p.targets).(pinnedReported := false), p, p.targets)
  }

  function PassDecisions(m: Memory, p: Pass): seq<Decision> {
    if p.pinned then [] else Decisions(Retained(m, p.targets).(pinnedReported := false), p, p.targets)
  }

  class Promoter {
    var baselines: map<ObjectKey, Baseline>
    var due: map<ObjectKey, int>
    var finished: set<ObjectKey>
    var pinnedReported: bool
    ghost var decided: seq<Decision>
    const render: BreachPrinter

    ghost function Contents(): Memory
      reads this
    {
      Memory(baselines, due, finished, pinnedReported)
    }

    constructor (render: BreachPrinter)
      ensures Contents() == Memory(map[], map[], {}, false) && decided == [] && this.render == render
    {
      this.render := render;
      baselines, due, finished, pinnedReported, decided := map[], map[], {}, false, [];
    }

    /** Sends the patch the verdict asks for; only one that stuck finishes a canary. */
    method Apply(t: PromotionTarget, w: Window, v: Verdict, ok: bool) returns (patch: Option<Patch>)
      modifies this`finished, this`decided
      ensures patch == PatchOf(render, v)
      ensures finished == old(finished) + if Ends(v) && ok then {t.ingress} else {}
      ensures decided == old(decided) + [Decision(t.ingress, w, v)]
    {
      decided := decided + [Decision(t.ingress, w, v)];
      match v {
        case Hold => return None;
        case Step(to) => patch := Some(Patch(Some(to), false, None));
        case Promote => patch := Some(Patch(None, false, Some(STATUS_PROMOTED)));
        case RollBack(breach) => patch := Some(Patch(Some(0), true, Some(STATUS_ROLLED_BACK + ": " + render(breach))));
      }
      if !ok {
        return;
      }
      if v.Promote? || v.RollBack? {
        finished := finished + {t.ingress};
      }
    }

    method Evaluate(p: Pass, t: PromotionTarget) returns (patch: Option<Patch>)
      modifies this
      ensures Contents() == Evaluated(old(Contents()), p, t)
      ensures decided == old(decided) + match Judged(old(Contents()), p, t) case None => [] case Some(d) => [d]
      ensures patch == match Judged(old(Contents()), p, t) case None => None case Some(d) => PatchOf(render, d.verdict)
    {
      var reading := Read(p.table(t.ingress), t.routes);
      if reading.None? {
        return None;
      }
      if t.ingress !in baselines {
        baselines := baselines[t.ingress := reading.value];
        return None;
      }
      var previous := baselines[t.ingress];
      baselines := baselines[t.ingress := reading.value];
      var window := WindowBetween(previous, reading.value);
      patch := Apply(t, window, Decide(t.policy, t.weight, window), p.ok(t.ingress));
    }

    /** Visits one target, shortening the sleep to its next deadline. */
    method Visit(p: Pass, t: PromotionTarget, so: int) returns (next: int)
      modifies this
      ensures Contents() == Visited(old(Contents()), p, t)
      ensures decided == old(decided) + VisitDecision(old(Contents()), p, t)
      ensures next <= so
      ensures so > 0 && t.policy.interval > 0 ==> next > 0
      ensures !Skipped(old(Contents()), t) ==> t.ingress in due && next <= due[t.ingress] - p.now
    {
      next := so;
      if IsFinished(t.policy) || t.ingress in finished {
        return;
      }
      var deadline := if t.ingress in due then due[t.ingress] else p.now;
      if deadline > p.now {
        due := due[t.ingress := deadline];
        next := if deadline - p.now < next then deadline - p.now else next;
        return;
      }
      due := due[t.ingress := p.now + Interval(t)];
      next := if Interval(t) < next then Interval(t) else next;
      var _ := Evaluate(p, t);
    }

    /** Forgets the canaries that have gone. */
    method Retain(targets: seq<PromotionTarget>)
      modifies this
      ensures Contents() == Retained(old(Contents()), targets) && decided == old(decided)
    {
      baselines := map k | k in baselines && Listed(targets, k) :: baselines[k];
      due := map k | k in due && Listed(targets, k) :: due[k];
      finished := set k | k in finished && Listed(targets, k);
    }

    /** Visits the targets in turn; `next` is the nearest deadline still ahead. */
    method VisitEach(p: Pass) returns (next: int)
      modifies this
      ensures Contents() == VisitedAll(old(Contents()), p, p.targets)
      ensures decided == old(decided) + Decisions(old(Contents()), p, p.targets)
      ensures next <= IDLE_POLL
      ensures (forall t :: t in p.targets ==> t.policy.interval > 0) ==> next > 0
      ensures ReachesNext(Contents(), p, p.targets, next)
    {
      ghost var m, told := Contents(), decided;
      next := IDLE_POLL;
      for i := 0 to |p.targets|
        invariant Contents() == VisitedAll(m, p, p.targets[..i])
        invariant decided == told + Decisions(m, p, p.targets[..i])
        invariant next <= IDLE_POLL
        invariant (forall t :: t in p.targets ==> t.policy.interval > 0) ==> next > 0
        invariant ReachesNext(Contents(), p, p.targets[..i], next)
      {
        OneMoreVisit(m, p, i, told, next);
        assert p.targets[i] in p.targets;
        next := Visit(p, p.targets[i], next);
        VisitReaches(VisitedAll(m, p, p.targets[..i]), p, i, next);
      }
      assert p.targets[..|p.targets|] == p.targets;
    }

    /** One pass over every candidate; returns how long to sleep. */
    method RunPass(p: Pass) returns (sleep: int)
      modifies this
      ensures Contents() == AfterPass(old(Contents()), p)
      ensures decided == old(decided) + PassDecisions(old(Contents()), p)
      ensures p.pinned ==> sleep == IDLE_POLL
      ensures MIN_TICK <= sleep <= IDLE_POLL
      ensures !p.pinned && (forall t :: t in p.targets ==> t.policy.interval > 0) ==>
                forall t :: t in p.targets && !Skipped(Contents(), t) ==>
                  t.ingress in due && p.now + sleep < due[t.ingress] + MIN_TICK
    {
      if p.pinned {
        pinnedReported := true;
        return IDLE_POLL;
      }
      Retain(p.targets);
      pinnedReported := false;
      var next := VisitEach(p);
      sleep := if next < MIN_TICK then MIN_TICK else next;
    }
  }

  /** No unfinished target of these falls due before `next`. */
  ghost predicate ReachesNext(m: Memory, p: Pass, targets: seq<PromotionTarget>, next: int) {
    forall t :: t in targets && !Skipped(m, t) ==> t.ingress in m.due && next <= m.due[t.ingress] - p.now
  }

  lemma OneMoreVisit(m: Memory, p: Pass, i: nat, told: seq<Decision>, next: int)
    requires i < |p.targets|
    ensures VisitedAll(m, p, p.targets[..i + 1]) == Visited(VisitedAll(m, p, p.targets[..i]), p, p.targets[i])
    ensures told + Decisions(m, p, p.targets[..i]) + VisitDecision(VisitedAll(m, p, p.targets[..i]), p, p.targets[i])
         == told + Decisions(m, p, p.targets[..i + 1])
  {
    assert p.targets[..i + 1][..i] == p.targets[..i];
    ConcatAssociative(told, Decisions(m, p, p.targets[..i]), VisitDecision(VisitedAll(m, p, p.targets[..i]), p, p.targets[i]));
  }

  lemma VisitReaches(m: Memory, p: Pass, i: nat, next: int)
    requires i < |p.targets|
    requires exists so :: next <= so && ReachesNext(m, p, p.targets[..i], so)
    requires var n := Visited(m, p, p.targets[i]);
             !Skipped(m, p.targets[i]) ==> p.targets[i].ingress in n.due && next <= n.due[p.targets[i].ingress] - p.now
    ensures ReachesNext(Visited(m, p, p.targets[i]), p, p.targets[..i + 1], next)
  {
    VisitOnlyAdvances(m, p, p.targets[i]);
    assert forall t :: t in p.targets[..i + 1] <==> t in p.targets[..i] || t == p.targets[i];
  }

  lemma VisitOnlyAdvances(m: Memory, p: Pass, t: PromotionTarget)
    ensures m.finished <= Visited(m, p, t).finished
    ensures forall k :: k in m.due ==> k in Visited(m, p, t).due && m.due[k] <= Visited(m, p, t).due[k]
  {
  }

  // -------------------------------------------------------------------------
  // One canary among many
  // -------------------------------------------------------------------------

  /** What is remembered about one canary. */
  datatype Canary = Canary(baseline: Option<Baseline>, due: Option<int>, finished: bool)

  function CanaryOf(m: Memory, k: ObjectKey): Canary {
    Canary(if k in m.baselines then Some(m.baselines[k]) else None,
           if k in m.due then Some(m.due[k]) else None,
           k in m.finished)
  }

  function About(k: ObjectKey): Decision -> bool {
    (d: Decision) => d.ingress == k
  }

  ghost predicate DistinctTargets(targets: seq<PromotionTarget>) {
    forall i, j :: 0 <= i < j < |targets| ==> targets[i].ingress != targets[j].ingress
  }

  lemma OthersDoNotDisturb(m: Memory, p: Pass, t: PromotionTarget, k: ObjectKey)
    requires t.ingress != k
    ensures CanaryOf(Visited(m, p, t), k) == CanaryOf(m, k)
    ensures Keep(About(k), VisitDecision(m, p, t)) == []
  {
    NoMembers(Keep(About(k), VisitDecision(m, p, t)));
  }

  lemma JudgementLooksAtItsOwn(m: Memory, n: Memory, p: Pass, t: PromotionTarget)
    requires CanaryOf(m, t.ingress).baseline == CanaryOf(n, t.ingress).baseline
    ensures Judged(m, p, t) == Judged(n, p, t)
  {
  }

  lemma EvaluationLooksAtItsOwn(m: Memory, n: Memory, p: Pass, t: PromotionTarget)
    requires CanaryOf(m, t.ingress) == CanaryOf(n, t.ingress)
    ensures CanaryOf(Evaluated(m, p, t), t.ingress) == CanaryOf(Evaluated(n, p, t), t.ingress)
  {
    JudgementLooksAtItsOwn(m, n, p, t);
  }

  lemma SameGuards(m: Memory, n: Memory, p: Pass, t: PromotionTarget)
    requires CanaryOf(m, t.ingress) == CanaryOf(n, t.ingress)
    ensures Skipped(m, t) <==> Skipped(n, t)
    ensures Deadline(m, p, t) == Deadline(n, p, t)
  {
  }

  lemma DecisionLooksAtItsOwn(m: Memory, n: Memory, p: Pass, t: PromotionTarget)
    requires CanaryOf(m, t.ingress) == CanaryOf(n, t.ingress)
    ensures VisitDecision(m, p, t) == VisitDecision(n, p, t)
  {
    SameGuards(m, n, p, t);
    JudgementLooksAtItsOwn(m, n, p, t);
  }

  lemma VisitLooksAtItsOwn(m: Memory, n: Memory, p: Pass, t: PromotionTarget)
    requires CanaryOf(m, t.ingress) == CanaryOf(n, t.ingress)
    ensures CanaryOf(Visited(m, p, t), t.ingress) == CanaryOf(Visited(n, p, t), t.ingress)
    ensures VisitDecision(m, p, t) == VisitDecision(n, p, t)
  {
    DecisionLooksAtItsOwn(m, n, p, t);
    SameGuards(m, n, p, t);
    if !Skipped(m, t) && Deadline(m, p, t) <= p.now {
      EvaluationLooksAtItsOwn(Rescheduled(m, p, t), Rescheduled(n, p, t), p, t);
    }
  }

  lemma VisitDecidesItsOwn(m: Memory, p: Pass, t: PromotionTarget)
    ensures Keep(About(t.ingress), VisitDecision(m, p, t)) == VisitDecision(m, p, t)
  {
    var ds := VisitDecision(m, p, t);
    if ds != [] {
      assert ds[..0] == [] && Keep(About(t.ingress), ds[..0]) == [];
    }
  }

  lemma {:induction false} UnlistedUndisturbed(m: Memory, p: Pass, targets: seq<PromotionTarget>, k: ObjectKey)
    requires forall i :: 0 <= i < |targets| ==> targets[i].ingress != k
    ensures CanaryOf(VisitedAll(m, p, targets), k) == CanaryOf(m, k)
    ensures Keep(About(k), Decisions(m, p, targets)) == []
  {
    if targets != [] {
      var init, last := targets[..|targets| - 1], targets[|targets| - 1];
      UnlistedUndisturbed(m, p, init, k);
      OthersDoNotDisturb(VisitedAll(m, p, init), p, last, k);
      KeepConcat(About(k), Decisions(m, p, init), VisitDecision(VisitedAll(m, p, init), p, last));
    }
  }

  /** A pass treats each canary as if it were the only one. */
  lemma {:induction false} VisitedAlone(m: Memory, p: Pass, targets: seq<PromotionTarget>, i: nat)
    requires DistinctTargets(targets) && i < |targets|
    ensures CanaryOf(VisitedAll(m, p, targets), targets[i].ingress) == CanaryOf(Visited(m, p, targets[i]), targets[i].ingress)
    ensures Keep(About(targets[i].ingress), Decisions(m, p, targets)) == VisitDecision(m, p, targets[i])
  {
    var t := targets[i];
    var init, last := targets[..|targets| - 1], targets[|targets| - 1];
    var before := VisitedAll(m, p, init);
    KeepConcat(About(t.ingress), Decisions(m, p, init), VisitDecision(before, p, last));
    if i < |init| {
      VisitedAlone(m, p, init, i);
      OthersDoNotDisturb(before, p, last, t.ingress);
    } else {
      UnlistedUndisturbed(m, p, init, t.ingress);
      VisitLooksAtItsOwn(before, m, p, t);
      VisitDecidesItsOwn(m, p, t);
    }
  }

  // -------------------------------------------------------------------------
  // Runs of passes
  // -------------------------------------------------------------------------

  /** Unpinned passes list the canary, once; `places[i]` is where. */
  ghost predicate KeepsListing(passes: seq<Pass>, places: seq<nat>, k: ObjectKey) {
    && |passes| == |places|
    && forall i :: 0 <= i < |passes| && !passes[i].pinned ==>
         && DistinctTargets(passes[i].targets)
         && places[i] < |passes[i].targets|
         && passes[i].targets[places[i]].ingress == k
  }

  /** The reading a pass takes of a target, if it takes one. */
  function Taken(m: Memory, p: Pass, t: PromotionTarget): seq<Baseline> {
    if Skipped(m, t) || Deadline(m, p, t) > p.now then []
    else match Reading(p.table(t.ingress), t.routes) case None => [] case Some(r) => [r]
  }

  function AfterPasses(m: Memory, passes: seq<Pass>): Memory {
    if passes == [] then m else AfterPass(AfterPasses(m, passes[..|passes| - 1]), passes[|passes| - 1])
  }

  function AllDecisions(m: Memory, passes: seq<Pass>): seq<Decision> {
    if passes == [] then []
    else
      var init := passes[..|passes| - 1];
      AllDecisions(m, init) + PassDecisions(AfterPasses(m, init), passes[|passes| - 1])
  }

  /** Every reading of the canary, starting from the remembered baseline. */
  function Readings(m: Memory, passes: seq<Pass>, places: seq<nat>, k: ObjectKey): seq<Baseline>
    requires |passes| == |places|
    requires forall i :: 0 <= i < |passes| && !passes[i].pinned ==> places[i] < |passes[i].targets|
  {
    if passes == [] then if k in m.baselines then [m.baselines[k]] else []
    else
      var init, last := passes[..|passes| - 1], passes[|passes| - 1];
      var before := Readings(m, init, places[..|init|], k);
      if last.pinned then before else before + Taken(AfterPasses(m, init), last, last.targets[places[|init|]])
  }

  function Neighbours(readings: seq<Baseline>): seq<Window> {
    if |readings| < 2 then []
    else
      var n := |readings|;
      Neighbours(readings[..n - 1]) + [WindowBetween(readings[n - 2], readings[n - 1])]
  }

  function WindowOf(d: Decision): Window {
    d.window
  }

  function WindowsAbout(k: ObjectKey, ds: seq<Decision>): seq<Window> {
    MapSeq(WindowOf, Keep(About(k), ds))
  }

  lemma WindowsAboutConcat(k: ObjectKey, a: seq<Decision>, b: seq<Decision>)
    ensures WindowsAbout(k, a + b) == WindowsAbout(k, a) + WindowsAbout(k, b)
  {
    KeepConcat(About(k), a, b);
  }

  lemma RetainedIfListed(m: Memory, p: Pass, i: nat)
    requires i < |p.targets|
    ensures CanaryOf(Retained(m, p.targets).(pinnedReported := false), p.targets[i].ingress) == CanaryOf(m, p.targets[i].ingress)
  {
    assert Listed(p.targets, p.targets[i].ingress);
  }

  /** One unpinned pass, seen by one canary. */
  lemma PassAlone(m: Memory, p: Pass, i: nat)
    requires !p.pinned && DistinctTargets(p.targets) && i < |p.targets|
    ensures var t := p.targets[i];
            && CanaryOf(AfterPass(m, p), t.ingress) == CanaryOf(Visited(m, p, t), t.ingress)
            && Keep(About(t.ingress), PassDecisions(m, p)) == VisitDecision(m, p, t)
  {
    var t, kept := p.targets[i], Retained(m, p.targets).(pinnedReported := false);
    RetainedIfListed(m, p, i);
    VisitedAlone(kept, p, p.targets, i);
    VisitLooksAtItsOwn(kept, m, p, t);
  }

  lemma ReadingBecomesBaseline(m: Memory, p: Pass, t: PromotionTarget)
    ensures CanaryOf(Visited(m, p, t), t.ingress).baseline
         == if Taken(m, p, t) == [] then CanaryOf(m, t.ingress).baseline else Some(Taken(m, p, t)[0])
    ensures VisitDecision(m, p, t) != [] ==> Taken(m, p, t) != []
    ensures Taken(m, p, t) != [] ==>
              MapSeq(WindowOf, VisitDecision(m, p, t))
              == if t.ingress in m.baselines then [WindowBetween(m.baselines[t.ingress], Taken(m, p, t)[0])] else []
  {
  }

  /**
   * Every window judged for a canary runs from one reading to the very next:
   * holds, failed patches, missing routes and pinned passes skip nothing and
   * count nothing twice.
   */
  lemma {:induction false} WindowsAreConsecutive(m: Memory, passes: seq<Pass>, places: seq<nat>, k: ObjectKey)
    requires KeepsListing(passes, places, k)
    ensures WindowsAbout(k, AllDecisions(m, passes)) == Neighbours(Readings(m, passes, places, k))
    ensures CanaryOf(AfterPasses(m, passes), k).baseline
         == var rs := Readings(m, passes, places, k); if rs == [] then None else Some(rs[|rs| - 1])
  {
    if passes != [] {
      var init, last := passes[..|passes| - 1], passes[|passes| - 1];
      assert KeepsListing(init, places[..|init|], k);
      WindowsAreConsecutive(m, init, places[..|init|], k);
      WindowsAboutConcat(k, AllDecisions(m, init), PassDecisions(AfterPasses(m, init), last));
      if !last.pinned {
        PassExtends(AfterPasses(m, init), last, places[|init|], Readings(m, init, places[..|init|], k));
      }
    }
  }

  lemma PassExtends(m: Memory, p: Pass, i: nat, rs: seq<Baseline>)
    requires !p.pinned && DistinctTargets(p.targets) && i < |p.targets|
    requires CanaryOf(m, p.targets[i].ingress).baseline == if rs == [] then None else Some(rs[|rs| - 1])
    ensures var t := p.targets[i];
            && Neighbours(rs + Taken(m, p, t)) == Neighbours(rs) + WindowsAbout(t.ingress, PassDecisions(m, p))
            && CanaryOf(AfterPass(m, p), t.ingress).baseline
               == var now := rs + Taken(m, p, t); if now == [] then None else Some(now[|now| - 1])
  {
    var t := p.targets[i];
    PassAlone(m, p, i);
    ReadingBecomesBaseline(m, p, t);
    var taken := Taken(m, p, t);
    if taken == [] {
      assert rs + taken == rs;
    } else {
      assert (rs + taken)[..|rs|] == rs;
    }
  }

  function CanaryTotal(ws: seq<Window>): RouteTotals {
    if ws == [] then ZERO else CanaryTotal(ws[..|ws| - 1]).Plus(ws[|ws| - 1].canary)
  }

  function StableTotal(ws: seq<Window>): RouteTotals {
    if ws == [] then ZERO else StableTotal(ws[..|ws| - 1]).Plus(ws[|ws| - 1].stable)
  }

  function CanarySide(rs: seq<Baseline>): seq<RouteTotals> {
    MapSeq((b: Baseline) => b.canary, rs)
  }

  function StableSide(rs: seq<Baseline>): seq<RouteTotals> {
    MapSeq((b: Baseline) => b.Stable(), rs)
  }

  lemma {:induction false} NeighboursAddUp(rs: seq<Baseline>)
    ensures CanaryTotal(Neighbours(rs)) == Added(CanarySide(rs))
    ensures StableTotal(Neighbours(rs)) == Added(StableSide(rs))
  {
    if |rs| >= 2 {
      var init := rs[..|rs| - 1];
      NeighboursAddUp(init);
      assert CanarySide(rs)[..|rs| - 1] == CanarySide(init);
      assert StableSide(rs)[..|rs| - 1] == StableSide(init);
      var ws := Neighbours(rs);
      assert ws[..|ws| - 1] == Neighbours(init);
    }
  }

  /**
   * Over any run of passes the windows of a canary add up to its last reading
   * less its first, on each side exactly when that side's readings never fell.
   */
  lemma JudgedIsRead(m: Memory, passes: seq<Pass>, places: seq<nat>, k: ObjectKey)
    requires KeepsListing(passes, places, k)
    requires Readings(m, passes, places, k) != []
    ensures var rs, ws := Readings(m, passes, places, k), WindowsAbout(k, AllDecisions(m, passes));
            && (CanaryTotal(ws).Plus(rs[0].canary) == rs[|rs| - 1].canary <==> NeverFalls(CanarySide(rs)))
            && (StableTotal(ws).Plus(rs[0].Stable()) == rs[|rs| - 1].Stable() <==> NeverFalls(StableSide(rs)))
  {
    var rs := Readings(m, passes, places, k);
    WindowsAreConsecutive(m, passes, places, k);
    NeighboursAddUp(rs);
    WindowsPartition(CanarySide(rs));
    WindowsPartition(StableSide(rs));
  }
}
