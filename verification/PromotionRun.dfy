/**
 * Promotion over whole runs: one canary Ingress, the loop's delayed view of it,
 * humans editing it, and processes that restart.
 *
 * One process runs at a time, as the deployment requires. Everything else is
 * free: views lag by any amount, humans write anything at any moment, patches
 * fail, decisions are whatever the windows made them.
 */
module PromotionRun {
  import opened Wrappers
  import opened Machine
  import opened Objects
  import opened Annotations
  import opened Ordering
  import opened Promotions
  import opened Promotion

  /** What the canary's annotations say; `rest` is all those nobody here names. */
  datatype Ann = Ann(weight: u32, armed: bool, status: Option<string>, steps: seq<u32>, rest: int)

  /** Sets what the patch names and removes nothing. */
  function Merge(a: Ann, p: Patch): Ann {
    a.(weight := if p.weight.Some? then p.weight.value else a.weight,
       armed := a.armed && !p.disarm,
       status := if p.status.Some? then p.status else a.status)
  }

  predicate Done(a: Ann) {
    Terminal(a.status)
  }

  /**
   * A patch changes what its verdict is about and nothing else: a step only the
   * weight, a promotion only the status, a rollback the weight, the arming and
   * the status, leaving the object one the loop will not touch again.
   */
  lemma PatchesChangeWhatTheyName(render: BreachPrinter, a: Ann, v: Verdict)
    requires !v.Hold?
    ensures var b := Merge(a, PatchOf(render, v).value);
            && b.rest == a.rest && b.steps == a.steps
            && (v.Step? ==> b == a.(weight := v.to))
            && (v.Promote? ==> Done(b) && b == a.(status := b.status))
            && (v.RollBack? ==> Done(b) && RolledBack(b.status) && !b.armed && b.weight == 0)
  {
    if v.RollBack? {
      RolledBackStatus(render(v.breach));
    }
  }

  /** A patch between the decision and the process learning its fate. */
  datatype Flight = Ground | Sent(verdict: Verdict) | Landed(verdict: Verdict)

  /**
   * `hist` is every version of the object, `seen` the one the loop's targets
   * were compiled from, `own` the last version a patch of the loop made,
   * `rolledAt` the last landed rollback no human has cleared since, and `stray`
   * the patches given up on that the API server may yet apply.
   */
  datatype World = World(
    hist: seq<Ann>,
    seen: nat,
    finished: bool,
    flight: Flight,
    own: nat,
    rolledAt: Option<nat>,
    stray: seq<Verdict>)

  datatype Event =
    | Deliver(version: nat)     // the view moves on
    | Human(edit: Ann)
    | Choose(verdict: Verdict)  // a pass judges a window and sends a patch
    | Land                      // the API server applies it
    | Ack
    | Fail
    | LandLate(which: nat)      // a patch nobody waits for is applied after all
    | Vanish                    // a pass finds the canary gone from its targets
    | Restarted(version: nat)   // a new process, and the version its first list shows

  /** What is taken on trust about the cluster. */
  datatype Trust = Trust(
    freshRestart: bool,         // a new process lists the newest version
    staysListed: bool,          // the canary stays a target until the view shows our patch
    failedDidNotLand: bool,     // a patch reported failed had not landed
    nothingLandsLate: bool)     // a patch given up on, by a report or by a death, never lands after

  const FULL := Trust(true, true, true, true)

  predicate Shaped(w: World) {
    w.seen < |w.hist| && w.own < |w.hist| && (w.rolledAt.Some? ==> w.rolledAt.value <= w.own)
  }

  function View(w: World): Ann
    requires Shaped(w)
  {
    w.hist[w.seen]
  }

  function Newest(w: World): Ann
    requires Shaped(w)
  {
    w.hist[|w.hist| - 1]
  }

  /** A verdict the loop could reach on this view. */
  predicate Fits(a: Ann, v: Verdict) {
    match v
    case Hold => false
    case Step(to) => NextStep(a.steps, a.weight) == Some(to)
    case Promote => NextStep(a.steps, a.weight) == None
    case RollBack(_) => true
  }

  predicate Enabled(trust: Trust, w: World, e: Event)
    requires Shaped(w)
  {
    match e
    case Deliver(j) => w.seen <= j < |w.hist|
    case Human(_) => true
    case Choose(v) => w.flight == Ground && View(w).armed && !Done(View(w)) && !w.finished && Fits(View(w), v)
    case Land => w.flight.Sent?
    case Ack => w.flight.Landed?
    case Fail => w.flight.Sent? || (w.flight.Landed? && !trust.failedDidNotLand)
    case LandLate(i) => i < |w.stray|
    case Vanish => w.flight == Ground && (trust.staysListed ==> w.own <= w.seen)
    case Restarted(j) => j < |w.hist| && (trust.freshRestart ==> j == |w.hist| - 1)
  }

  /** The API server applies a patch to the newest version, whatever the loop thinks of it. */
  function Applied(render: BreachPrinter, w: World, v: Verdict): World
    requires Shaped(w)
  {
    match PatchOf(render, v)
    case None => w
    case Some(p) =>
      w.(hist := w.hist + [Merge(Newest(w), p)], own := |w.hist|,
         rolledAt := if v.RollBack? then Some(|w.hist|) else w.rolledAt)
  }

  function Landing(render: BreachPrinter, w: World, v: Verdict): World
    requires Shaped(w)
  {
    Applied(render, w, v).(flight := Landed(v))
  }

  /** The process stops waiting for whatever it sent. */
  function GivenUp(trust: Trust, w: World): World {
    w.(flight := Ground,
       stray := if w.flight.Sent? && !trust.nothingLandsLate then w.stray + [w.flight.verdict] else w.stray)
  }

  function After(render: BreachPrinter, trust: Trust, w: World, e: Event): (x: World)
    requires Shaped(w) && Enabled(trust, w, e)
    ensures Shaped(x)
  {
    match e
    case Deliver(j) => w.(seen := j)
    case Human(edit) =>
      w.(hist := w.hist + [edit], rolledAt := if RolledBack(edit.status) then w.rolledAt else None)
    case Choose(v) => w.(flight := Sent(v))
    case Land => Landing(render, w, w.flight.verdict)
    case Ack => w.(flight := Ground, finished := w.finished || Ends(w.flight.verdict))
    case Fail => GivenUp(trust, w)
    case LandLate(i) => Applied(render, w, w.stray[i]).(stray := w.stray[..i] + w.stray[i + 1..])
    case Vanish => w.(finished := false)
    case Restarted(j) => GivenUp(trust, w).(seen := j, finished := false)
  }

  predicate Runs(render: BreachPrinter, trust: Trust, w: World, run: seq<Event>)
    requires Shaped(w)
    decreases |run|
  {
    run == [] || (Enabled(trust, w, run[0]) && Runs(render, trust, After(render, trust, w, run[0]), run[1..]))
  }

  function Final(render: BreachPrinter, trust: Trust, w: World, run: seq<Event>): (x: World)
    requires Shaped(w) && Runs(render, trust, w, run)
    ensures Shaped(x)
    decreases |run|
  {
    if run == [] then w else Final(render, trust, After(render, trust, w, run[0]), run[1..])
  }

  predicate Start(w: World) {
    |w.hist| == 1 && w.seen == 0 && !w.finished && w.flight == Ground && w.own == 0 && w.rolledAt == None && w.stray == []
  }

  // -------------------------------------------------------------------------
  // Rollback is one-way
  // -------------------------------------------------------------------------

  /** An uncleared rollback is known to the process one way or another. */
  ghost predicate Guarded(w: World) {
    Shaped(w) && w.stray == [] &&
    match w.rolledAt
    case None => true
    case Some(r) =>
      && (forall j :: r <= j < |w.hist| ==> RolledBack(w.hist[j].status))
      && (r <= w.seen || w.finished || (w.flight.Landed? && w.flight.verdict.RollBack?))
      && !w.flight.Sent? && w.own == r
  }

  lemma RolledBackStatus(text: string)
    ensures RolledBack(Some(STATUS_ROLLED_BACK + ": " + text))
  {
  }

  lemma GuardKept(render: BreachPrinter, w: World, e: Event)
    requires Guarded(w) && Enabled(FULL, w, e)
    ensures Guarded(After(render, FULL, w, e))
  {
    var x := After(render, FULL, w, e);
    if e.Land? && w.flight.verdict.RollBack? {
      RolledBackStatus(render(w.flight.verdict.breach));
    }
  }

  /** No human touches the status such that the rollback reads as cleared. */
  ghost predicate NobodyClears(run: seq<Event>) {
    forall e :: e in run && e.Human? ==> RolledBack(e.edit.status)
  }

  lemma {:induction false} NoPatchAfterRollback(render: BreachPrinter, w: World, run: seq<Event>)
    requires Guarded(w) && w.rolledAt.Some? && Runs(render, FULL, w, run) && NobodyClears(run)
    ensures Land !in run && (forall e :: e in run ==> !e.Choose? && !e.LandLate?)
    ensures Final(render, FULL, w, run).rolledAt == w.rolledAt
    decreases |run|
  {
    if run != [] {
      var e := run[0];
      assert e in run && forall x :: x in run[1..] ==> x in run;
      assert !Enabled(FULL, w, Land) && !e.Choose? && !e.LandLate?;
      GuardKept(render, w, e);
      NoPatchAfterRollback(render, After(render, FULL, w, e), run[1..]);
      assert forall x :: x in run ==> x == e || x in run[1..];
    }
  }

  lemma {:induction false} GuardedThroughout(render: BreachPrinter, w: World, run: seq<Event>)
    requires Guarded(w) && Runs(render, FULL, w, run)
    ensures Guarded(Final(render, FULL, w, run))
    decreases |run|
  {
    if run != [] {
      GuardKept(render, w, run[0]);
      GuardedThroughout(render, After(render, FULL, w, run[0]), run[1..]);
    }
  }

  /**
   * Rollback is one-way: take any run to a landed rollback, then any run in
   * which nobody clears the status. The loop sends nothing more, through view
   * lag, restarts, disappearances and edits to everything else.
   */
  lemma RollbackIsOneWay(render: BreachPrinter, start: World, first: seq<Event>, second: seq<Event>)
    requires Start(start) && Runs(render, FULL, start, first)
    requires Final(render, FULL, start, first).rolledAt.Some?
    requires Runs(render, FULL, Final(render, FULL, start, first), second) && NobodyClears(second)
    ensures Land !in second && forall e :: e in second ==> !e.Choose? && !e.LandLate?
  {
    GuardedThroughout(render, start, first);
    NoPatchAfterRollback(render, Final(render, FULL, start, first), second);
  }

  // -------------------------------------------------------------------------
  // Each trust is needed
  // -------------------------------------------------------------------------

  /** A weight above zero was written over an uncleared rollback. */
  predicate Undone(w: World) {
    Shaped(w) && w.rolledAt.Some? && w.own > w.rolledAt.value && Newest(w).weight > 0
  }

  predicate Undoes(render: BreachPrinter, trust: Trust, run: seq<Event>) {
    Runs(render, trust, BEGUN, run) && Undone(Final(render, trust, BEGUN, run))
  }

  const RISING := Ann(10, true, None, [10, 25], 0)
  const BREACHED := RollBack(TooManyErrors(9.0, 1.0))
  const BEGUN := World([RISING], 0, false, Ground, 0, None, [])

  lemma {:induction false} RunsJoin(render: BreachPrinter, trust: Trust, w: World, a: seq<Event>, b: seq<Event>)
    requires Shaped(w) && Runs(render, trust, w, a) && Runs(render, trust, Final(render, trust, w, a), b)
    ensures Runs(render, trust, w, a + b)
    ensures Final(render, trust, w, a + b) == Final(render, trust, Final(render, trust, w, a), b)
    decreases |a|
  {
    if a == [] {
      assert a + b == b;
    } else {
      assert (a + b)[1..] == a[1..] + b;
      RunsJoin(render, trust, After(render, trust, w, a[0]), a[1..], b);
    }
  }

  lemma OneEvent(render: BreachPrinter, trust: Trust, w: World, e: Event)
    requires Shaped(w) && Enabled(trust, w, e)
    ensures Runs(render, trust, w, [e]) && Final(render, trust, w, [e]) == After(render, trust, w, e)
  {
    assert [e][1..] == [];
  }

  /** Extends a run by one enabled event. */
  lemma Then(render: BreachPrinter, trust: Trust, w: World, run: seq<Event>, e: Event)
    requires Shaped(w) && Runs(render, trust, w, run) && Enabled(trust, Final(render, trust, w, run), e)
    ensures Runs(render, trust, w, run + [e])
    ensures Final(render, trust, w, run + [e]) == After(render, trust, Final(render, trust, w, run), e)
  {
    OneEvent(render, trust, Final(render, trust, w, run), e);
    RunsJoin(render, trust, w, run, [e]);
  }

  /** A rollback lands while the view still shows the first version. */
  lemma RollbackLands(render: BreachPrinter, trust: Trust) returns (run: seq<Event>)
    ensures Runs(render, trust, BEGUN, run)
    ensures var w := Final(render, trust, BEGUN, run);
            && w.hist == [RISING, Merge(RISING, PatchOf(render, BREACHED).value)] && w.rolledAt == Some(1)
            && w.seen == 0 && w.flight == Landed(BREACHED) && !w.finished
  {
    run := [];
    Then(render, trust, BEGUN, run, Choose(BREACHED));
    run := run + [Choose(BREACHED)];
    Then(render, trust, BEGUN, run, Land);
    run := run + [Land];
  }

  /** Forgetful of a landed rollback its view does not show, the loop steps. */
  lemma ThenSteps(render: BreachPrinter, trust: Trust, so: seq<Event>) returns (run: seq<Event>)
    requires Runs(render, trust, BEGUN, so)
    requires var w := Final(render, trust, BEGUN, so);
             && w.hist[0] == RISING && w.rolledAt == Some(|w.hist| - 1)
             && w.seen == 0 && w.flight == Ground && !w.finished
    ensures Undoes(render, trust, run)
  {
    assert NextStep(RISING.steps, 10) == Some(25);
    Then(render, trust, BEGUN, so, Choose(Step(25)));
    run := so + [Choose(Step(25))];
    Then(render, trust, BEGUN, run, Land);
    run := run + [Land];
  }

  /** A rollback lands; then `how` makes the process forget it while its view lags; then it steps. */
  lemma ForgottenRollback(render: BreachPrinter, trust: Trust, acked: bool, how: Event) returns (run: seq<Event>)
    requires how == Restarted(0) || how == Vanish || how == Fail
    requires how.Fail? <==> !acked
    requires how.Restarted? ==> !trust.freshRestart
    requires how.Vanish? ==> !trust.staysListed
    requires how.Fail? ==> !trust.failedDidNotLand
    ensures Undoes(render, trust, run)
  {
    run := RollbackLands(render, trust);
    if acked {
      Then(render, trust, BEGUN, run, Ack);
      run := run + [Ack];
    }
    Then(render, trust, BEGUN, run, how);
    run := ThenSteps(render, trust, run + [how]);
  }

  /** A process dies with a step in flight. */
  lemma DiesInFlight(render: BreachPrinter, trust: Trust) returns (run: seq<Event>)
    requires !trust.nothingLandsLate
    ensures Runs(render, trust, BEGUN, run)
    ensures Final(render, trust, BEGUN, run) == BEGUN.(stray := [Step(25)])
  {
    assert NextStep(RISING.steps, 10) == Some(25);
    run := [];
    Then(render, trust, BEGUN, run, Choose(Step(25)));
    run := run + [Choose(Step(25))];
    Then(render, trust, BEGUN, run, Restarted(0));
    run := run + [Restarted(0)];
  }

  /** Its successor rolls back; then the step lands. */
  lemma LateStep(render: BreachPrinter, trust: Trust) returns (run: seq<Event>)
    requires !trust.nothingLandsLate
    ensures Undoes(render, trust, run)
  {
    run := DiesInFlight(render, trust);
    Then(render, trust, BEGUN, run, Choose(BREACHED));
    run := run + [Choose(BREACHED)];
    Then(render, trust, BEGUN, run, Land);
    run := run + [Land];
    Then(render, trust, BEGUN, run, LandLate(0));
    run := run + [LandLate(0)];
  }

  lemma EachTrustIsNeeded(render: BreachPrinter, trust: Trust) returns (run: seq<Event>)
    requires trust != FULL
    ensures Undoes(render, trust, run)
  {
    if !trust.nothingLandsLate {
      run := LateStep(render, trust);
    } else if !trust.freshRestart {
      run := ForgottenRollback(render, trust, true, Restarted(0));
    } else if !trust.staysListed {
      run := ForgottenRollback(render, trust, true, Vanish);
    } else {
      run := ForgottenRollback(render, trust, false, Fail);
    }
  }

  /**
   * Drop any one of the four trusts and some run writes a weight over an
   * uncleared rollback - a restart onto an old list, a canary that leaves the
   * targets early, a patch that landed but was reported failed, a patch that
   * lands after its process died - and with all four no run does.
   */
  lemma UndoneExactlyWithoutTrust(render: BreachPrinter, trust: Trust)
    ensures (exists run :: Undoes(render, trust, run)) <==> trust != FULL
  {
    if trust == FULL {
      forall run | Runs(render, trust, BEGUN, run) ensures !Undoes(render, trust, run) {
        GuardedThroughout(render, BEGUN, run);
      }
    } else {
      var run := EachTrustIsNeeded(render, trust);
    }
  }

  // -------------------------------------------------------------------------
  // The ladder is climbed
  // -------------------------------------------------------------------------

  /** How often the weight rose from one version to the next. */
  function Climbs(hist: seq<Ann>): nat {
    if |hist| < 2 then 0
    else
      var n := |hist|;
      Climbs(hist[..n - 1]) + if hist[n - 2].weight < hist[n - 1].weight then 1 else 0
  }

  /** `to` is where the loop stands or the rung above. */
  predicate AtOrNext(steps: seq<u32>, weight: u32, to: u32) {
    to == weight || NextStep(steps, weight) == Some(to)
  }

  ghost predicate Rises(hist: seq<Ann>) {
    forall i, j :: 0 <= i < j < |hist| ==> hist[i].weight <= hist[j].weight
  }

  /** From the view on, every version is where the view stands or one rung above. */
  ghost predicate OneAhead(hist: seq<Ann>, seen: nat, steps: seq<u32>) {
    seen < |hist| && forall j :: seen <= j < |hist| ==> AtOrNext(steps, hist[seen].weight, hist[j].weight)
  }

  /** A step in flight leads to the newest weight or the view's next, and never down. */
  ghost predicate FlightFits(w: World, steps: seq<u32>)
    requires Shaped(w)
  {
    w.flight.Sent? && w.flight.verdict.Step? ==>
      && Newest(w).weight <= w.flight.verdict.to
      && AtOrNext(steps, View(w).weight, w.flight.verdict.to)
  }

  /** Untouched by humans and not rolled back: the weight has climbed from `base`, rung by rung. */
  ghost predicate Climbing(w: World, steps: seq<u32>, base: u32) {
    && Shaped(w) && w.rolledAt == None && w.stray == []
    && w.hist[0].weight == base
    && (forall j :: 0 <= j < |w.hist| ==> w.hist[j].steps == steps)
    && Rises(w.hist) && OneAhead(w.hist, w.seen, steps) && FlightFits(w, steps)
    && Climbs(w.hist) + RungsAbove(steps, Newest(w).weight) <= RungsAbove(steps, base)
  }

  lemma OneMoreClimb(hist: seq<Ann>, a: Ann, steps: seq<u32>)
    requires hist != [] && hist[|hist| - 1].weight <= a.weight
    requires hist[|hist| - 1].weight < a.weight ==> a.weight in steps
    ensures Climbs(hist + [a]) + RungsAbove(steps, a.weight) <= Climbs(hist) + RungsAbove(steps, hist[|hist| - 1].weight)
  {
    assert (hist + [a])[..|hist|] == hist;
    HigherHasFewer(steps, hist[|hist| - 1].weight, a.weight);
  }

  lemma OneMoreVersion(hist: seq<Ann>, a: Ann, steps: seq<u32>, seen: nat)
    requires Ascending(steps) && Rises(hist) && OneAhead(hist, seen, steps)
    requires hist[|hist| - 1].weight <= a.weight && AtOrNext(steps, hist[seen].weight, a.weight)
    ensures Rises(hist + [a]) && OneAhead(hist + [a], seen, steps)
    ensures hist[|hist| - 1].weight < a.weight ==> a.weight in steps
  {
    NextIsLeast(steps, hist[seen].weight);
    assert seen == |hist| - 1 || hist[seen].weight <= hist[|hist| - 1].weight;
  }

  /** A version that fits may be appended. */
  lemma VersionClimbs(w: World, a: Ann, steps: seq<u32>, base: u32, v: Verdict)
    requires Ascending(steps) && Climbing(w, steps, base)
    requires a.steps == steps && Newest(w).weight <= a.weight && AtOrNext(steps, View(w).weight, a.weight)
    ensures Climbing(w.(hist := w.hist + [a], own := |w.hist|, flight := Landed(v)), steps, base)
  {
    OneMoreVersion(w.hist, a, steps, w.seen);
    OneMoreClimb(w.hist, a, steps);
  }

  lemma LandingClimbs(render: BreachPrinter, w: World, steps: seq<u32>, base: u32)
    requires Ascending(steps) && Climbing(w, steps, base) && w.flight.Sent? && !w.flight.verdict.RollBack?
    ensures Climbing(Landing(render, w, w.flight.verdict), steps, base)
  {
    var v := w.flight.verdict;
    if v.Step? || v.Promote? {
      VersionClimbs(w, Merge(Newest(w), PatchOf(render, v).value), steps, base, v);
    }
  }

  lemma ChoiceFits(w: World, steps: seq<u32>, base: u32, v: Verdict)
    requires Ascending(steps) && Climbing(w, steps, base) && Fits(View(w), v)
    ensures FlightFits(w.(flight := Sent(v)), steps)
  {
    NextIsLeast(steps, View(w).weight);
    assert AtOrNext(steps, View(w).weight, Newest(w).weight);
  }

  lemma ViewAdvances(w: World, j: nat, steps: seq<u32>, base: u32)
    requires Ascending(steps) && Climbing(w, steps, base) && w.seen <= j < |w.hist|
    ensures OneAhead(w.hist, j, steps) && FlightFits(w.(seen := j), steps)
  {
    var from := View(w).weight;
    assert AtOrNext(steps, from, w.hist[j].weight);
    forall i | j <= i < |w.hist| ensures AtOrNext(steps, w.hist[j].weight, w.hist[i].weight) {
      assert AtOrNext(steps, from, w.hist[i].weight);
      StaysNear(steps, from, w.hist[j].weight, w.hist[i].weight);
    }
    if w.flight.Sent? && w.flight.verdict.Step? {
      assert j == |w.hist| - 1 || w.hist[j].weight <= Newest(w).weight;
      StaysNear(steps, from, w.hist[j].weight, w.flight.verdict.to);
    }
  }

  lemma StaysNear(steps: seq<u32>, from: u32, a: u32, b: u32)
    requires Ascending(steps) && AtOrNext(steps, from, a) && AtOrNext(steps, from, b) && a <= b
    ensures AtOrNext(steps, a, b)
  {
    NextIsLeast(steps, from);
  }

  lemma ClimbingKept(render: BreachPrinter, trust: Trust, w: World, e: Event, steps: seq<u32>, base: u32)
    requires Ascending(steps) && Climbing(w, steps, base) && Enabled(trust, w, e)
    requires trust.freshRestart && trust.nothingLandsLate
    requires !e.Human? && After(render, trust, w, e).rolledAt == None
    ensures Climbing(After(render, trust, w, e), steps, base)
  {
    match e
    case Land => LandingClimbs(render, w, steps, base);
    case Deliver(j) => ViewAdvances(w, j, steps, base);
    case Restarted(j) => ViewAdvances(w, j, steps, base);
    case Choose(v) => ChoiceFits(w, steps, base, v);
    case _ =>
  }

  lemma {:induction false} RolledBackStays(render: BreachPrinter, trust: Trust, w: World, run: seq<Event>)
    requires Shaped(w) && Runs(render, trust, w, run) && w.rolledAt.Some?
    requires forall e :: e in run ==> !e.Human?
    ensures Final(render, trust, w, run).rolledAt.Some?
    decreases |run|
  {
    if run != [] {
      assert run[0] in run && forall e :: e in run[1..] ==> e in run;
      RolledBackStays(render, trust, After(render, trust, w, run[0]), run[1..]);
    }
  }

  lemma {:induction false} ClimbsThroughout(render: BreachPrinter, trust: Trust, w: World, run: seq<Event>, steps: seq<u32>, base: u32)
    requires Ascending(steps) && Climbing(w, steps, base)
    requires trust.freshRestart && trust.nothingLandsLate
    requires Runs(render, trust, w, run) && (forall e :: e in run ==> !e.Human?)
    requires Final(render, trust, w, run).rolledAt == None
    ensures Climbing(Final(render, trust, w, run), steps, base)
    decreases |run|
  {
    if run != [] {
      var e, x := run[0], After(render, trust, w, run[0]);
      assert e in run && forall y :: y in run[1..] ==> y in run;
      if x.rolledAt.Some? {
        RolledBackStays(render, trust, x, run[1..]);
      }
      ClimbingKept(render, trust, w, e, steps, base);
      ClimbsThroughout(render, trust, x, run[1..], steps, base);
    }
  }

  /**
   * The ladder is climbed and finishes: left alone and not rolled back, the
   * weight never falls however far the view lags, and it rises no more often
   * than there were rungs above where it began.
   */
  lemma LadderIsClimbed(render: BreachPrinter, trust: Trust, start: World, run: seq<Event>)
    requires Start(start) && Ascending(start.hist[0].steps)
    requires trust.freshRestart && trust.nothingLandsLate
    requires Runs(render, trust, start, run) && (forall e :: e in run ==> !e.Human?)
    requires Final(render, trust, start, run).rolledAt == None
    ensures var hist := Final(render, trust, start, run).hist;
            && (forall i, j :: 0 <= i < j < |hist| ==> hist[i].weight <= hist[j].weight)
            && Climbs(hist) <= RungsAbove(start.hist[0].steps, start.hist[0].weight)
  {
    ClimbsThroughout(render, trust, start, run, start.hist[0].steps, start.hist[0].weight);
  }

  /** A canary is promoted only from a view with no rung left. */
  lemma PromotedAtTheTop(trust: Trust, w: World)
    requires Shaped(w) && Ascending(View(w).steps)
    requires Enabled(trust, w, Choose(Promote))
    ensures forall s :: s in View(w).steps ==> s <= View(w).weight
  {
    NextIsLeast(View(w).steps, View(w).weight);
  }

  // -------------------------------------------------------------------------
  // Passes are events
  // -------------------------------------------------------------------------

  /** The target of a pass says what the view says. */
  predicate Shows(t: PromotionTarget, a: Ann) {
    a.armed && t.weight == a.weight && t.policy.steps == a.steps && t.policy.status == a.status
  }

  /** What one verdict does in the world: nothing, a patch that lands, a patch that fails. */
  function VerdictEvents(v: Verdict, ok: bool): seq<Event> {
    if v.Hold? then [] else if ok then [Choose(v), Land, Ack] else [Choose(v), Fail]
  }

  function DecisionEvents(ds: seq<Decision>, ok: bool): seq<Event> {
    if ds == [] then [] else VerdictEvents(ds[0].verdict, ok)
  }

  /** A verdict on what the view shows is one the loop could reach. */
  lemma DecisionFits(m: Memory, p: Pass, t: PromotionTarget, a: Ann)
    requires Shows(t, a) && Judged(m, p, t).Some? && !Judged(m, p, t).value.verdict.Hold?
    ensures Fits(a, Judged(m, p, t).value.verdict)
  {
    var w := Judged(m, p, t).value.window;
    DecideExactly(t.policy, t.weight, w);
  }

  lemma VerdictLands(render: BreachPrinter, trust: Trust, w: World, v: Verdict)
    requires Shaped(w) && !v.Hold? && Enabled(trust, w, Choose(v))
    ensures Runs(render, trust, w, [Choose(v), Land, Ack])
    ensures Final(render, trust, w, [Choose(v), Land, Ack])
         == After(render, trust, After(render, trust, After(render, trust, w, Choose(v)), Land), Ack)
  {
    Then(render, trust, w, [], Choose(v));
    assert [] + [Choose(v)] == [Choose(v)];
    Then(render, trust, w, [Choose(v)], Land);
    assert [Choose(v)] + [Land] == [Choose(v), Land];
    Then(render, trust, w, [Choose(v), Land], Ack);
    assert [Choose(v), Land] + [Ack] == [Choose(v), Land, Ack];
  }

  lemma VerdictFails(render: BreachPrinter, trust: Trust, w: World, v: Verdict)
    requires Shaped(w) && !v.Hold? && Enabled(trust, w, Choose(v))
    ensures Runs(render, trust, w, [Choose(v), Fail])
    ensures Final(render, trust, w, [Choose(v), Fail]) == After(render, trust, After(render, trust, w, Choose(v)), Fail)
  {
    Then(render, trust, w, [], Choose(v));
    assert [] + [Choose(v)] == [Choose(v)];
    Then(render, trust, w, [Choose(v)], Fail);
    assert [Choose(v)] + [Fail] == [Choose(v), Fail];
  }

  lemma VerdictRuns(render: BreachPrinter, trust: Trust, w: World, v: Verdict, ok: bool)
    requires Shaped(w) && !v.Hold? && Enabled(trust, w, Choose(v))
    ensures Runs(render, trust, w, VerdictEvents(v, ok))
    ensures var x := Final(render, trust, w, VerdictEvents(v, ok));
            && x.flight == Ground && (x.finished <==> ok && Ends(v)) && x.seen == w.seen
            && x.hist == if ok then w.hist + [Merge(Newest(w), PatchOf(render, v).value)] else w.hist
  {
    if ok {
      VerdictLands(render, trust, w, v);
    } else {
      VerdictFails(render, trust, w, v);
    }
  }

  /** What a visit remembers of its canary being finished: that it was, or that a final patch stuck. */
  lemma VisitFinishes(m: Memory, p: Pass, t: PromotionTarget)
    ensures var ds := VisitDecision(m, p, t);
            && |ds| <= 1
            && (ds != [] ==> !Skipped(m, t) && Judged(m, p, t) == Some(ds[0]))
            && (CanaryOf(Visited(m, p, t), t.ingress).finished
                <==> CanaryOf(m, t.ingress).finished || (ds != [] && Ends(ds[0].verdict) && p.ok(t.ingress)))
  {
  }

  /**
   * A pass, seen by one canary it lists, is a run of the world: the decision
   * it takes is one the view allows, and it ends with the process remembering
   * what the pass remembers.
   */
  lemma PassIsARun(render: BreachPrinter, trust: Trust, w: World, m: Memory, p: Pass, i: nat)
    requires !p.pinned && DistinctTargets(p.targets) && i < |p.targets|
    requires Shaped(w) && w.flight == Ground && Shows(p.targets[i], View(w))
    requires w.finished <==> CanaryOf(m, p.targets[i].ingress).finished
    ensures var k := p.targets[i].ingress;
            var ds, run := Keep(About(k), PassDecisions(m, p)), DecisionEvents(Keep(About(k), PassDecisions(m, p)), p.ok(k));
            && Runs(render, trust, w, run)
            && (Final(render, trust, w, run).finished <==> CanaryOf(AfterPass(m, p), k).finished)
            && Final(render, trust, w, run).hist
               == if ds != [] && !ds[0].verdict.Hold? && p.ok(k) then w.hist + [Merge(Newest(w), PatchOf(render, ds[0].verdict).value)]
                  else w.hist
  {
    var t := p.targets[i];
    PassAlone(m, p, i);
    VisitFinishes(m, p, t);
    var ds := VisitDecision(m, p, t);
    if ds != [] && !ds[0].verdict.Hold? {
      DecisionFits(m, p, t, View(w));
      VerdictRuns(render, trust, w, ds[0].verdict, p.ok(t.ingress));
    }
  }

  /** A pass that does not list the canary forgets it was finished, which is `Vanish`; a pinned one does nothing. */
  lemma OtherPassesAreEvents(render: BreachPrinter, trust: Trust, w: World, m: Memory, p: Pass, k: ObjectKey)
    requires Shaped(w) && w.flight == Ground && (w.finished <==> CanaryOf(m, k).finished)
    ensures p.pinned ==> CanaryOf(AfterPass(m, p), k) == CanaryOf(m, k) && PassDecisions(m, p) == []
    ensures !p.pinned && !Listed(p.targets, k) && (trust.staysListed ==> w.own <= w.seen) ==>
              && Keep(About(k), PassDecisions(m, p)) == []
              && Enabled(trust, w, Vanish)
              && (After(render, trust, w, Vanish).finished <==> CanaryOf(AfterPass(m, p), k).finished)
  {
    if !p.pinned && !Listed(p.targets, k) {
      UnlistedUndisturbed(Retained(m, p.targets).(pinnedReported := false), p, p.targets, k);
    }
  }
}
