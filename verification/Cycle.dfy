/**
 * The write-back cycle, closed: what the loop writes comes back to it as watch
 * events, which make it rebuild, after which it may write again. With the
 * cluster's specs left alone the cycle never advances the generation, writes
 * each thing at most once, and runs out.
 */
module Cycle {
  import opened Wrappers
  import opened Ordering
  import opened Config
  import opened Objects
  import opened Endpoints
  import opened Backends
  import C = Certificates
  import T = Translate
  import W = WriteBack
  import R = Rebuild
  import S = Status

  // -------------------------------------------------------------------------
  // The stores, and the compiler over them
  // -------------------------------------------------------------------------

  datatype Class = Class(name: string, ours: bool, isDefault: bool)

  /** The five mirrors. */
  datatype Store =
    | Ingresses(ingresses: seq<Ingress>)
    | Classes(classes: seq<Class>)
    | Services(services: seq<Service>)
    | Slices(slices: seq<Slice>)
    | Secrets(secrets: seq<C.Secret>)

  /** The controller's options; the class filter is built from the classes mirrored. */
  datatype Setup = Setup(
    fmt: T.Formats,
    filter: seq<Class> -> (Ingress -> bool),
    lbPolicy: LbPolicy,
    defaultBackend: Option<ServiceRef>,
    defaultTlsSecret: Option<string>,
    address: Option<S.Address>)

  predicate FiveStores(stores: seq<Store>) {
    && |stores| == R.KINDS
    && stores[0].Ingresses? && stores[1].Classes? && stores[2].Services? && stores[3].Slices? && stores[4].Secrets?
  }

  function OptionsOf(u: Setup, classes: seq<Class>): T.Options {
    T.Options(u.filter(classes), u.lbPolicy, u.defaultBackend, u.defaultTlsSecret)
  }

  function SnapshotOf(stores: seq<Store>): T.Snapshot
    requires FiveStores(stores)
  {
    T.Snapshot(stores[0].ingresses, stores[2].services, stores[3].slices, stores[4].secrets)
  }

  /** The digest the stores compile to, or nothing when compilation fails. */
  ghost function CompileStores(u: Setup, stores: seq<Store>): Option<int> {
    if !FiveStores(stores) then None
    else
      var opts, s := OptionsOf(u, stores[1].classes), SnapshotOf(stores);
      if DistinctNames(T.PlanOf(u.fmt, opts, s).backends) then Some(T.TranslationOf(u.fmt, opts, s, None).digest) else None
  }

  ghost function CompilerOf(u: Setup): R.Compiler<Store> {
    stores => CompileStores(u, stores)
  }

  function ManagedKeys(u: Setup, stores: seq<Store>): seq<ObjectKey>
    requires FiveStores(stores)
  {
    T.KeysOf(T.Managed(OptionsOf(u, stores[1].classes), stores[0].ingresses))
  }

  /** What each Ingress says in its annotation. */
  function Observed(ings: seq<Ingress>): map<ObjectKey, nat> {
    if ings == [] then map[]
    else
      var before, last := Observed(ings[..|ings| - 1]), ings[|ings| - 1];
      if last.observedGeneration.Some? then before[last.key := last.observedGeneration.value] else before
  }

  // -------------------------------------------------------------------------
  // What writing back cannot change
  // -------------------------------------------------------------------------

  function Essence(s: Store): Store {
    match s case Ingresses(ings) => Ingresses(W.AllBare(ings)) case _ => s
  }

  ghost predicate IgnoresWriteBack(u: Setup) {
    forall classes, i :: u.filter(classes)(W.Bare(i)) == u.filter(classes)(i)
  }

  lemma SamePlans(fmt: T.Formats, opts: T.Options, a: T.Snapshot, b: T.Snapshot)
    requires W.FilterIgnoresWriteBack(opts) && W.AllBare(a.ingresses) == W.AllBare(b.ingresses)
    requires a.services == b.services && a.slices == b.slices && a.secrets == b.secrets
    ensures T.PlanOf(fmt, opts, a) == T.PlanOf(fmt, opts, b)
    ensures T.TranslationOf(fmt, opts, a, None) == T.TranslationOf(fmt, opts, b, None)
  {
    W.TranslationBare(fmt, opts, a);
    W.TranslationBare(fmt, opts, b);
  }

  lemma SameManaged(opts: T.Options, a: seq<Ingress>, b: seq<Ingress>)
    requires W.FilterIgnoresWriteBack(opts) && W.AllBare(a) == W.AllBare(b)
    ensures T.KeysOf(T.Managed(opts, a)) == T.KeysOf(T.Managed(opts, b))
  {
    W.ManagedBare(opts, a);
    W.ManagedBare(opts, b);
    W.SplitBare(T.Managed(opts, a));
    W.SplitBare(T.Managed(opts, b));
  }

  /** Five stores that differ in nothing but what was written back. */
  lemma SameStores(a: seq<Store>, b: seq<Store>)
    requires FiveStores(a) && R.SameEssence(Essence, a, b)
    ensures FiveStores(b) && a[1..] == b[1..] && W.AllBare(a[0].ingresses) == W.AllBare(b[0].ingresses)
  {
    assert forall k :: 0 <= k < R.KINDS ==> Essence(a[k]) == Essence(b[k]);
  }

  lemma SameSnapshots(u: Setup, a: seq<Store>, b: seq<Store>)
    requires IgnoresWriteBack(u) && FiveStores(a) && R.SameEssence(Essence, a, b)
    ensures FiveStores(b) && CompileStores(u, a) == CompileStores(u, b) && ManagedKeys(u, a) == ManagedKeys(u, b)
  {
    SameStores(a, b);
    assert a[1] == a[1..][0] == b[1] && a[2] == a[1..][1] == b[2] && a[3] == a[1..][2] == b[3] && a[4] == a[1..][3] == b[4];
    SamePlans(u.fmt, OptionsOf(u, a[1].classes), SnapshotOf(a), SnapshotOf(b));
    SameManaged(OptionsOf(u, a[1].classes), a[0].ingresses, b[0].ingresses);
  }

  /** The real compiler looks at nothing the write-back touches. */
  lemma CompilesItsEssence(u: Setup)
    requires IgnoresWriteBack(u)
    ensures R.CompilesEssence(CompilerOf(u), Essence)
  {
    forall a, b | R.SameEssence(Essence, a, b) ensures CompilerOf(u)(a) == CompilerOf(u)(b) {
      if FiveStores(a) {
        SameSnapshots(u, a, b);
      } else if FiveStores(b) {
        SameSnapshots(u, b, a);
      }
    }
  }

  /**
   * The rebuild loop over the real compiler: watch events that carry nothing
   * but our own annotations never advance the generation, in any interleaving.
   */
  lemma OwnWritesNeverPublish(u: Setup, base: seq<Store>, s: R.State<Store>, run: seq<R.Event<Store>>)
    requires IgnoresWriteBack(u)
    requires R.Shaped(s) && R.Runs(CompilerOf(u), s, run) && R.Inessential(Essence, base, run)
    requires R.SameEssence(Essence, s.stores, base) && R.SameEssence(Essence, s.snapshot, base)
    requires CompileStores(u, base).Some? && s.Digest() == CompileStores(u, base)
    ensures R.Final(CompilerOf(u), s, run).log == s.log
  {
    CompilesItsEssence(u);
    R.InessentialEventsNeverPublish(CompilerOf(u), Essence, base, s, run);
  }

  // -------------------------------------------------------------------------
  // The closed system
  // -------------------------------------------------------------------------

  /** The loop, the status writer's cache, the cluster's Ingresses, and watch events on their way. */
  datatype World = World(s: R.State<Store>, cache: S.Cache, cluster: seq<Ingress>, undelivered: nat)

  datatype Step =
    | Inner(e: R.Event<Store>)
    | Sync(ok: S.Call -> bool, clears: seq<S.Call>)  // the write-back; `clears` is how it walked its stale entries
    | Watch                                          // a write comes back

  function RoundOf(u: Setup, w: World, ok: S.Call -> bool): S.Round
    requires FiveStores(w.s.snapshot)
  {
    S.Round(ManagedKeys(u, w.s.snapshot), w.s.Generation(), Observed(w.s.snapshot[0].ingresses), u.address, ok)
  }

  function CallsOf(u: Setup, w: World, ok: S.Call -> bool, clears: seq<S.Call>): seq<S.Call>
    requires FiveStores(w.s.snapshot)
  {
    var r := RoundOf(u, w, ok);
    clears + S.VisitsCalls(S.AfterStale(w.cache, r), r, r.managed)
  }

  /** An annotation lands on its Ingress; an address changes nothing modelled here. */
  function Written(ings: seq<Ingress>, call: S.Call): seq<Ingress> {
    match call
    case Annotate(k, g) => MapSeq((i: Ingress) => if i.key == k then i.(observedGeneration := Some(g)) else i, ings)
    case _ => ings
  }

  function AllWritten(ings: seq<Ingress>, calls: seq<S.Call>): seq<Ingress> {
    if calls == [] then ings else Written(AllWritten(ings, calls[..|calls| - 1]), calls[|calls| - 1])
  }

  ghost predicate Enabled(u: Setup, w: World, step: Step)
    requires R.Shaped(w.s)
  {
    match step
    case Inner(e) => R.Enabled(w.s, e) && !R.FromCluster(e) && !e.Synced?
    case Sync(ok, clears) =>
      R.Enabled(w.s, R.Synced) && FiveStores(w.s.snapshot) && S.ClearsStale(w.cache, RoundOf(u, w, ok), clears)
    case Watch => w.undelivered > 0 && R.Enabled(w.s, R.Reflect(0, Ingresses(w.cluster), true))
  }

  ghost function After(u: Setup, w: World, step: Step): (x: World)
    requires R.Shaped(w.s) && Enabled(u, w, step)
    ensures R.Shaped(x.s)
  {
    match step
    case Inner(e) => w.(s := R.After(CompilerOf(u), w.s, e))
    case Sync(ok, clears) =>
      var landed := S.Landed(CallsOf(u, w, ok, clears), ok);
      World(R.After(CompilerOf(u), w.s, R.Synced), S.AfterSync(w.cache, RoundOf(u, w, ok)),
            AllWritten(w.cluster, landed), w.undelivered + |landed|)
    case Watch =>
      w.(s := R.After(CompilerOf(u), w.s, R.Reflect(0, Ingresses(w.cluster), true)), undelivered := w.undelivered - 1)
  }

  /** What one step got written. */
  function LandedIn(u: Setup, w: World, step: Step): seq<S.Call>
    requires step.Sync? ==> FiveStores(w.s.snapshot)
  {
    match step case Sync(ok, clears) => S.Landed(CallsOf(u, w, ok, clears), ok) case _ => []
  }

  // -------------------------------------------------------------------------
  // Steadiness
  // -------------------------------------------------------------------------

  /**
   * The loop has compiled and published `base`; nothing it sees or has mirrored
   * differs from that but in what was written back; and no restart is on its
   * way to invalidate the caches.
   */
  ghost predicate SteadyLoop(compile: R.Compiler<Store>, base: seq<Store>, s: R.State<Store>) {
    && R.Inv(compile, s) && s.pc != R.Stopped && s.pc != R.AwaitReady
    && |base| == R.KINDS && compile(base).Some? && s.Digest() == compile(base)
    && R.SameEssence(Essence, s.stores, base) && R.SameEssence(Essence, s.snapshot, base)
    && !s.resynced && (forall k :: 0 <= k < R.KINDS ==> s.feeders[k] != R.OwesMark)
  }

  /** And the cluster's own Ingresses differ in nothing else either. */
  ghost predicate Steady(u: Setup, base: seq<Store>, w: World) {
    && SteadyLoop(CompilerOf(u), base, w.s)
    && FiveStores(base) && Essence(Ingresses(w.cluster)) == Essence(base[0])
  }

  /** Any step of the loop but a restart, and any watch event that changes no spec, leaves it steady. */
  lemma LoopStaysSteady(compile: R.Compiler<Store>, base: seq<Store>, s: R.State<Store>, e: R.Event<Store>)
    requires SteadyLoop(compile, base, s) && R.CompilesEssence(compile, Essence)
    requires R.Enabled(s, e) && !e.Restart? && (e.Reflect? ==> Essence(e.contents) == Essence(base[e.kind]))
    ensures SteadyLoop(compile, base, R.After(compile, s, e)) && R.After(compile, s, e).log == s.log
  {
    R.InvKept(compile, s, e);
    R.InessentialStep(compile, Essence, base, s, e);
  }

  /** What every write-back is aiming at. */
  function Goal(u: Setup, base: seq<Store>, w: World): S.Round
    requires FiveStores(base)
  {
    S.Round(ManagedKeys(u, base), w.s.Generation(), map[], u.address, _ => true)
  }

  lemma {:induction false} WrittenIsBare(ings: seq<Ingress>, calls: seq<S.Call>)
    ensures W.AllBare(AllWritten(ings, calls)) == W.AllBare(ings)
  {
    if calls != [] {
      WrittenIsBare(ings, calls[..|calls| - 1]);
    }
  }

  lemma StepStaysSteady(u: Setup, base: seq<Store>, w: World, step: Step)
    requires IgnoresWriteBack(u) && Steady(u, base, w) && Enabled(u, w, step)
    ensures Steady(u, base, After(u, w, step)) && After(u, w, step).s.log == w.s.log
  {
    CompilesItsEssence(u);
    match step
    case Inner(e) => LoopStaysSteady(CompilerOf(u), base, w.s, e);
    case Watch => LoopStaysSteady(CompilerOf(u), base, w.s, R.Reflect(0, Ingresses(w.cluster), true));
    case Sync(ok, clears) =>
      LoopStaysSteady(CompilerOf(u), base, w.s, R.Synced);
      WrittenIsBare(w.cluster, S.Landed(CallsOf(u, w, ok, clears), ok));
  }

  // -------------------------------------------------------------------------
  // The measure
  // -------------------------------------------------------------------------

  function OwedCalls(c: S.Cache, r: S.Round): set<S.Call> {
    (set k | k in c.applied && k !in r.managed :: S.Clear(k))
    + (set k | k in r.managed && S.NeedsAddress(k, r.address, c.applied) :: S.Write(k, r.address.value))
    + (set k | k in r.managed && !S.Holds(c.annotated, k, r.generation) :: S.Annotate(k, r.generation))
  }

  lemma OwedCallsAreOwed(c: S.Cache, r: S.Round, call: S.Call)
    ensures call in OwedCalls(c, r) <==> S.Owed(c, r, call)
  {
  }

  lemma SameCount(calls: seq<S.Call>)
    requires Distinct(calls)
    ensures |set call | call in calls| == |calls|
  {
    var paid := set call | call in calls;
    DistinctSameSet(calls, Enumerate(paid));
    SameMembers(calls, Enumerate(paid));
  }

  lemma PaidIsNotOwed(c: S.Cache, d: S.Cache, r: S.Round, landed: seq<S.Call>)
    requires S.Pays(c, d, r, landed)
    ensures |OwedCalls(d, r)| + |landed| == |OwedCalls(c, r)|
  {
    var paid := set call | call in landed;
    SameCount(landed);
    PaidIsTakenOff(c, d, r, landed);
    SetLess(OwedCalls(c, r), paid);
  }

  lemma PaidIsTakenOff(c: S.Cache, d: S.Cache, r: S.Round, landed: seq<S.Call>)
    requires S.Pays(c, d, r, landed)
    ensures (set call | call in landed) <= OwedCalls(c, r)
    ensures OwedCalls(d, r) == OwedCalls(c, r) - (set call | call in landed)
  {
    forall call ensures (call in OwedCalls(c, r) <==> S.Owed(c, r, call)) && (call in OwedCalls(d, r) <==> S.Owed(d, r, call)) {
      OwedCallsAreOwed(c, r, call);
      OwedCallsAreOwed(d, r, call);
    }
  }

  lemma SetLess<E>(x: set<E>, y: set<E>)
    requires y <= x
    ensures |x - y| + |y| == |x|
  {
    assert x == (x - y) + y;
  }

  /** What is owed, what is on its way back, what the loop has left to do. */
  function Left(u: Setup, base: seq<Store>, w: World): nat
    requires R.Shaped(w.s) && FiveStores(base)
  {
    16 * |OwedCalls(w.cache, Goal(u, base, w))| + 15 * w.undelivered + R.Work(w.s)
  }

  lemma RoundHasTheGoal(u: Setup, base: seq<Store>, w: World, ok: S.Call -> bool)
    requires IgnoresWriteBack(u) && Steady(u, base, w)
    ensures FiveStores(w.s.snapshot) && S.SameGoal(RoundOf(u, w, ok), Goal(u, base, w))
  {
    SameSnapshots(u, base, w.s.snapshot);
  }

  lemma PaysTheGoal(c: S.Cache, d: S.Cache, r: S.Round, goal: S.Round, landed: seq<S.Call>)
    requires S.Pays(c, d, r, landed) && S.SameGoal(r, goal)
    ensures S.Pays(c, d, goal, landed)
  {
    forall call ensures (S.Owed(c, r, call) <==> S.Owed(c, goal, call)) && (S.Owed(d, r, call) <==> S.Owed(d, goal, call)) {
      S.GoalOwes(c, r, goal, call);
      S.GoalOwes(d, r, goal, call);
    }
  }

  /** A step gets written only what is owed, each once, and settles exactly that. */
  lemma StepPays(u: Setup, base: seq<Store>, w: World, step: Step)
    requires IgnoresWriteBack(u) && Steady(u, base, w) && Enabled(u, w, step)
    ensures S.Pays(w.cache, After(u, w, step).cache, Goal(u, base, w), LandedIn(u, w, step))
  {
    if step.Sync? {
      RoundHasTheGoal(u, base, w, step.ok);
      S.SyncPays(w.cache, RoundOf(u, w, step.ok), step.clears);
      PaysTheGoal(w.cache, After(u, w, step).cache, RoundOf(u, w, step.ok), Goal(u, base, w), LandedIn(u, w, step));
    }
  }

  lemma LoopWork(u: Setup, w: World, step: Step)
    requires R.Shaped(w.s) && Enabled(u, w, step)
    ensures R.Work(After(u, w, step).s) < R.Work(w.s) + if step.Watch? then 15 else 0
  {
    match step
    case Inner(e) => R.WorkShrinks(CompilerOf(u), w.s, e);
    case Sync(_, _) => R.WorkShrinks(CompilerOf(u), w.s, R.Synced);
    case Watch =>
  }

  /** Every step brings the cycle nearer its end. */
  lemma StepLeavesLess(u: Setup, base: seq<Store>, w: World, step: Step)
    requires IgnoresWriteBack(u) && Steady(u, base, w) && Enabled(u, w, step)
    ensures Left(u, base, After(u, w, step)) < Left(u, base, w)
    ensures Goal(u, base, After(u, w, step)) == Goal(u, base, w)
  {
    StepStaysSteady(u, base, w, step);
    StepPays(u, base, w, step);
    PaidIsNotOwed(w.cache, After(u, w, step).cache, Goal(u, base, w), LandedIn(u, w, step));
    LoopWork(u, w, step);
  }

  // -------------------------------------------------------------------------
  // Runs
  // -------------------------------------------------------------------------

  ghost predicate Runs(u: Setup, w: World, run: seq<Step>)
    requires R.Shaped(w.s)
    decreases |run|
  {
    run == [] || (Enabled(u, w, run[0]) && Runs(u, After(u, w, run[0]), run[1..]))
  }

  ghost function Final(u: Setup, w: World, run: seq<Step>): (x: World)
    requires R.Shaped(w.s) && Runs(u, w, run)
    ensures R.Shaped(x.s)
    decreases |run|
  {
    if run == [] then w else Final(u, After(u, w, run[0]), run[1..])
  }

  /** Everything a run got written. */
  ghost function LandedDuring(u: Setup, w: World, run: seq<Step>): seq<S.Call>
    requires R.Shaped(w.s) && Runs(u, w, run)
    decreases |run|
  {
    if run == [] then [] else LandedIn(u, w, run[0]) + LandedDuring(u, After(u, w, run[0]), run[1..])
  }

  /**
   * The cycle ends: from a steady state, however its steps interleave and
   * whichever writes fail, it never publishes, writes only what was owed, each
   * thing at most once, and takes no more steps than were left at the start.
   */
  lemma {:induction false} CycleEnds(u: Setup, base: seq<Store>, w: World, run: seq<Step>)
    requires IgnoresWriteBack(u) && Steady(u, base, w) && Runs(u, w, run)
    ensures var x := Final(u, w, run);
            && Steady(u, base, x) && x.s.log == w.s.log
            && S.Pays(w.cache, x.cache, Goal(u, base, w), LandedDuring(u, w, run))
            && |run| + Left(u, base, x) <= Left(u, base, w)
    decreases |run|
  {
    if run != [] {
      var next := After(u, w, run[0]);
      StepStaysSteady(u, base, w, run[0]);
      StepPays(u, base, w, run[0]);
      StepLeavesLess(u, base, w, run[0]);
      CycleEnds(u, base, next, run[1..]);
      S.PaysInTurn(w.cache, next.cache, Final(u, w, run).cache, Goal(u, base, w), LandedIn(u, w, run[0]),
                   LandedDuring(u, next, run[1..]));
    }
  }

  lemma SomeClears(c: S.Cache, r: S.Round) returns (clears: seq<S.Call>)
    ensures S.ClearsStale(c, r, clears)
  {
    clears := Enumerate(set k | k in c.applied && k !in r.managed :: S.Clear(k));
  }

  lemma CanDeliver(u: Setup, base: seq<Store>, w: World)
    requires Steady(u, base, w) && R.Quiescent(w.s) && w.undelivered > 0
    ensures Enabled(u, w, Watch)
  {
    assert w.s.feeders[0] == R.Idle;
  }

  lemma CanSync(u: Setup, base: seq<Store>, w: World) returns (step: Step)
    requires IgnoresWriteBack(u) && Steady(u, base, w) && R.Enabled(w.s, R.Synced)
    ensures Enabled(u, w, step)
  {
    var ok: S.Call -> bool := _ => true;
    RoundHasTheGoal(u, base, w, ok);
    var clears := SomeClears(w.cache, RoundOf(u, w, ok));
    step := Sync(ok, clears);
  }

  /** Until the loop is quiet and every event delivered, some step can be taken: the end is quiet. */
  lemma QuietOrMoves(u: Setup, base: seq<Store>, w: World) returns (step: Step)
    requires IgnoresWriteBack(u) && Steady(u, base, w)
    ensures (R.Quiescent(w.s) && w.undelivered == 0) || Enabled(u, w, step)
  {
    var e := R.QuietOrEnabled(CompilerOf(u), w.s);
    step := Inner(e);
    if R.Quiescent(w.s) {
      step := Watch;
      if w.undelivered > 0 {
        CanDeliver(u, base, w);
      }
    } else if e.Synced? {
      step := CanSync(u, base, w);
    }
  }
}
