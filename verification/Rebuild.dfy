/**
 * The watch, coalesce, compile, publish loop as a system of interleaved steps.
 *
 * Five feeders each mirror one kind of object. A feeder changes its store,
 * marks a restart if that is what the event was, and pokes a one-slot channel,
 * each a step of its own with anything in between. The rebuild loop reads the
 * five stores one at a time. Everything below holds of every interleaving.
 */
module Rebuild {
  import opened Wrappers

  const KINDS := 5

  /** What a feeder still has to do about the event it is handling. */
  datatype Feeder = Idle | OwesMark | OwesPoke

  datatype Pc =
    | AwaitReady
    | Top
    | Reading(next: nat)
    | Syncing
    | Waiting
    | Draining
    | Stopped

  datatype Published = Published(generation: nat, digest: int)

  /**
   * `log` is every publish so far; `marks` counts watch restarts and `covered`
   * those an invalidation has answered; `built` is the last snapshot compiled.
   */
  datatype State<C> = State(
    stores: seq<C>,
    listed: seq<bool>,
    feeders: seq<Feeder>,
    dirty: bool,
    resynced: bool,
    pc: Pc,
    snapshot: seq<C>,
    log: seq<Published>,
    built: Option<seq<C>>,
    marks: nat,
    covered: nat)
  {
    function Generation(): nat {
      if log == [] then 0 else log[|log| - 1].generation
    }

    function Digest(): Option<int> {
      if log == [] then None else Some(log[|log| - 1].digest)
    }
  }

  datatype Event<C> =
    | Reflect(kind: nat, contents: C, lists: bool)  // the watcher delivered an object or finished a list
    | Restart(kind: nat)                            // the watcher began a new list
    | Mark(kind: nat)
    | Poke(kind: nat)
    | Ready
    | Abandon
    | Swap
    | Read
    | Publish
    | Synced
    | Wake
    | Drain
    | Timeout

  /** Compiling five stores: a digest, or a table the router refused. */
  type Compiler<!C> = seq<C> -> Option<int>

  predicate Shaped<C>(s: State<C>) {
    |s.stores| == |s.listed| == |s.feeders| == |s.snapshot| == KINDS
  }

  predicate Enabled<C>(s: State<C>, e: Event<C>)
    requires Shaped(s)
  {
    s.pc != Stopped &&
    match e
    case Reflect(k, _, _) => k < KINDS && s.feeders[k] == Idle
    case Restart(k) => k < KINDS && s.feeders[k] == Idle
    case Mark(k) => k < KINDS && s.feeders[k] == OwesMark
    case Poke(k) => k < KINDS && s.feeders[k] == OwesPoke
    case Ready => s.pc == AwaitReady && forall k :: 0 <= k < KINDS ==> s.listed[k]
    case Abandon => s.pc == AwaitReady
    case Swap => s.pc == Top
    case Read => s.pc.Reading? && s.pc.next < KINDS
    case Publish => s.pc == Reading(KINDS)
    case Synced => s.pc == Syncing
    case Wake => s.pc == Waiting && s.dirty
    case Drain => s.pc == Draining && s.dirty
    case Timeout => s.pc == Draining
  }

  /** A compile that fails keeps the last table and skips the write-back. */
  function AfterPublish<C>(s: State<C>, compiled: Option<int>): State<C> {
    var t := s.(built := Some(s.snapshot));
    match compiled
    case None => t.(pc := Waiting)
    case Some(d) =>
      if s.Digest() == Some(d) then t.(pc := Syncing)
      else t.(pc := Syncing, log := s.log + [Published(s.Generation() + 1, d)])
  }

  function After<C>(compile: Compiler<C>, s: State<C>, e: Event<C>): (t: State<C>)
    requires Shaped(s) && Enabled(s, e)
    ensures Shaped(t)
  {
    match e
    case Reflect(k, contents, lists) =>
      s.(stores := s.stores[k := contents], listed := s.listed[k := s.listed[k] || lists], feeders := s.feeders[k := OwesPoke])
    case Restart(k) => s.(feeders := s.feeders[k := OwesMark])
    case Mark(k) => s.(resynced := true, marks := s.marks + 1, feeders := s.feeders[k := OwesPoke])
    case Poke(k) => s.(dirty := true, feeders := s.feeders[k := Idle])
    case Ready => s.(pc := Top)
    case Abandon => s.(pc := Stopped)
    case Swap => s.(resynced := false, covered := s.marks, pc := Reading(0))
    case Read => s.(snapshot := s.snapshot[s.pc.next := s.stores[s.pc.next]], pc := Reading(s.pc.next + 1))
    case Publish => AfterPublish(s, compile(s.snapshot))
    case Synced => s.(pc := Waiting)
    case Wake => s.(dirty := false, pc := Draining)
    case Drain => s.(dirty := false)
    case Timeout => s.(pc := Top)
  }

  predicate Initial<C>(s: State<C>) {
    && Shaped(s)
    && (forall k :: 0 <= k < KINDS ==> s.feeders[k] == Idle && !s.listed[k])
    && !s.dirty && !s.resynced && s.pc == AwaitReady
    && s.log == [] && s.built == None && s.marks == 0 && s.covered == 0
  }

  // -------------------------------------------------------------------------
  // The invariant
  // -------------------------------------------------------------------------

  predicate Owing<C>(s: State<C>)
    requires Shaped(s)
  {
    exists k :: 0 <= k < KINDS && s.feeders[k] != Idle
  }

  /** The loop will read store `k` again before it next sleeps. */
  predicate BoundToRead(pc: Pc, k: nat) {
    pc == AwaitReady || pc == Top || pc == Draining || pc == Stopped || (pc.Reading? && pc.next <= k)
  }

  /** A change to store `k` that the snapshot misses cannot be forgotten. */
  ghost predicate NotLost<C>(s: State<C>, k: nat)
    requires Shaped(s) && k < KINDS
  {
    s.snapshot[k] != s.stores[k] ==> s.dirty || s.feeders[k] == OwesPoke || BoundToRead(s.pc, k)
  }

  ghost predicate NoLostUpdate<C(!new)>(s: State<C>)
    requires Shaped(s)
  {
    forall k: nat :: k < KINDS ==> NotLost(s, k)
  }

  /** A restart nobody has answered is still flagged, and the flag will be looked at. */
  ghost predicate NoLostRestart<C>(s: State<C>)
    requires Shaped(s)
  {
    && s.covered <= s.marks
    && (s.resynced <==> s.covered < s.marks)
    && (s.resynced ==> s.dirty || Owing(s) || s.pc == AwaitReady || s.pc == Top || s.pc == Draining || s.pc == Stopped)
  }

  /** Generations count publishes from 1, and neighbours differ. */
  ghost predicate PublishesDiffer(log: seq<Published>) {
    && (forall i :: 0 <= i < |log| ==> log[i].generation == i + 1)
    && (forall i, j :: 0 <= i < |log| && j == i + 1 && j < |log| ==> log[i].digest != log[j].digest)
  }

  /** The last publish is what the last compiled snapshot compiles to, if it compiles. */
  ghost predicate PublishedIsBuilt<C>(compile: Compiler<C>, s: State<C>) {
    && (s.built.Some? && compile(s.built.value).Some? ==> s.Digest() == compile(s.built.value))
    && (s.pc == Syncing || s.pc == Waiting ==> s.built == Some(s.snapshot))
    && (s.pc.Reading? ==> s.pc.next <= KINDS)
  }

  ghost predicate Inv<C(!new)>(compile: Compiler<C>, s: State<C>) {
    && Shaped(s)
    && NoLostUpdate(s)
    && NoLostRestart(s)
    && PublishesDiffer(s.log)
    && PublishedIsBuilt(compile, s)
  }

  lemma InitialInv<C(!new)>(compile: Compiler<C>, s: State<C>)
    requires Initial(s)
    ensures Inv(compile, s)
  {
  }

  lemma UpdatesKept<C(!new)>(compile: Compiler<C>, s: State<C>, e: Event<C>)
    requires Shaped(s) && NoLostUpdate(s) && Enabled(s, e)
    ensures NoLostUpdate(After(compile, s, e))
  {
    var t := After(compile, s, e);
    forall k: nat | k < KINDS ensures NotLost(t, k) {
      assert NotLost(s, k);
    }
  }

  lemma RestartsKept<C(!new)>(compile: Compiler<C>, s: State<C>, e: Event<C>)
    requires Shaped(s) && NoLostRestart(s) && Enabled(s, e)
    ensures NoLostRestart(After(compile, s, e))
  {
    var t := After(compile, s, e);
    if k :| 0 <= k < KINDS && s.feeders[k] != Idle {
      assert t.feeders[k] != Idle || t.dirty;
    }
    if e.Mark? {
      assert t.feeders[e.kind] != Idle;
    }
  }

  lemma OneMorePublish(log: seq<Published>, p: Published)
    requires PublishesDiffer(log)
    requires p.generation == |log| + 1 && (log != [] ==> log[|log| - 1].digest != p.digest)
    ensures PublishesDiffer(log + [p])
  {
  }

  lemma PublishingKeeps<C(!new)>(compile: Compiler<C>, s: State<C>)
    requires Shaped(s) && s.pc == Reading(KINDS)
    requires PublishesDiffer(s.log) && PublishedIsBuilt(compile, s)
    ensures var t := AfterPublish(s, compile(s.snapshot)); PublishesDiffer(t.log) && PublishedIsBuilt(compile, t)
  {
    match compile(s.snapshot)
    case None =>
    case Some(d) =>
      if s.Digest() != Some(d) {
        OneMorePublish(s.log, Published(s.Generation() + 1, d));
      }
  }

  lemma PublishesKept<C(!new)>(compile: Compiler<C>, s: State<C>, e: Event<C>)
    requires Shaped(s) && Enabled(s, e)
    requires PublishesDiffer(s.log) && PublishedIsBuilt(compile, s)
    ensures PublishesDiffer(After(compile, s, e).log) && PublishedIsBuilt(compile, After(compile, s, e))
  {
    if e.Publish? {
      PublishingKeeps(compile, s);
    }
  }

  lemma InvKept<C(!new)>(compile: Compiler<C>, s: State<C>, e: Event<C>)
    requires Inv(compile, s) && Enabled(s, e)
    ensures Inv(compile, After(compile, s, e))
  {
    UpdatesKept(compile, s, e);
    RestartsKept(compile, s, e);
    PublishesKept(compile, s, e);
  }

  // -------------------------------------------------------------------------
  // Runs
  // -------------------------------------------------------------------------

  /** `run` can be taken from `s`, one step at a time. */
  predicate Runs<C>(compile: Compiler<C>, s: State<C>, run: seq<Event<C>>)
    requires Shaped(s)
    decreases |run|
  {
    run == [] || (Enabled(s, run[0]) && Runs(compile, After(compile, s, run[0]), run[1..]))
  }

  function Final<C>(compile: Compiler<C>, s: State<C>, run: seq<Event<C>>): (t: State<C>)
    requires Shaped(s) && Runs(compile, s, run)
    ensures Shaped(t)
    decreases |run|
  {
    if run == [] then s else Final(compile, After(compile, s, run[0]), run[1..])
  }

  lemma {:induction false} RunKeepsInv<C(!new)>(compile: Compiler<C>, s: State<C>, run: seq<Event<C>>)
    requires Inv(compile, s) && Runs(compile, s, run)
    ensures Inv(compile, Final(compile, s, run))
    decreases |run|
  {
    if run != [] {
      InvKept(compile, s, run[0]);
      RunKeepsInv(compile, After(compile, s, run[0]), run[1..]);
    }
  }

  /** Nothing left to do until the cluster changes again. */
  predicate Quiescent<C>(s: State<C>)
    requires Shaped(s)
  {
    !Owing(s) && !s.dirty && s.pc == Waiting
  }

  /**
   * No lost update, over every run: once the system is quiet the last compile
   * saw the stores as they are, what it compiled to is what is published, every
   * restart has been answered, and no publish repeated the one before it.
   */
  lemma QuietMeansCurrent<C(!new)>(compile: Compiler<C>, s: State<C>, run: seq<Event<C>>)
    requires Initial(s) && Runs(compile, s, run)
    requires Quiescent(Final(compile, s, run))
    ensures var t := Final(compile, s, run);
            && t.built == Some(t.stores)
            && (compile(t.stores).Some? ==> t.Digest() == compile(t.stores))
            && t.covered == t.marks && !t.resynced
    ensures PublishesDiffer(Final(compile, s, run).log)
  {
    InitialInv(compile, s);
    RunKeepsInv(compile, s, run);
    var t := Final(compile, s, run);
    forall k: nat | k < KINDS ensures t.snapshot[k] == t.stores[k] {
      assert NotLost(t, k);
    }
    assert t.snapshot == t.stores;
  }

  // -------------------------------------------------------------------------
  // Settling
  // -------------------------------------------------------------------------

  function PcRank(pc: Pc): nat {
    match pc
    case AwaitReady => 9
    case Draining => 9
    case Top => 8
    case Reading(i) => if i <= 5 then 7 - i else 2
    case Syncing => 1
    case Waiting => 0
    case Stopped => 0
  }

  function Debt(f: Feeder): nat {
    match f case Idle => 0 case OwesPoke => 14 case OwesMark => 15
  }

  /** What is left to do if nothing more arrives. */
  function Work<C>(s: State<C>): nat
    requires Shaped(s)
  {
    Debt(s.feeders[0]) + Debt(s.feeders[1]) + Debt(s.feeders[2]) + Debt(s.feeders[3]) + Debt(s.feeders[4])
    + (if s.dirty then 12 else 0) + PcRank(s.pc)
  }

  predicate FromCluster<C>(e: Event<C>) {
    e.Reflect? || e.Restart?
  }

  /** Handling what a feeder owes shrinks that feeder's debt alone. */
  lemma DebtShrinks<C(!new)>(s: State<C>, k: nat, f: Feeder)
    requires Shaped(s) && k < KINDS && Debt(f) < Debt(s.feeders[k])
    ensures Work(s.(feeders := s.feeders[k := f])) == Work(s) - Debt(s.feeders[k]) + Debt(f)
  {
  }

  /** Every step but the cluster's own brings the system nearer to quiet. */
  lemma WorkShrinks<C(!new)>(compile: Compiler<C>, s: State<C>, e: Event<C>)
    requires Shaped(s) && Enabled(s, e) && !FromCluster(e)
    ensures Work(After(compile, s, e)) < Work(s)
  {
    if e.Mark? {
      DebtShrinks(s, e.kind, OwesPoke);
    } else if e.Poke? {
      DebtShrinks(s, e.kind, Idle);
    }
  }

  /** A system past its initial lists is quiet or can move. */
  lemma QuietOrEnabled<C(!new)>(compile: Compiler<C>, s: State<C>) returns (e: Event<C>)
    requires Inv(compile, s) && s.pc != Stopped && s.pc != AwaitReady
    ensures Quiescent(s) || (Enabled(s, e) && !FromCluster(e))
  {
    if k :| 0 <= k < KINDS && s.feeders[k] != Idle {
      e := if s.feeders[k] == OwesMark then Mark(k) else Poke(k);
    } else {
      e := match s.pc
        case Top => Swap
        case Reading(i) => if i < KINDS then Read else Publish
        case Syncing => Synced
        case Draining => Timeout
        case _ => Wake;
    }
  }

  /** When the cluster stops changing the system is quiet after at most `Work` steps. */
  lemma {:induction false} Settles<C(!new)>(compile: Compiler<C>, s: State<C>, run: seq<Event<C>>)
    requires Inv(compile, s) && Runs(compile, s, run)
    requires forall e :: e in run ==> !FromCluster(e)
    ensures |run| + Work(Final(compile, s, run)) <= Work(s)
    decreases |run|
  {
    if run != [] {
      assert run[0] in run && forall e :: e in run[1..] ==> e in run;
      InvKept(compile, s, run[0]);
      WorkShrinks(compile, s, run[0]);
      Settles(compile, After(compile, s, run[0]), run[1..]);
    }
  }

  // -------------------------------------------------------------------------
  // Events that change nothing compiled
  // -------------------------------------------------------------------------

  ghost predicate SameEssence<C, E>(essence: C -> E, a: seq<C>, b: seq<C>) {
    |a| == |b| && forall k :: 0 <= k < |a| ==> essence(a[k]) == essence(b[k])
  }

  /** The compiler looks at nothing but each store's essence. */
  ghost predicate CompilesEssence<C(!new), E>(compile: Compiler<C>, essence: C -> E) {
    forall a, b :: SameEssence(essence, a, b) ==> compile(a) == compile(b)
  }

  /** Every delivered object leaves its store's essence as it was in `base`. */
  ghost predicate Inessential<C, E>(essence: C -> E, base: seq<C>, run: seq<Event<C>>) {
    forall e :: e in run && e.Reflect? && e.kind < |base| ==> essence(e.contents) == essence(base[e.kind])
  }

  /**
   * The feedback loop is open: watch events that change nothing compiled - our
   * own annotations coming back, relists, resyncs - never advance the
   * generation, however they interleave and however many there are.
   */
  lemma {:induction false} InessentialEventsNeverPublish<C(!new), E>(
      compile: Compiler<C>, essence: C -> E, base: seq<C>, s: State<C>, run: seq<Event<C>>)
    requires Shaped(s) && Runs(compile, s, run)
    requires CompilesEssence(compile, essence) && Inessential(essence, base, run)
    requires SameEssence(essence, s.stores, base) && SameEssence(essence, s.snapshot, base)
    requires compile(base).Some? && s.Digest() == compile(base)
    ensures Final(compile, s, run).log == s.log
    decreases |run|
  {
    if run != [] {
      assert run[0] in run && forall x :: x in run[1..] ==> x in run;
      InessentialStep(compile, essence, base, s, run[0]);
      InessentialEventsNeverPublish(compile, essence, base, After(compile, s, run[0]), run[1..]);
    }
  }

  lemma InessentialStep<C(!new), E>(compile: Compiler<C>, essence: C -> E, base: seq<C>, s: State<C>, e: Event<C>)
    requires Shaped(s) && Enabled(s, e) && CompilesEssence(compile, essence)
    requires e.Reflect? && e.kind < |base| ==> essence(e.contents) == essence(base[e.kind])
    requires SameEssence(essence, s.stores, base) && SameEssence(essence, s.snapshot, base)
    requires compile(base).Some? && s.Digest() == compile(base)
    ensures var t := After(compile, s, e);
            && t.log == s.log
            && SameEssence(essence, t.stores, base) && SameEssence(essence, t.snapshot, base)
  {
    assert compile(s.snapshot) == compile(base);
  }

  // -------------------------------------------------------------------------
  // The loop's own state
  // -------------------------------------------------------------------------

  /** The mirrors, the two signals and the loop's locals; history is ghost. */
  class Controller<C(==,!new)> {
    var stores: seq<C>
    var listed: seq<bool>
    var feeders: seq<Feeder>
    var dirty: bool
    var resynced: bool
    var pc: Pc
    var snapshot: seq<C>
    var generation: nat
    var publishedDigest: Option<int>
    ghost var log: seq<Published>
    ghost var built: Option<seq<C>>
    ghost var marks: nat
    ghost var covered: nat

    ghost function Model(): State<C>
      reads this
    {
      State(stores, listed, feeders, dirty, resynced, pc, snapshot, log, built, marks, covered)
    }

    ghost predicate Valid()
      reads this
    {
      Shaped(Model()) && generation == Model().Generation() && publishedDigest == Model().Digest()
    }

    constructor (empty: C)
      ensures Valid() && Initial(Model())
    {
      stores, snapshot := seq(KINDS, _ => empty), seq(KINDS, _ => empty);
      listed, feeders := seq(KINDS, _ => false), seq(KINDS, _ => Idle);
      dirty, resynced, pc := false, false, AwaitReady;
      generation, publishedDigest := 0, None;
      log, built, marks, covered := [], None, 0, 0;
    }

    /** The watcher restarted: whoever caches what we wrote must forget it. */
    method MarkRestart(compile: Compiler<C>, k: nat)
      requires Valid() && Enabled(Model(), Mark(k))
      modifies this
      ensures Valid() && Model() == After(compile, old(Model()), Mark(k))
    {
      resynced := true;
      marks := marks + 1;
      feeders := feeders[k := OwesPoke];
    }

    /** `try_send`: a full slot already means a rebuild is pending. */
    method TrySend(compile: Compiler<C>, k: nat)
      requires Valid() && Enabled(Model(), Poke(k))
      modifies this
      ensures Valid() && Model() == After(compile, old(Model()), Poke(k))
    {
      if !dirty {
        dirty := true;
      }
      feeders := feeders[k := Idle];
    }

    /** Takes the restart flag at the top of the loop; the caches go if it was set. */
    method TakeResynced(compile: Compiler<C>) returns (invalidate: bool)
      requires Valid() && Enabled(Model(), Swap)
      modifies this
      ensures Valid() && Model() == After(compile, old(Model()), Swap)
      ensures old(NoLostRestart(Model())) ==> (invalidate <==> old(covered) < old(marks))
    {
      invalidate := resynced;
      resynced := false;
      covered := marks;
      pc := Reading(0);
    }

    method ReadStore(compile: Compiler<C>)
      requires Valid() && Enabled(Model(), Read)
      modifies this
      ensures Valid() && Model() == After(compile, old(Model()), Read)
    {
      snapshot := snapshot[pc.next := stores[pc.next]];
      pc := Reading(pc.next + 1);
    }

    /** Compiles the snapshot and publishes it unless its digest is already out. */
    method Rebuild(compile: Compiler<C>) returns (sent: Option<Published>)
      requires Valid() && Enabled(Model(), Publish)
      modifies this
      ensures Valid() && Model() == After(compile, old(Model()), Publish)
      ensures sent.Some? <==> compile(old(snapshot)).Some? && compile(old(snapshot)) != old(publishedDigest)
      ensures sent.Some? ==> sent.value == Published(old(generation) + 1, compile(old(snapshot)).value)
      ensures log == old(log) + if sent.Some? then [sent.value] else []
    {
      built := Some(snapshot);
      sent := None;
      match compile(snapshot)
      case None => pc := Waiting;
      case Some(digest) =>
        if publishedDigest != Some(digest) {
          generation := generation + 1;
          publishedDigest := Some(digest);
          sent := Some(Published(generation, digest));
          log := log + [sent.value];
        }
        pc := Syncing;
    }

    /** Empties the slot: the first receive opens the window, later ones only drain. */
    method Receive(compile: Compiler<C>)
      requires Valid() && dirty && (pc == Waiting || pc == Draining)
      modifies this
      ensures Valid() && Model() == After(compile, old(Model()), if old(pc) == Waiting then Wake else Drain)
    {
      dirty := false;
      pc := Draining;
    }
  }
}
