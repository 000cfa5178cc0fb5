/**
 * Writing back: each managed Ingress's address and the generation that last
 * included it, at most once each, however often the loop rebuilds.
 */
module Status {
  import opened Wrappers
  import opened Ordering
  import opened Objects

  datatype Address = Ip(ip: string) | Hostname(name: string)

  /** A request to the API server. */
  datatype Call =
    | Clear(key: ObjectKey)
    | Write(key: ObjectKey, address: Address)
    | Annotate(key: ObjectKey, generation: nat)

  /** What one sync is given: `ok` is what the API server would answer, `observed` a delayed view. */
  datatype Round = Round(
    managed: seq<ObjectKey>,
    generation: nat,
    observed: map<ObjectKey, nat>,
    address: Option<Address>,
    ok: Call -> bool)

  /** What was last successfully written. */
  datatype Cache = Cache(applied: map<ObjectKey, Address>, annotated: map<ObjectKey, nat>)

  predicate Holds<V(==)>(m: map<ObjectKey, V>, key: ObjectKey, v: V) {
    key in m && m[key] == v
  }

  predicate NeedsAnnotation(key: ObjectKey, generation: nat, observed: map<ObjectKey, nat>, annotated: map<ObjectKey, nat>) {
    !Holds(observed, key, generation) && !Holds(annotated, key, generation)
  }

  predicate NeedsAddress(key: ObjectKey, address: Option<Address>, applied: map<ObjectKey, Address>) {
    address.Some? && !Holds(applied, key, address.value)
  }

  // -------------------------------------------------------------------------
  // One sync
  // -------------------------------------------------------------------------

  function AfterStale(c: Cache, r: Round): Cache {
    Cache(map k | k in c.applied && (k in r.managed || !r.ok(Clear(k))) :: c.applied[k],
          map k | k in c.annotated && k in r.managed :: c.annotated[k])
  }

  function VisitCalls(c: Cache, r: Round, key: ObjectKey): seq<Call> {
    (if NeedsAddress(key, r.address, c.applied) then [Write(key, r.address.value)] else [])
    + (if NeedsAnnotation(key, r.generation, r.observed, c.annotated) then [Annotate(key, r.generation)] else [])
  }

  function AfterCall(c: Cache, call: Call): Cache {
    match call
    case Clear(k) => c.(applied := c.applied - {k})
    case Write(k, a) => c.(applied := c.applied[k := a])
    case Annotate(k, g) => c.(annotated := c.annotated[k := g])
  }

  function AfterCalls(c: Cache, calls: seq<Call>, ok: Call -> bool): Cache {
    if calls == [] then c
    else
      var before, last := AfterCalls(c, calls[..|calls| - 1], ok), calls[|calls| - 1];
      if ok(last) then AfterCall(before, last) else before
  }

  function Visited(c: Cache, r: Round, keys: seq<ObjectKey>): Cache {
    if keys == [] then c
    else
      var before := Visited(c, r, keys[..|keys| - 1]);
      AfterCalls(before, VisitCalls(before, r, keys[|keys| - 1]), r.ok)
  }

  /** The calls made for managed Ingresses, in order. */
  function VisitsCalls(c: Cache, r: Round, keys: seq<ObjectKey>): seq<Call> {
    if keys == [] then []
    else
      var init, last := keys[..|keys| - 1], keys[|keys| - 1];
      VisitsCalls(c, r, init) + VisitCalls(Visited(c, r, init), r, last)
  }

  function AfterSync(c: Cache, r: Round): Cache {
    Visited(AfterStale(c, r), r, r.managed)
  }

  predicate Stale(c: Cache, r: Round, k: ObjectKey) {
    k in c.applied && k !in r.managed
  }

  /** `calls` is a walk over the stale entries, each cleared once. */
  ghost predicate ClearsStale(c: Cache, r: Round, calls: seq<Call>) {
    && Distinct(calls)
    && forall call :: call in calls <==> call.Clear? && Stale(c, r, call.key)
  }

  lemma OneMoreVisit(c: Cache, r: Round, i: nat)
    requires i < |r.managed|
    ensures var d := Visited(c, r, r.managed[..i]);
            && Visited(c, r, r.managed[..i + 1]) == AfterCalls(d, VisitCalls(d, r, r.managed[i]), r.ok)
            && VisitsCalls(c, r, r.managed[..i + 1]) == VisitsCalls(c, r, r.managed[..i]) + VisitCalls(d, r, r.managed[i])
  {
    assert r.managed[..i + 1][..i] == r.managed[..i];
  }

  class StatusWriter {
    var applied: map<ObjectKey, Address>
    var annotated: map<ObjectKey, nat>
    ghost var sent: seq<Call>

    ghost function Contents(): Cache
      reads this
    {
      Cache(applied, annotated)
    }

    constructor ()
      ensures Contents() == Cache(map[], map[]) && sent == []
    {
      applied, annotated, sent := map[], map[], [];
    }

    /** Clears the address of what is no longer managed, in the hash map's order. */
    method ClearUnmanaged(r: Round) returns (ghost calls: seq<Call>)
      modifies this
      ensures ClearsStale(old(Contents()), r, calls) && sent == old(sent) + calls
      ensures applied == AfterStale(old(Contents()), r).applied && annotated == old(annotated)
    {
      calls := [];
      ghost var before := applied;
      var stale := set k | k in applied && k !in r.managed;
      var left := stale;
      while left != {}
        invariant left <= stale && annotated == old(annotated)
        invariant Distinct(calls) && sent == old(sent) + calls
        invariant forall call :: call in calls <==> call.Clear? && call.key in stale && call.key !in left
        invariant applied == map k | k in before && (k !in stale || k in left || !r.ok(Clear(k))) :: before[k]
        decreases left
      {
        var key :| key in left;
        left := left - {key};
        calls := calls + [Clear(key)];
        sent := sent + [Clear(key)];
        if r.ok(Clear(key)) {
          applied := applied - {key};
        }
      }
    }

    /** Brings one managed Ingress up to date, remembering only what stuck. */
    method VisitOne(r: Round, key: ObjectKey)
      modifies this
      ensures Contents() == AfterCalls(old(Contents()), VisitCalls(old(Contents()), r, key), r.ok)
      ensures sent == old(sent) + VisitCalls(old(Contents()), r, key)
    {
      ghost var calls := VisitCalls(Contents(), r, key);
      ghost var write := if NeedsAddress(key, r.address, applied) then [Write(key, r.address.value)] else [];
      AfterTwo(Contents(), calls, r.ok, write);
      if r.address.Some? && !Holds(applied, key, r.address.value) {
        sent := sent + [Write(key, r.address.value)];
        if r.ok(Write(key, r.address.value)) {
          applied := applied[key := r.address.value];
        }
      }
      if NeedsAnnotation(key, r.generation, r.observed, annotated) {
        sent := sent + [Annotate(key, r.generation)];
        if r.ok(Annotate(key, r.generation)) {
          annotated := annotated[key := r.generation];
        }
      }
    }

    method VisitAll(r: Round)
      modifies this
      ensures Contents() == Visited(old(Contents()), r, r.managed)
      ensures sent == old(sent) + VisitsCalls(old(Contents()), r, r.managed)
    {
      ghost var c, so := Contents(), sent;
      for i := 0 to |r.managed|
        invariant Contents() == Visited(c, r, r.managed[..i])
        invariant sent == so + VisitsCalls(c, r, r.managed[..i])
      {
        OneMoreVisit(c, r, i);
        ConcatAssociative(so, VisitsCalls(c, r, r.managed[..i]), VisitCalls(Contents(), r, r.managed[i]));
        VisitOne(r, r.managed[i]);
      }
      assert r.managed[..|r.managed|] == r.managed;
    }

    method Sync(r: Round) returns (ghost cleared: seq<Call>)
      modifies this
      ensures Contents() == AfterSync(old(Contents()), r)
      ensures ClearsStale(old(Contents()), r, cleared)
      ensures sent == old(sent) + cleared + VisitsCalls(AfterStale(old(Contents()), r), r, r.managed)
    {
      cleared := ClearUnmanaged(r);
      annotated := map k | k in annotated && k in r.managed :: annotated[k];
      VisitAll(r);
    }

    /** After a watch restart nothing is assumed written. */
    method Invalidate()
      modifies this
      ensures Contents() == Cache(map[], map[]) && sent == old(sent)
    {
      applied, annotated := map[], map[];
    }
  }

  lemma AfterTwo(c: Cache, calls: seq<Call>, ok: Call -> bool, write: seq<Call>)
    requires |write| <= 1 && write <= calls && |calls| <= |write| + 1
    ensures AfterCalls(c, write, ok) == if write == [] || !ok(write[0]) then c else AfterCall(c, write[0])
    ensures AfterCalls(c, calls, ok) == if calls == write || !ok(calls[|write|]) then AfterCalls(c, write, ok)
                                        else AfterCall(AfterCalls(c, write, ok), calls[|write|])
  {
    if write != [] {
      assert write[..0] == [];
    }
    if calls != write {
      assert calls[..|calls| - 1] == write;
    }
  }

  // -------------------------------------------------------------------------
  // What is owed
  // -------------------------------------------------------------------------

  /** The same Ingresses, generation and address; views and outcomes may differ. */
  predicate SameGoal(r: Round, q: Round) {
    r.managed == q.managed && r.generation == q.generation && r.address == q.address
  }

  /** The writes that would bring the cache to what the round wants. */
  predicate Owed(c: Cache, r: Round, call: Call) {
    match call
    case Clear(k) => Stale(c, r, k)
    case Write(k, a) => k in r.managed && r.address == Some(a) && !Holds(c.applied, k, a)
    case Annotate(k, g) => k in r.managed && g == r.generation && !Holds(c.annotated, k, g)
  }

  /** Owed, and not already visible on the object. */
  predicate Due(c: Cache, r: Round, call: Call) {
    Owed(c, r, call) && (call.Annotate? ==> !Holds(r.observed, call.key, call.generation))
  }

  function Landed(calls: seq<Call>, ok: Call -> bool): seq<Call> {
    Keep(ok, calls)
  }

  /** Landing what is owed settles that and nothing else. */
  lemma LandingSettles(c: Cache, r: Round, call: Call, other: Call)
    requires Owed(c, r, call)
    ensures Owed(AfterCall(c, call), r, other) <==> Owed(c, r, other) && other != call
  {
  }

  /** Calls that are owed and made once each settle exactly those that landed. */
  ghost predicate Pays(c: Cache, d: Cache, r: Round, landed: seq<Call>) {
    && Distinct(landed)
    && (forall call :: call in landed ==> Owed(c, r, call))
    && (forall call :: Owed(d, r, call) <==> Owed(c, r, call) && call !in landed)
  }

  lemma PaysInTurn(c: Cache, d: Cache, e: Cache, r: Round, a: seq<Call>, b: seq<Call>)
    requires Pays(c, d, r, a) && Pays(d, e, r, b)
    ensures Pays(c, e, r, a + b)
  {
    DistinctConcat(a, b);
  }

  lemma LandedConcat(a: seq<Call>, b: seq<Call>, ok: Call -> bool)
    ensures Landed(a + b, ok) == Landed(a, ok) + Landed(b, ok)
  {
    KeepConcat(ok, a, b);
  }

  lemma OneCallPays(c: Cache, r: Round, call: Call)
    requires Owed(c, r, call)
    ensures Pays(c, AfterCalls(c, [call], r.ok), r, Landed([call], r.ok))
  {
    assert [call][..0] == [];
    assert Keep(r.ok, [call][..0]) == [];
    assert Landed([call], r.ok) == if r.ok(call) then [call] else [];
    forall other ensures r.ok(call) ==> (Owed(AfterCall(c, call), r, other) <==> Owed(c, r, other) && other != call) {
      LandingSettles(c, r, call, other);
    }
  }

  lemma {:induction false} CallsConcat(c: Cache, a: seq<Call>, b: seq<Call>, ok: Call -> bool)
    ensures AfterCalls(c, a + b, ok) == AfterCalls(AfterCalls(c, a, ok), b, ok)
  {
    if b == [] {
      assert a + b == a;
    } else {
      CallsConcat(c, a, b[..|b| - 1], ok);
      assert (a + b)[..|a + b| - 1] == a + b[..|b| - 1];
    }
  }

  lemma VisitPays(c: Cache, r: Round, key: ObjectKey)
    requires key in r.managed
    ensures Pays(c, AfterCalls(c, VisitCalls(c, r, key), r.ok), r, Landed(VisitCalls(c, r, key), r.ok))
  {
    var write := if NeedsAddress(key, r.address, c.applied) then [Write(key, r.address.value)] else [];
    var note := if NeedsAnnotation(key, r.generation, r.observed, c.annotated) then [Annotate(key, r.generation)] else [];
    CallsConcat(c, write, note, r.ok);
    LandedConcat(write, note, r.ok);
    var d := AfterCalls(c, write, r.ok);
    if write != [] {
      OneCallPays(c, r, write[0]);
      assert write[..0] == [];
    }
    assert Pays(c, d, r, Landed(write, r.ok));
    assert d.annotated == c.annotated;
    if note != [] {
      OneCallPays(d, r, note[0]);
    }
    PaysInTurn(c, d, AfterCalls(d, note, r.ok), r, Landed(write, r.ok), Landed(note, r.ok));
  }

  lemma {:induction false} VisitsPay(c: Cache, r: Round, keys: seq<ObjectKey>)
    requires forall k :: k in keys ==> k in r.managed
    ensures Pays(c, Visited(c, r, keys), r, Landed(VisitsCalls(c, r, keys), r.ok))
  {
    if keys != [] {
      var init, last := keys[..|keys| - 1], keys[|keys| - 1];
      VisitsPay(c, r, init);
      var d := Visited(c, r, init);
      assert last in keys;
      VisitPays(d, r, last);
      LandedConcat(VisitsCalls(c, r, init), VisitCalls(d, r, last), r.ok);
      PaysInTurn(c, d, Visited(c, r, keys), r, Landed(VisitsCalls(c, r, init), r.ok), Landed(VisitCalls(d, r, last), r.ok));
    }
  }

  lemma StalePays(c: Cache, r: Round, clears: seq<Call>)
    requires ClearsStale(c, r, clears)
    ensures Pays(c, AfterStale(c, r), r, Landed(clears, r.ok))
  {
    KeepDistinct(r.ok, clears);
  }

  /** Every call a sync makes that lands was owed, and is owed no more. */
  lemma SyncPays(c: Cache, r: Round, clears: seq<Call>)
    requires ClearsStale(c, r, clears)
    ensures Pays(c, AfterSync(c, r), r, Landed(clears + VisitsCalls(AfterStale(c, r), r, r.managed), r.ok))
  {
    var d := AfterStale(c, r);
    StalePays(c, r, clears);
    VisitsPay(d, r, r.managed);
    LandedConcat(clears, VisitsCalls(d, r, r.managed), r.ok);
    PaysInTurn(c, d, AfterSync(c, r), r, Landed(clears, r.ok), Landed(VisitsCalls(d, r, r.managed), r.ok));
  }

  // -------------------------------------------------------------------------
  // Runs of syncs
  // -------------------------------------------------------------------------

  /** `clears[i]` is how round `i` walked its stale entries. */
  ghost predicate Syncs(c: Cache, rounds: seq<Round>, clears: seq<seq<Call>>)
    decreases |rounds|
  {
    && |rounds| == |clears|
    && (rounds != [] ==>
          ClearsStale(c, rounds[0], clears[0]) && Syncs(AfterSync(c, rounds[0]), rounds[1..], clears[1..]))
  }

  /** Everything that landed, in order. */
  function Landings(c: Cache, rounds: seq<Round>, clears: seq<seq<Call>>): seq<Call>
    requires |rounds| == |clears|
    decreases |rounds|
  {
    if rounds == [] then []
    else
      Landed(clears[0] + VisitsCalls(AfterStale(c, rounds[0]), rounds[0], rounds[0].managed), rounds[0].ok)
      + Landings(AfterSync(c, rounds[0]), rounds[1..], clears[1..])
  }

  /**
   * The cycle pays itself off: while the managed set, generation and address
   * stay put, no write lands twice however many rebuilds there are, whatever
   * the delayed view shows and whichever calls fail; and only owed ones land.
   */
  lemma {:induction false} NothingLandsTwice(c: Cache, rounds: seq<Round>, clears: seq<seq<Call>>, goal: Round)
    requires Syncs(c, rounds, clears)
    requires forall r :: r in rounds ==> SameGoal(r, goal)
    ensures Distinct(Landings(c, rounds, clears))
    ensures forall call :: call in Landings(c, rounds, clears) ==> Owed(c, goal, call)
    decreases |rounds|
  {
    if rounds != [] {
      var r, d := rounds[0], AfterSync(c, rounds[0]);
      var now := Landed(clears[0] + VisitsCalls(AfterStale(c, r), r, r.managed), r.ok);
      var later := Landings(d, rounds[1..], clears[1..]);
      assert r in rounds && forall q :: q in rounds[1..] ==> q in rounds;
      SyncPays(c, r, clears[0]);
      NothingLandsTwice(d, rounds[1..], clears[1..], goal);
      forall call ensures (Owed(c, r, call) <==> Owed(c, goal, call)) && (Owed(d, r, call) <==> Owed(d, goal, call)) {
        GoalOwes(c, r, goal, call);
        GoalOwes(d, r, goal, call);
      }
      DistinctConcat(now, later);
    }
  }

  lemma GoalOwes(c: Cache, r: Round, goal: Round, call: Call)
    requires SameGoal(r, goal)
    ensures Owed(c, r, call) <==> Owed(c, goal, call)
  {
  }

  // -------------------------------------------------------------------------
  // Which calls are made
  // -------------------------------------------------------------------------

  lemma {:induction false} VisitedElsewhere(c: Cache, r: Round, keys: seq<ObjectKey>, k: ObjectKey)
    requires k !in keys
    ensures forall a :: Holds(Visited(c, r, keys).applied, k, a) <==> Holds(c.applied, k, a)
    ensures forall g :: Holds(Visited(c, r, keys).annotated, k, g) <==> Holds(c.annotated, k, g)
  {
    if keys != [] {
      var init, last := keys[..|keys| - 1], keys[|keys| - 1];
      VisitedElsewhere(c, r, init, k);
      CallsElsewhere(Visited(c, r, init), VisitCalls(Visited(c, r, init), r, last), r.ok, k);
    }
  }

  lemma {:induction false} CallsElsewhere(c: Cache, calls: seq<Call>, ok: Call -> bool, k: ObjectKey)
    requires forall call :: call in calls ==> call.key != k
    ensures forall a :: Holds(AfterCalls(c, calls, ok).applied, k, a) <==> Holds(c.applied, k, a)
    ensures forall g :: Holds(AfterCalls(c, calls, ok).annotated, k, g) <==> Holds(c.annotated, k, g)
  {
    if calls != [] {
      CallsElsewhere(c, calls[..|calls| - 1], ok, k);
    }
  }

  lemma VisitSends(c: Cache, r: Round, key: ObjectKey, call: Call)
    requires key in r.managed
    ensures call in VisitCalls(c, r, key) <==> call.key == key && !call.Clear? && Due(c, r, call)
  {
  }

  lemma {:induction false} VisitsSend(c: Cache, r: Round, keys: seq<ObjectKey>, call: Call)
    requires forall k :: k in keys ==> k in r.managed
    ensures call in VisitsCalls(c, r, keys) <==> call.key in keys && !call.Clear? && Due(c, r, call)
  {
    if keys != [] {
      var init, last := keys[..|keys| - 1], keys[|keys| - 1];
      VisitsSend(c, r, init, call);
      VisitsPay(c, r, init);
      assert last in keys;
      VisitSends(Visited(c, r, init), r, last, call);
      if call.key !in init {
        VisitedElsewhere(c, r, init, call.key);
      }
    }
  }

  /** A sync makes exactly the calls that are due: none too many, none forgotten. */
  lemma SyncSendsWhatIsDue(c: Cache, r: Round, clears: seq<Call>, call: Call)
    requires ClearsStale(c, r, clears)
    ensures call in clears + VisitsCalls(AfterStale(c, r), r, r.managed) <==> Due(c, r, call)
  {
    VisitsSend(AfterStale(c, r), r, r.managed, call);
  }

  /**
   * A steady cluster costs nothing: after a sync whose calls all landed, the
   * next one towards the same goal makes none, as long as the view does not go
   * back on the generation it showed.
   */
  lemma SecondSyncIsSilent(c: Cache, r: Round, clears: seq<Call>, q: Round, again: seq<Call>)
    requires ClearsStale(c, r, clears) && ClearsStale(AfterSync(c, r), q, again)
    requires SameGoal(r, q) && forall call :: r.ok(call)
    requires forall k :: Holds(r.observed, k, r.generation) ==> Holds(q.observed, k, r.generation)
    ensures again == [] && VisitsCalls(AfterStale(AfterSync(c, r), q), q, q.managed) == []
  {
    var d := AfterSync(c, r);
    var calls := again + VisitsCalls(AfterStale(d, q), q, q.managed);
    forall call ensures call !in calls {
      SyncSendsWhatIsDue(d, q, again, call);
      NothingStillDue(c, r, clears, q, call);
    }
    NoMembers(calls);
  }

  lemma NothingStillDue(c: Cache, r: Round, clears: seq<Call>, q: Round, call: Call)
    requires ClearsStale(c, r, clears) && SameGoal(r, q) && forall x :: r.ok(x)
    requires forall k :: Holds(r.observed, k, r.generation) ==> Holds(q.observed, k, r.generation)
    ensures !Due(AfterSync(c, r), q, call)
  {
    SyncPays(c, r, clears);
    SyncSendsWhatIsDue(c, r, clears, call);
    GoalOwes(AfterSync(c, r), r, q, call);
    GoalOwes(c, r, q, call);
  }

  // -------------------------------------------------------------------------
  // Across generations
  // -------------------------------------------------------------------------

  /** Generations only advance. */
  ghost predicate Advancing(rounds: seq<Round>, from: nat) {
    && (forall i :: 0 <= i < |rounds| ==> from <= rounds[i].generation)
    && (forall i, j :: 0 <= i < j < |rounds| ==> rounds[i].generation <= rounds[j].generation)
  }

  ghost predicate KeepsManaging(rounds: seq<Round>, k: ObjectKey) {
    forall i :: 0 <= i < |rounds| ==> k in rounds[i].managed
  }

  lemma {:induction false} VisitsKeepAnnotation(c: Cache, r: Round, keys: seq<ObjectKey>, k: ObjectKey)
    requires Holds(c.annotated, k, r.generation)
    ensures Holds(Visited(c, r, keys).annotated, k, r.generation)
  {
    if keys != [] {
      var init, last := keys[..|keys| - 1], keys[|keys| - 1];
      VisitsKeepAnnotation(c, r, init, k);
      var d := Visited(c, r, init);
      AnnotationsOf(d, VisitCalls(d, r, last), r);
    }
  }

  lemma {:induction false} AnnotationsOf(c: Cache, calls: seq<Call>, r: Round)
    requires forall call :: call in calls && call.Annotate? ==> call.generation == r.generation
    ensures forall k :: Holds(c.annotated, k, r.generation) ==> Holds(AfterCalls(c, calls, r.ok).annotated, k, r.generation)
  {
    if calls != [] {
      AnnotationsOf(c, calls[..|calls| - 1], r);
    }
  }

  /** An Ingress told of a generation is not told of it again while it stays managed. */
  lemma {:induction false} ToldIsNotRetold(c: Cache, rounds: seq<Round>, clears: seq<seq<Call>>, k: ObjectKey, g: nat)
    requires Syncs(c, rounds, clears) && KeepsManaging(rounds, k) && Advancing(rounds, g)
    requires Holds(c.annotated, k, g) || Advancing(rounds, g + 1)
    ensures Annotate(k, g) !in Landings(c, rounds, clears)
    decreases |rounds|
  {
    if rounds != [] {
      var r, d := rounds[0], AfterSync(c, rounds[0]);
      SyncPays(c, r, clears[0]);
      assert k in r.managed;
      if r.generation == g {
        VisitsKeepAnnotation(AfterStale(c, r), r, r.managed, k);
      } else {
        assert Advancing(rounds[1..], g + 1);
      }
      ToldIsNotRetold(d, rounds[1..], clears[1..], k, g);
    }
  }

  /** One round annotates an Ingress at most once, and then never again. */
  lemma RoundAnnotatesOnce(c: Cache, rounds: seq<Round>, clears: seq<seq<Call>>, k: ObjectKey, g: nat)
    requires Syncs(c, rounds, clears) && KeepsManaging(rounds, k) && Advancing(rounds, 0) && rounds != []
    ensures var now := Landed(clears[0] + VisitsCalls(AfterStale(c, rounds[0]), rounds[0], rounds[0].managed), rounds[0].ok);
            && multiset(now)[Annotate(k, g)] <= 1
            && (multiset(now)[Annotate(k, g)] == 1 ==>
                  multiset(Landings(AfterSync(c, rounds[0]), rounds[1..], clears[1..]))[Annotate(k, g)] == 0)
  {
    var r, d := rounds[0], AfterSync(c, rounds[0]);
    var now := Landed(clears[0] + VisitsCalls(AfterStale(c, r), r, r.managed), r.ok);
    SyncPays(c, r, clears[0]);
    DistinctCounts(now);
    if Annotate(k, g) in now {
      assert k in r.managed && r.generation == g && Owed(c, r, Annotate(k, g)) && !Owed(d, r, Annotate(k, g));
      assert Advancing(rounds[1..], g);
      ToldIsNotRetold(d, rounds[1..], clears[1..], k, g);
    }
  }

  /**
   * At most one annotation per Ingress per generation, over any run of syncs
   * through which generations advance and the Ingress stays managed.
   */
  lemma {:induction false} AnnotatedOncePerGeneration(c: Cache, rounds: seq<Round>, clears: seq<seq<Call>>, k: ObjectKey, g: nat)
    requires Syncs(c, rounds, clears) && KeepsManaging(rounds, k) && Advancing(rounds, 0)
    ensures multiset(Landings(c, rounds, clears))[Annotate(k, g)] <= 1
    decreases |rounds|
  {
    if rounds != [] {
      RoundAnnotatesOnce(c, rounds, clears, k, g);
      AnnotatedOncePerGeneration(AfterSync(c, rounds[0]), rounds[1..], clears[1..], k, g);
    }
  }
}
