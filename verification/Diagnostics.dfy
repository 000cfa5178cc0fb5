/**
 * Telling an Ingress's author what was refused, once per change rather than
 * once per rebuild.
 */
module Diagnostics {
  import opened Wrappers
  import opened Machine
  import opened Ordering
  import opened Objects
  import opened Digests

  datatype WarningKind =
    | UnknownClass | RouteConflict | UnsupportedBackend | ServiceUnresolved | ExternalNameService
    | EndpointsSkipped | InvalidRoute | InvalidAnnotation | CanaryOrphan | CanaryConflict | CanaryInert
    | MirrorRejected | TlsSecret | TlsConflict | TlsHostless | DefaultBackendConflict | BackendProtocolConflict

  datatype Warning = Warning(subject: ObjectKey, kind: WarningKind, detail: string)

  /** A warning as its author sees it. */
  datatype Refusal = Refusal(reason: string, detail: string)

  function Reason(k: WarningKind): string {
    match k
    case UnknownClass => "UnknownClass"
    case RouteConflict => "RouteConflict"
    case UnsupportedBackend => "UnsupportedBackend"
    case ServiceUnresolved => "ServiceUnresolved"
    case ExternalNameService => "ExternalNameService"
    case EndpointsSkipped => "EndpointsSkipped"
    case InvalidRoute => "InvalidRoute"
    case InvalidAnnotation => "InvalidAnnotation"
    case CanaryOrphan => "CanaryOrphan"
    case CanaryConflict => "CanaryConflict"
    case CanaryInert => "CanaryInert"
    case MirrorRejected => "MirrorRejected"
    case TlsSecret => "TlsSecret"
    case TlsConflict => "TlsConflict"
    case TlsHostless => "TlsHostless"
    case DefaultBackendConflict => "DefaultBackendConflict"
    case BackendProtocolConflict => "BackendProtocolConflict"
  }

  /** Whether the warning names a value its author wrote in an annotation. */
  predicate IsAnnotationRefusal(k: WarningKind) {
    || k == InvalidAnnotation || k == CanaryOrphan || k == CanaryConflict
    || k == CanaryInert || k == MirrorRejected || k == BackendProtocolConflict
  }

  predicate RefusalLe(a: Refusal, b: Refusal) {
    if a.reason != b.reason then LexLe(a.reason, b.reason) else LexLe(a.detail, b.detail)
  }

  lemma RefusalOrder()
    ensures TotalPreorder(RefusalLe)
    ensures forall a, b :: RefusalLe(a, b) && RefusalLe(b, a) ==> a == b
  {
    LexOrder();
  }

  // -------------------------------------------------------------------------
  // Grouping
  // -------------------------------------------------------------------------

  /** What is refused on one object, in the order the translator said so. */
  function RefusalsOf(warnings: seq<Warning>, key: ObjectKey): seq<Refusal> {
    if warnings == [] then []
    else
      var before, last := RefusalsOf(warnings[..|warnings| - 1], key), warnings[|warnings| - 1];
      if last.subject == key && IsAnnotationRefusal(last.kind) then before + [Refusal(Reason(last.kind), last.detail)]
      else before
  }

  type Groups = map<ObjectKey, seq<Refusal>>

  function GroupOf(warnings: seq<Warning>, key: ObjectKey): seq<Refusal> {
    SortBy(RefusalLe, RefusalsOf(warnings, key))
  }

  /** Every object with refusals, and them sorted. */
  ghost predicate Groups?(grouped: Groups, warnings: seq<Warning>) {
    forall k :: (if k in grouped then grouped[k] != [] && grouped[k] == GroupOf(warnings, k) else GroupOf(warnings, k) == [])
  }

  ghost predicate Unsorted(pushed: Groups, warnings: seq<Warning>) {
    forall k :: if k in pushed then pushed[k] != [] && pushed[k] == RefusalsOf(warnings, k) else RefusalsOf(warnings, k) == []
  }

  method Group(warnings: seq<Warning>) returns (grouped: Groups)
    ensures Groups?(grouped, warnings)
  {
    var pushed: Groups := map[];
    for i := 0 to |warnings|
      invariant Unsorted(pushed, warnings[..i])
    {
      assert warnings[..i + 1][..i] == warnings[..i];
      var w := warnings[i];
      if IsAnnotationRefusal(w.kind) {
        var so := if w.subject in pushed then pushed[w.subject] else [];
        pushed := pushed[w.subject := so + [Refusal(Reason(w.kind), w.detail)]];
      }
    }
    assert warnings[..|warnings|] == warnings;
    grouped := map k | k in pushed :: SortBy(RefusalLe, pushed[k]);
  }

  function RefusalFields(group: seq<Refusal>): seq<Field> {
    if group == [] then []
    else
      var last := group[|group| - 1];
      RefusalFields(group[..|group| - 1]) + [Text(Utf8(last.reason)), Text(Utf8(last.detail))]
  }

  function DigestOfGroup(group: seq<Refusal>): u64 {
    Fnv(FNV_OFFSET, Stream(RefusalFields(group)))
  }

  method HashGroup(group: seq<Refusal>) returns (hash: u64)
    ensures hash == DigestOfGroup(group)
  {
    var d := new Digest();
    for i := 0 to |group|
      invariant d.state == Fnv(FNV_OFFSET, Stream(RefusalFields(group[..i])))
    {
      assert group[..i + 1][..i] == group[..i];
      var item := [Text(Utf8(group[i].reason)), Text(Utf8(group[i].detail))];
      OneMoreItem(FNV_OFFSET, RefusalFields(group[..i]), item);
      d.MixAll(item);
    }
    assert group[..|group|] == group;
    hash := d.Finish();
  }

  // -------------------------------------------------------------------------
  // The emitter
  // -------------------------------------------------------------------------

  type Emitted = map<ObjectKey, u64>

  /** An object is told when it can be, and when its hash is not the one last told. */
  predicate IsTold(emitted: Emitted, grouped: Groups, uids: set<ObjectKey>, k: ObjectKey) {
    k in grouped && k in uids && !(k in emitted && emitted[k] == DigestOfGroup(grouped[k]))
  }

  /** Clean objects are forgotten, told ones recorded, and the rest left alone. */
  function EmittedAfter(emitted: Emitted, grouped: Groups, uids: set<ObjectKey>): Emitted {
    map k | k in grouped && (k in emitted || IsTold(emitted, grouped, uids, k))
      :: if IsTold(emitted, grouped, uids, k) then DigestOfGroup(grouped[k]) else emitted[k]
  }

  /** One Event per refusal, object by object. */
  function Events(grouped: Groups, keys: seq<ObjectKey>): seq<(ObjectKey, string)>
    requires forall k :: k in keys ==> k in grouped
  {
    if keys == [] then []
    else
      var k := keys[|keys| - 1];
      Events(grouped, keys[..|keys| - 1]) + EventsOf(k, grouped[k])
  }

  function EventsOf(k: ObjectKey, group: seq<Refusal>): seq<(ObjectKey, string)> {
    MapSeq((r: Refusal) => (k, r.reason), group)
  }

  predicate Changed(emitted: Emitted, grouped: Groups, k: ObjectKey) {
    k in grouped && !(k in emitted && emitted[k] == DigestOfGroup(grouped[k]))
  }

  /** `kept` with the groups of `told` recorded. */
  function Recorded(kept: Emitted, grouped: Groups, told: seq<ObjectKey>): Emitted
    requires forall k :: k in told ==> k in grouped
  {
    map k | k in grouped && (k in kept || k in told) :: if k in told then DigestOfGroup(grouped[k]) else kept[k]
  }

  method SortedKeys(grouped: Groups) returns (order: seq<ObjectKey>)
    ensures Distinct(order) && SortedBy(KeyLe, order)
    ensures forall k :: k in order <==> k in grouped
  {
    var walk := Walk(grouped.Keys);
    order := SortBy(KeyLe, walk);
    KeyOrder();
    SortBySorted(KeyLe, walk);
    SameMembers(walk, order);
    DistinctPermuted(walk, order);
  }

  /** The entries of objects that still have something wrong with them. */
  function StillBroken(emitted: Emitted, grouped: Groups): Emitted {
    map k | k in emitted && k in grouped :: emitted[k]
  }

  function ChangedAmong(kept: Emitted, grouped: Groups, order: seq<ObjectKey>): seq<ObjectKey> {
    Keep(k => Changed(kept, grouped, k), order)
  }

  function ToldAmong(emitted: Emitted, grouped: Groups, uids: set<ObjectKey>, order: seq<ObjectKey>): seq<ObjectKey> {
    Keep(k => k in uids, ChangedAmong(StillBroken(emitted, grouped), grouped, order))
  }

  lemma ToldInOrder(emitted: Emitted, grouped: Groups, uids: set<ObjectKey>, order: seq<ObjectKey>)
    requires Distinct(order) && SortedBy(KeyLe, order)
    ensures Distinct(ToldAmong(emitted, grouped, uids, order)) && SortedBy(KeyLe, ToldAmong(emitted, grouped, uids, order))
  {
    var kept := StillBroken(emitted, grouped);
    KeepSorted(KeyLe, k => Changed(kept, grouped, k), order);
    KeepSorted(KeyLe, k => k in uids, ChangedAmong(kept, grouped, order));
  }

  lemma ToldMeans(emitted: Emitted, grouped: Groups, uids: set<ObjectKey>, order: seq<ObjectKey>, k: ObjectKey)
    requires k in order <==> k in grouped
    ensures k in ToldAmong(emitted, grouped, uids, order) <==> IsTold(emitted, grouped, uids, k)
  {
    var kept := StillBroken(emitted, grouped);
    assert k in ChangedAmong(kept, grouped, order) <==> k in order && Changed(kept, grouped, k);
  }

  lemma RecordedMeans(emitted: Emitted, grouped: Groups, uids: set<ObjectKey>, told: seq<ObjectKey>)
    requires forall k :: k in told <==> IsTold(emitted, grouped, uids, k)
    ensures (forall k :: k in told ==> k in grouped)
            && Recorded(StillBroken(emitted, grouped), grouped, told) == EmittedAfter(emitted, grouped, uids)
  {
  }

  lemma ToldIsChanged(emitted: Emitted, grouped: Groups, uids: set<ObjectKey>, order: seq<ObjectKey>)
    requires forall k :: k in order <==> k in grouped
    ensures var told := ToldAmong(emitted, grouped, uids, order);
            && (forall k :: k in told <==> IsTold(emitted, grouped, uids, k))
            && (forall k :: k in told ==> k in grouped)
            && Recorded(StillBroken(emitted, grouped), grouped, told) == EmittedAfter(emitted, grouped, uids)
  {
    forall k ensures k in ToldAmong(emitted, grouped, uids, order) <==> IsTold(emitted, grouped, uids, k) {
      ToldMeans(emitted, grouped, uids, order, k);
    }
    RecordedMeans(emitted, grouped, uids, ToldAmong(emitted, grouped, uids, order));
  }

  class WarningEvents {
    var emitted: Emitted

    constructor ()
      ensures emitted == map[]
    {
      emitted := map[];
    }

    method Invalidate()
      modifies this
      ensures emitted == map[]
    {
      emitted := map[];
    }

    /** Records one object's refusals as told. */
    method Record(key: ObjectKey, grouped: Groups, ghost kept: Emitted, ghost told: seq<ObjectKey>)
      requires key in grouped && forall k :: k in told ==> k in grouped
      requires emitted == Recorded(kept, grouped, told)
      modifies this
      ensures emitted == Recorded(kept, grouped, told + [key])
    {
      var hash := HashGroup(grouped[key]);
      emitted := emitted[key := hash];
    }

    /** Writes what changed, for objects an Event can be attached to. */
    method WriteChanged(grouped: Groups, uids: set<ObjectKey>, changed: seq<ObjectKey>)
      returns (told: seq<ObjectKey>, written: seq<(ObjectKey, string)>)
      requires (forall k :: k in changed ==> k in grouped) && forall k :: k in emitted ==> k in grouped
      modifies this
      ensures told == Keep(k => k in uids, changed)
      ensures (forall k :: k in told ==> k in grouped) && written == Events(grouped, told)
      ensures emitted == Recorded(old(emitted), grouped, told)
    {
      told, written := [], [];
      ghost var has := (k: ObjectKey) => k in uids;
      for i := 0 to |changed|
        invariant told == Keep(has, changed[..i])
        invariant (forall k :: k in told ==> k in grouped) && written == Events(grouped, told)
        invariant emitted == Recorded(old(emitted), grouped, told)
      {
        assert changed[..i + 1][..i] == changed[..i];
        var key := changed[i];
        if key in uids {
          Record(key, grouped, old(emitted), told);
          written := written + EventsOf(key, grouped[key]);
          told := told + [key];
          assert told[..|told| - 1] == Keep(has, changed[..i]);
        }
      }
      assert changed[..|changed|] == changed;
    }

    /** Reports what changed: `told` is the objects reported, `written` the Events. */
    method Sync(grouped: Groups, uids: set<ObjectKey>) returns (told: seq<ObjectKey>, written: seq<(ObjectKey, string)>)
      modifies this
      ensures emitted == EmittedAfter(old(emitted), grouped, uids)
      ensures forall k :: k in told <==> IsTold(old(emitted), grouped, uids, k)
      ensures Distinct(told) && SortedBy(KeyLe, told)
      ensures (forall k :: k in told ==> k in grouped) && written == Events(grouped, told)
    {
      var order := SortedKeys(grouped);
      emitted := StillBroken(emitted, grouped);
      var changed := ChangedAmong(emitted, grouped, order);
      ToldInOrder(old(emitted), grouped, uids, order);
      ToldIsChanged(old(emitted), grouped, uids, order);
      told, written := WriteChanged(grouped, uids, changed);
    }
  }

  // -------------------------------------------------------------------------
  // What an author was last told
  // -------------------------------------------------------------------------

  /** One step of the rebuild loop, as this module sees it. */
  datatype Step = Synced(warnings: seq<Warning>, uids: set<ObjectKey>) | Invalidated

  /**
   * What the object's author was last told or owed, forgotten when the object was
   * last clean or the cache last invalidated; no hashes anywhere.
   */
  function LastTold(steps: seq<Step>, key: ObjectKey): Option<seq<Refusal>> {
    if steps == [] then None
    else
      match steps[|steps| - 1]
      case Invalidated => None
      case Synced(warnings, uids) =>
        if GroupOf(warnings, key) == [] then None
        else if key in uids then Some(GroupOf(warnings, key))
        else LastTold(steps[..|steps| - 1], key)
  }

  /** What the last sync should have reported. */
  predicate ShouldTell(steps: seq<Step>, key: ObjectKey)
    requires steps != [] && steps[|steps| - 1].Synced?
  {
    var last := steps[|steps| - 1];
    && GroupOf(last.warnings, key) != []
    && key in last.uids
    && LastTold(steps[..|steps| - 1], key) != Some(GroupOf(last.warnings, key))
  }

  /** The cache is the hash of what was last told. */
  ghost predicate Mirrors(emitted: Emitted, steps: seq<Step>) {
    forall k :: match LastTold(steps, k)
                case None => k !in emitted
                case Some(group) => k in emitted && emitted[k] == DigestOfGroup(group)
  }

  /** The object's refusals changed, and their hash did not. */
  ghost predicate Collides(steps: seq<Step>, warnings: seq<Warning>, key: ObjectKey) {
    && LastTold(steps, key).Some?
    && LastTold(steps, key).value != GroupOf(warnings, key)
    && DigestOfGroup(LastTold(steps, key).value) == DigestOfGroup(GroupOf(warnings, key))
  }

  lemma MirrorsInitially()
    ensures Mirrors(map[], [])
  {
  }

  lemma InvalidationMirrors(steps: seq<Step>)
    ensures Mirrors(map[], steps + [Invalidated])
  {
  }

  /**
   * The emitter refines "last told": a sync reports an object exactly when it
   * has a uid and its refusals differ from those last told, unless the two lists
   * share a hash; and the cache stays the hash of what was last told.
   */
  lemma SyncRefinesLastTold(emitted: Emitted, steps: seq<Step>, warnings: seq<Warning>, uids: set<ObjectKey>, grouped: Groups)
    requires Mirrors(emitted, steps) && Groups?(grouped, warnings)
    ensures Mirrors(EmittedAfter(emitted, grouped, uids), steps + [Synced(warnings, uids)])
    ensures forall k :: IsTold(emitted, grouped, uids, k)
                        <==> ShouldTell(steps + [Synced(warnings, uids)], k) && !Collides(steps, warnings, k)
  {
    var after := steps + [Synced(warnings, uids)];
    assert after[..|after| - 1] == steps;
    forall k ensures IsTold(emitted, grouped, uids, k) <==> ShouldTell(after, k) && !Collides(steps, warnings, k) {
      TellsOne(emitted, steps, warnings, uids, grouped, k);
    }
    forall k ensures match LastTold(after, k)
                     case None => k !in EmittedAfter(emitted, grouped, uids)
                     case Some(group) => k in EmittedAfter(emitted, grouped, uids)
                                         && EmittedAfter(emitted, grouped, uids)[k] == DigestOfGroup(group)
    {
      TellsOne(emitted, steps, warnings, uids, grouped, k);
    }
  }

  lemma TellsOne(emitted: Emitted, steps: seq<Step>, warnings: seq<Warning>, uids: set<ObjectKey>, grouped: Groups, k: ObjectKey)
    requires Mirrors(emitted, steps) && Groups?(grouped, warnings)
    ensures k in grouped <==> GroupOf(warnings, k) != []
    ensures k in grouped ==> grouped[k] == GroupOf(warnings, k)
    ensures k in grouped && LastTold(steps, k).Some? ==>
              && k in emitted
              && (emitted[k] == DigestOfGroup(grouped[k])
                  <==> LastTold(steps, k).value == grouped[k] || Collides(steps, warnings, k))
    ensures LastTold(steps, k).None? ==> k !in emitted
  {
    assert match LastTold(steps, k)
           case None => k !in emitted
           case Some(group) => k in emitted && emitted[k] == DigestOfGroup(group);
  }

  /** What `Group` returns, which its contract leaves no choice about. */
  function GroupsOf(warnings: seq<Warning>): Groups {
    map k | k in (set w | w in warnings :: w.subject) && GroupOf(warnings, k) != [] :: GroupOf(warnings, k)
  }

  lemma {:induction false} RefusalsHaveSubjects(warnings: seq<Warning>, key: ObjectKey)
    requires RefusalsOf(warnings, key) != []
    ensures exists w :: w in warnings && w.subject == key
  {
    var last := warnings[|warnings| - 1];
    if RefusalsOf(warnings[..|warnings| - 1], key) != [] {
      RefusalsHaveSubjects(warnings[..|warnings| - 1], key);
    } else {
      assert last in warnings;
    }
  }

  lemma GroupsOfGroups(warnings: seq<Warning>)
    ensures Groups?(GroupsOf(warnings), warnings)
  {
    forall k | GroupOf(warnings, k) != [] ensures k in GroupsOf(warnings) {
      RefusalsHaveSubjects(warnings, k);
    }
  }

  /** The cache after a whole run. */
  function EmittedRun(steps: seq<Step>): Emitted {
    if steps == [] then map[]
    else
      match steps[|steps| - 1]
      case Invalidated => map[]
      case Synced(warnings, uids) => EmittedAfter(EmittedRun(steps[..|steps| - 1]), GroupsOf(warnings), uids)
  }

  /**
   * Over every run of syncs and invalidations, each sync reports exactly the
   * objects with a uid whose refusals are not the ones last told, except one
   * whose new refusals hash as those did; and the cache is always the hash of
   * what was last told, however the run went.
   */
  lemma {:induction false} RunRefinesLastTold(steps: seq<Step>)
    ensures Mirrors(EmittedRun(steps), steps)
    ensures steps != [] && steps[|steps| - 1].Synced? ==>
              var before, last := steps[..|steps| - 1], steps[|steps| - 1];
              forall k :: IsTold(EmittedRun(before), GroupsOf(last.warnings), last.uids, k)
                          <==> ShouldTell(steps, k) && !Collides(before, last.warnings, k)
  {
    if steps == [] {
      MirrorsInitially();
    } else {
      var before, last := steps[..|steps| - 1], steps[|steps| - 1];
      RunRefinesLastTold(before);
      assert steps == before + [last];
      match last
      case Invalidated => InvalidationMirrors(before);
      case Synced(warnings, uids) =>
        GroupsOfGroups(warnings);
        SyncRefinesLastTold(EmittedRun(before), before, warnings, uids, GroupsOf(warnings));
    }
  }

  // -------------------------------------------------------------------------
  // Order and hashing
  // -------------------------------------------------------------------------

  /** A refusal on this object, as its author sees it. */
  function AsRefusal(w: Warning): Refusal {
    Refusal(Reason(w.kind), w.detail)
  }

  lemma {:induction false} RefusalsAreKept(warnings: seq<Warning>, key: ObjectKey)
    ensures RefusalsOf(warnings, key)
         == MapSeq(AsRefusal, Keep((w: Warning) => w.subject == key && IsAnnotationRefusal(w.kind), warnings))
  {
    if warnings != [] {
      RefusalsAreKept(warnings[..|warnings| - 1], key);
    }
  }

  /** The order the translator warned in never looks like a change. */
  lemma GroupForgetsOrder(a: seq<Warning>, b: seq<Warning>, key: ObjectKey)
    requires multiset(a) == multiset(b)
    ensures GroupOf(a, key) == GroupOf(b, key)
  {
    var p := (w: Warning) => w.subject == key && IsAnnotationRefusal(w.kind);
    RefusalsAreKept(a, key);
    RefusalsAreKept(b, key);
    KeepForgetsOrder(p, a, b);
    MapForgetsOrder(AsRefusal, Keep(p, a), Keep(p, b));
    RefusalOrder();
    SortForgetsOrder(RefusalLe, RefusalsOf(a, key), RefusalsOf(b, key));
  }

  /** Two groups are the same list exactly when they are the same refusals, counted. */
  lemma GroupIsItsRefusals(a: seq<Warning>, b: seq<Warning>, key: ObjectKey)
    ensures GroupOf(a, key) == GroupOf(b, key) <==> multiset(RefusalsOf(a, key)) == multiset(RefusalsOf(b, key))
  {
    RefusalOrder();
    if multiset(RefusalsOf(a, key)) == multiset(RefusalsOf(b, key)) {
      SortForgetsOrder(RefusalLe, RefusalsOf(a, key), RefusalsOf(b, key));
    }
  }

  ghost predicate BoundedGroup(group: seq<Refusal>) {
    forall r :: r in group ==> |Utf8(r.reason)| < TWO_TO_64 && |Utf8(r.detail)| < TWO_TO_64
  }

  lemma {:induction false} FieldsOfRest(group: seq<Refusal>)
    requires group != []
    ensures RefusalFields(group) == [Text(Utf8(group[0].reason)), Text(Utf8(group[0].detail))] + RefusalFields(group[1..])
  {
    if |group| > 1 {
      var init := group[..|group| - 1];
      FieldsOfRest(init);
      assert init[1..] == group[1..][..|group| - 2];
    }
  }

  lemma HeadOfStream(group: seq<Refusal>)
    requires group != []
    ensures Stream(RefusalFields(group))
         == TextCode(Utf8(group[0].reason)) + (TextCode(Utf8(group[0].detail)) + Stream(RefusalFields(group[1..])))
  {
    FieldsOfRest(group);
    var rest := RefusalFields(group[1..]);
    var head := [Text(Utf8(group[0].reason)), Text(Utf8(group[0].detail))];
    assert (head + rest)[1..] == [head[1]] + rest;
    assert ([head[1]] + rest)[1..] == rest;
  }

  lemma HeadsAgree(a: seq<Refusal>, b: seq<Refusal>)
    requires a != [] && b != [] && BoundedGroup(a) && BoundedGroup(b)
    requires Stream(RefusalFields(a)) == Stream(RefusalFields(b))
    ensures a[0] == b[0] && Stream(RefusalFields(a[1..])) == Stream(RefusalFields(b[1..]))
  {
    HeadOfStream(a);
    HeadOfStream(b);
    assert a[0] in a && b[0] in b;
    TextPrefixFree(Utf8(a[0].reason), Utf8(b[0].reason),
                   TextCode(Utf8(a[0].detail)) + Stream(RefusalFields(a[1..])),
                   TextCode(Utf8(b[0].detail)) + Stream(RefusalFields(b[1..])));
    TextPrefixFree(Utf8(a[0].detail), Utf8(b[0].detail), Stream(RefusalFields(a[1..])), Stream(RefusalFields(b[1..])));
    Utf8Injective(a[0].reason, b[0].reason);
    Utf8Injective(a[0].detail, b[0].detail);
  }

  lemma SomethingIsWritten(group: seq<Refusal>)
    requires group != []
    ensures Stream(RefusalFields(group)) != Stream(RefusalFields([]))
  {
    HeadOfStream(group);
  }

  lemma RestIsBounded(group: seq<Refusal>)
    requires group != [] && BoundedGroup(group)
    ensures BoundedGroup(group[1..])
  {
    assert forall r :: r in group[1..] ==> r in group;
  }

  /**
   * The hashed bytes are one refusal list's and no other's, whatever the two
   * lists' lengths, so a collision is always one of FNV-1a itself.
   */
  lemma {:induction false} GroupBytesAreItsOwn(a: seq<Refusal>, b: seq<Refusal>)
    requires BoundedGroup(a) && BoundedGroup(b)
    requires Stream(RefusalFields(a)) == Stream(RefusalFields(b))
    ensures a == b
    decreases |a|
  {
    if |a| == 0 || |b| == 0 {
      if |a| != 0 {
        SomethingIsWritten(a);
      }
      if |b| != 0 {
        SomethingIsWritten(b);
      }
    } else {
      HeadsAgree(a, b);
      RestIsBounded(a);
      RestIsBounded(b);
      GroupBytesAreItsOwn(a[1..], b[1..]);
      HeadAndTail(a, b);
    }
  }
}
