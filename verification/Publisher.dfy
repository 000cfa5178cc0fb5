/** The applier: parsing certificates once, diffing along the chain, becoming ready. */
module Publisher {
  import opened Wrappers
  import opened Machine
  import opened Certificates
  import opened Diff

  /** A parser of certificate material: a usable key, or nothing. */
  type KeyParser<!K> = (seq<byte>, seq<byte>) -> Option<K>

  function KeyOf<K>(parse: KeyParser<K>, m: CertMaterial): Option<K> {
    parse(m.cert, m.key)
  }

  datatype Counts = Counts(reused: nat, parsed: nat, rejected: nat)

  // -------------------------------------------------------------------------
  // Keys
  // -------------------------------------------------------------------------

  /** What one certificate brings: the key already held under its id, or what it parses to. */
  function Offer<K>(parse: KeyParser<K>, cached: map<u64, K>, m: CertMaterial): Option<K> {
    if m.handleId in cached then Some(cached[m.handleId]) else KeyOf(parse, m)
  }

  function WithKey<K>(keys: map<u64, K>, id: u64, offer: Option<K>): map<u64, K> {
    match offer case None => keys case Some(key) => keys[id := key]
  }

  /** The keys of a generation, reusing what is cached. */
  function PreparedKeys<K>(parse: KeyParser<K>, cached: map<u64, K>, certs: seq<CertMaterial>): map<u64, K> {
    if certs == [] then map[]
    else
      var last := certs[|certs| - 1];
      WithKey(PreparedKeys(parse, cached, certs[..|certs| - 1]), last.handleId, Offer(parse, cached, last))
  }

  /** The keys of a generation parsed from scratch. */
  function FreshKeys<K>(parse: KeyParser<K>, certs: seq<CertMaterial>): map<u64, K> {
    PreparedKeys(parse, map[], certs)
  }

  /** How many of a generation's certificates came from the cache, were parsed, or would not parse. */
  function CountKeys<K>(parse: KeyParser<K>, cached: set<u64>, certs: seq<CertMaterial>): Counts {
    if certs == [] then Counts(0, 0, 0)
    else
      var before, last := CountKeys(parse, cached, certs[..|certs| - 1]), certs[|certs| - 1];
      if last.handleId in cached then before.(reused := before.reused + 1)
      else if KeyOf(parse, last).Some? then before.(parsed := before.parsed + 1)
      else before.(rejected := before.rejected + 1)
  }

  class KeyCache<K(==)> {
    const parse: KeyParser<K>
    var parsed: map<u64, K>

    constructor (parse: KeyParser<K>)
      ensures parsed == map[] && this.parse == parse
    {
      this.parse, parsed := parse, map[];
    }

    /** Parses one generation's certificates, reusing every id that survived; the result becomes the cache. */
    method Prepare(certs: seq<CertMaterial>) returns (counts: Counts, keys: map<u64, K>)
      modifies `parsed
      ensures parsed == keys && keys == PreparedKeys(parse, old(parsed), certs)
      ensures counts == CountKeys(parse, old(parsed).Keys, certs)
    {
      counts, keys := Counts(0, 0, 0), map[];
      for i := 0 to |certs|
        invariant parsed == old(parsed)
        invariant keys == PreparedKeys(parse, parsed, certs[..i])
        invariant counts == CountKeys(parse, parsed.Keys, certs[..i])
      {
        assert certs[..i + 1][..i] == certs[..i];
        var m := certs[i];
        if m.handleId in parsed {
          keys := keys[m.handleId := parsed[m.handleId]];
          counts := counts.(reused := counts.reused + 1);
        } else {
          match KeyOf(parse, m) {
            case Some(key) =>
              keys := keys[m.handleId := key];
              counts := counts.(parsed := counts.parsed + 1);
            case None =>
              counts := counts.(rejected := counts.rejected + 1);
          }
        }
      }
      assert certs[..|certs|] == certs;
      parsed := keys;
    }
  }

  /** The materials of a generation come out of a map keyed by handle id. */
  ghost predicate DistinctHandles(certs: seq<CertMaterial>) {
    forall i, j :: 0 <= i < j < |certs| ==> certs[i].handleId != certs[j].handleId
  }

  lemma {:induction false} HeldIsOffered<K>(parse: KeyParser<K>, cached: map<u64, K>, certs: seq<CertMaterial>, id: u64)
    requires id in PreparedKeys(parse, cached, certs)
    ensures exists i :: 0 <= i < |certs| && certs[i].handleId == id
                        && Offer(parse, cached, certs[i]) == Some(PreparedKeys(parse, cached, certs)[id])
  {
    var n := |certs| - 1;
    if certs[n].handleId == id && Offer(parse, cached, certs[n]).Some? {
      assert Offer(parse, cached, certs[n]) == Some(PreparedKeys(parse, cached, certs)[id]);
    } else {
      HeldIsOffered(parse, cached, certs[..n], id);
      var i :| 0 <= i < n && certs[..n][i].handleId == id
               && Offer(parse, cached, certs[..n][i]) == Some(PreparedKeys(parse, cached, certs[..n])[id]);
      assert certs[i] == certs[..n][i];
    }
  }

  lemma {:induction false} OfferedIsHeld<K>(parse: KeyParser<K>, cached: map<u64, K>, certs: seq<CertMaterial>, i: nat)
    requires i < |certs| && DistinctHandles(certs)
    ensures var keys, offer := PreparedKeys(parse, cached, certs), Offer(parse, cached, certs[i]);
            && (offer.Some? <==> certs[i].handleId in keys)
            && (offer.Some? ==> keys[certs[i].handleId] == offer.value)
  {
    var n := |certs| - 1;
    var init := certs[..n];
    assert forall j :: 0 <= j < n ==> init[j] == certs[j];
    if i < n {
      OfferedIsHeld(parse, cached, init, i);
    } else if certs[n].handleId in PreparedKeys(parse, cached, init) {
      HeldIsOffered(parse, cached, init, certs[n].handleId);
    }
  }

  /** Whatever is held under a certificate's id is what that certificate parses to. */
  ghost predicate Honest<K>(parse: KeyParser<K>, cached: map<u64, K>, certs: seq<CertMaterial>) {
    forall i :: 0 <= i < |certs| && certs[i].handleId in cached ==> KeyOf(parse, certs[i]) == Some(cached[certs[i].handleId])
  }

  lemma {:induction false} HonestIsFresh<K>(parse: KeyParser<K>, cached: map<u64, K>, certs: seq<CertMaterial>)
    requires Honest(parse, cached, certs)
    ensures PreparedKeys(parse, cached, certs) == FreshKeys(parse, certs)
  {
    if certs != [] {
      var init := certs[..|certs| - 1];
      assert forall j :: 0 <= j < |init| ==> init[j] == certs[j];
      HonestIsFresh(parse, cached, init);
    }
  }

  /**
   * Reusing keys gives what parsing from scratch would exactly when each reused
   * id's certificate still parses to the key held under it. The id hashes the
   * content, so only a collision of handles can break it.
   */
  lemma ReuseIsExact<K>(parse: KeyParser<K>, cached: map<u64, K>, certs: seq<CertMaterial>)
    requires DistinctHandles(certs)
    ensures PreparedKeys(parse, cached, certs) == FreshKeys(parse, certs) <==> Honest(parse, cached, certs)
  {
    if Honest(parse, cached, certs) {
      HonestIsFresh(parse, cached, certs);
    }
    if PreparedKeys(parse, cached, certs) == FreshKeys(parse, certs) {
      forall i | 0 <= i < |certs| && certs[i].handleId in cached
        ensures KeyOf(parse, certs[i]) == Some(cached[certs[i].handleId])
      {
        OfferedIsHeld(parse, cached, certs, i);
        OfferedIsHeld(parse, map[], certs, i);
      }
    }
  }

  lemma OneKey<K>(parse: KeyParser<K>, cached: map<u64, K>, m: CertMaterial)
    ensures PreparedKeys(parse, cached, [m]) == WithKey(map[], m.handleId, Offer(parse, cached, m))
  {
    assert [m][..|[m]| - 1] == [];
    assert PreparedKeys(parse, cached, [m][..|[m]| - 1]) == map[];
  }

  /** A handle that stood for other material keeps serving the old key. */
  lemma StaleKeyServed<K>(parse: KeyParser<K>, before: CertMaterial, after: CertMaterial)
    requires before.handleId == after.handleId
    requires KeyOf(parse, before).Some? && KeyOf(parse, before) != KeyOf(parse, after)
    ensures var cached := FreshKeys(parse, [before]);
            && PreparedKeys(parse, cached, [after]) == cached
            && PreparedKeys(parse, cached, [after]) != FreshKeys(parse, [after])
  {
    var cached := FreshKeys(parse, [before]);
    OneKey(parse, map[], before);
    OneKey(parse, cached, after);
    OneKey(parse, map[], after);
  }

  /** The cache after a run of generations. */
  function CacheAfter<K>(parse: KeyParser<K>, generations: seq<seq<CertMaterial>>): map<u64, K> {
    if generations == [] then map[]
    else
      PreparedKeys(parse, CacheAfter(parse, generations[..|generations| - 1]), generations[|generations| - 1])
  }

  /** Over a run, equal handle ids mean equal material. */
  ghost predicate NoHandleCollides(generations: seq<seq<CertMaterial>>) {
    forall g, h, m, n :: g in generations && h in generations && m in g && n in h && m.handleId == n.handleId ==> m == n
  }

  /**
   * However many generations came before, the keys published are those of the
   * newest one parsed from scratch, unless two handles of the run collide.
   */
  lemma {:induction false} KeysAreAlwaysFresh<K>(parse: KeyParser<K>, generations: seq<seq<CertMaterial>>)
    requires generations != [] && NoHandleCollides(generations)
    ensures CacheAfter(parse, generations) == FreshKeys(parse, generations[|generations| - 1])
  {
    var init, last := generations[..|generations| - 1], generations[|generations| - 1];
    var cached := CacheAfter(parse, init);
    assert forall g :: g in init ==> g in generations;
    if init != [] {
      KeysAreAlwaysFresh(parse, init);
      var prior := init[|init| - 1];
      assert prior in init && last in generations;
      forall i | 0 <= i < |last| && last[i].handleId in cached
        ensures KeyOf(parse, last[i]) == Some(cached[last[i].handleId])
      {
        HeldIsOffered(parse, map[], prior, last[i].handleId);
        var j :| 0 <= j < |prior| && prior[j].handleId == last[i].handleId
                 && Offer(parse, map[], prior[j]) == Some(cached[last[i].handleId]);
        assert prior[j] in prior && last[i] in last;
      }
    }
    HonestIsFresh(parse, cached, last);
  }

  /** The counts cover every certificate and what was kept is what is served; a cached id is never parsed. */
  lemma {:induction false} CountsCover<K>(parse: KeyParser<K>, cached: map<u64, K>, certs: seq<CertMaterial>)
    requires DistinctHandles(certs)
    ensures var c := CountKeys(parse, cached.Keys, certs);
            && c.reused + c.parsed + c.rejected == |certs|
            && c.reused + c.parsed == |PreparedKeys(parse, cached, certs)|
    ensures (forall m :: m in certs ==> m.handleId in cached) ==> CountKeys(parse, cached.Keys, certs) == Counts(|certs|, 0, 0)
  {
    if certs != [] {
      var n := |certs| - 1;
      var init, last := certs[..n], certs[n];
      assert last in certs && forall j :: 0 <= j < n ==> init[j] == certs[j];
      CountsCover(parse, cached, init);
      if last.handleId in PreparedKeys(parse, cached, init) {
        HeldIsOffered(parse, cached, init, last.handleId);
      }
    }
  }

  // -------------------------------------------------------------------------
  // The chain
  // -------------------------------------------------------------------------

  /** One configuration off the channel; `published` is whether no rollback pin held it back. */
  datatype Arrival = Arrival(table: Table, published: bool)

  function Predecessor(configs: seq<Arrival>): Option<Table> {
    if configs == [] then None else Some(configs[|configs| - 1].table)
  }

  /** Each generation against its own predecessor, the first against nothing. */
  ghost function Chain(configs: seq<Arrival>): (diffs: seq<ConfigDiff>)
    ensures |diffs| == |configs|
  {
    if configs == [] then []
    else
      var init := configs[..|configs| - 1];
      Chain(init) + [DiffOf(Predecessor(init), configs[|configs| - 1].table)]
  }

  predicate Readies(configs: seq<Arrival>) {
    exists c :: c in configs && c.published && c.table.generation > 0
  }

  lemma ChainGrows(configs: seq<Arrival>, c: Arrival)
    ensures Chain(configs + [c]) == Chain(configs) + [DiffOf(Predecessor(configs), c.table)]
  {
    assert (configs + [c])[..|configs|] == configs;
  }

  lemma ReadiesGrows(configs: seq<Arrival>, c: Arrival)
    ensures Readies(configs + [c]) <==> Readies(configs) || (c.published && c.table.generation > 0)
  {
    assert forall x :: x in configs + [c] <==> x in configs || x == c;
  }

  /** What the applier holds after applying these. */
  ghost predicate InStep(previous: Option<Table>, ready: bool, applied: seq<Arrival>, diffs: seq<ConfigDiff>) {
    && previous == Predecessor(applied)
    && diffs == Chain(applied)
    && (ready <==> Readies(applied))
  }

  lemma StaysInStep(previous: Option<Table>, ready: bool, applied: seq<Arrival>, diffs: seq<ConfigDiff>, c: Arrival)
    requires InStep(previous, ready, applied, diffs)
    ensures InStep(Some(c.table), ready || (c.published && c.table.generation > 0), applied + [c],
                   diffs + [DiffOf(previous, c.table)])
  {
    ChainGrows(applied, c);
    ReadiesGrows(applied, c);
  }

  class Applier {
    var previous: Option<Table>
    var ready: bool
    ghost var applied: seq<Arrival>
    ghost var diffs: seq<ConfigDiff>

    ghost predicate Valid()
      reads this
    {
      InStep(previous, ready, applied, diffs)
    }

    constructor ()
      ensures Valid() && applied == []
    {
      previous, ready, applied, diffs := None, false, [], [];
    }

    /** Records one generation, published or not, and never stops being ready. */
    method Apply(config: Arrival) returns (diff: ConfigDiff)
      requires Valid()
      modifies this
      ensures Valid() && applied == old(applied) + [config]
      ensures diff == DiffOf(old(previous), config.table) && diffs == old(diffs) + [diff]
      ensures old(ready) ==> ready
    {
      diff := Compute(previous, config.table);
      StaysInStep(previous, ready, applied, diffs, config);
      Advance(config, diff);
    }

    /** The previous generation is the last one compiled, not the last one published. */
    method Advance(config: Arrival, diff: ConfigDiff)
      modifies this
      ensures previous == Some(config.table)
      ensures ready == (old(ready) || (config.published && config.table.generation > 0))
      ensures applied == old(applied) + [config] && diffs == old(diffs) + [diff]
    {
      previous := Some(config.table);
      applied := applied + [config];
      diffs := diffs + [diff];
      if config.published && config.table.generation > 0 && !ready {
        ready := true;
      }
    }
  }

  /** Net change: added less removed. */
  datatype Net = Net(routes: int, mirrors: int, hosts: int, certs: int) {
    function Plus(that: Net): Net {
      Net(routes + that.routes, mirrors + that.mirrors, hosts + that.hosts, certs + that.certs)
    }
  }

  function Balance(d: ConfigDiff): Net {
    Net(|d.routesAdded| - |d.routesRemoved|, |d.mirrorsAdded| - |d.mirrorsRemoved|,
        |d.hostsAdded| - |d.hostsRemoved|, d.certsAdded - d.certsRemoved)
  }

  /** Net change over a chain of differences. */
  function NetOf(diffs: seq<ConfigDiff>): Net {
    if diffs == [] then Net(0, 0, 0, 0)
    else NetOf(diffs[..|diffs| - 1]).Plus(Balance(diffs[|diffs| - 1]))
  }

  function SizeOf(v: View): Net {
    Net(|v.routes|, |MirroredRoutes(v.routes)|, |v.hosts|, |v.certs|)
  }

  lemma NetOfOneMore(diffs: seq<ConfigDiff>, d: ConfigDiff)
    ensures NetOf(diffs + [d]) == NetOf(diffs).Plus(Balance(d))
  {
    assert (diffs + [d])[..|diffs|] == diffs;
  }

  lemma GrowthOf(d: ConfigDiff, b: View, a: View)
    requires |d.routesAdded| - |d.routesRemoved| == |a.routes| - |b.routes|
    requires |d.mirrorsAdded| - |d.mirrorsRemoved| == |MirroredRoutes(a.routes)| - |MirroredRoutes(b.routes)|
    requires |d.hostsAdded| - |d.hostsRemoved| == |a.hosts| - |b.hosts|
    requires d.certsAdded - d.certsRemoved == |a.certs| - |b.certs|
    ensures SizeOf(b).Plus(Balance(d)) == SizeOf(a)
  {
  }

  lemma BalanceIsGrowth(previous: Option<Table>, next: Table)
    ensures SizeOf(ViewOf(previous)).Plus(Balance(DiffOf(previous, next))) == SizeOf(next.view)
  {
    CountsBalance(previous, next);
    GrowthOf(DiffOf(previous, next), ViewOf(previous), next.view);
  }

  /**
   * The differences add up to the table: along the whole chain, whichever
   * generations were held back, what was added less what was removed is what
   * the newest table has.
   */
  lemma {:induction false} ChainTelescopes(configs: seq<Arrival>)
    ensures NetOf(Chain(configs)) == SizeOf(ViewOf(Predecessor(configs)))
  {
    if configs == [] {
      NothingHasNoSize();
    } else {
      var init := configs[..|configs| - 1];
      ChainTelescopes(init);
      var next := configs[|configs| - 1].table;
      NetOfOneMore(Chain(init), DiffOf(Predecessor(init), next));
      BalanceIsGrowth(Predecessor(init), next);
    }
  }

  lemma NothingHasNoSize()
    ensures SizeOf(NOTHING) == Net(0, 0, 0, 0)
  {
    assert MirroredRoutes(NOTHING.routes) == {};
  }

  /** Readiness is one-way: nothing that follows takes it back. */
  lemma ReadyStaysReady(configs: seq<Arrival>, more: seq<Arrival>)
    requires Readies(configs)
    ensures Readies(configs + more)
  {
    var c :| c in configs && c.published && c.table.generation > 0;
    assert c in configs + more;
  }
}
