/** From a Service port to the sorted addresses of the pods serving it. */
module Endpoints {
  import opened Wrappers
  import opened Machine
  import opened Ordering
  import opened Config

  datatype ServicePort = ServicePort(name: Option<string>, port: i32)

  /** `externalName` is `Some` for `spec.type: ExternalName`. */
  datatype Service = Service(
    namespace: Option<string>,
    name: Option<string>,
    externalName: Option<string>,
    ports: seq<ServicePort>)

  datatype SlicePort = SlicePort(name: Option<string>, port: Option<i32>)

  datatype Conditions = Conditions(ready: Option<bool>, terminating: Option<bool>)

  datatype Pod = Pod(addresses: seq<string>, conditions: Option<Conditions>)

  /** `service` is the `kubernetes.io/service-name` label. */
  datatype Slice = Slice(
    namespace: Option<string>,
    service: Option<string>,
    addressType: string,
    ports: seq<SlicePort>,
    pods: seq<Pod>)

  /** A socket address; `ip` is the address's place in `IpAddr`'s order. */
  datatype Address = Address(ip: int, port: nat)

  datatype Resolution = Resolution(endpoints: seq<Address>, skipped: nat)

  datatype Issue =
    | ServiceMissing
    | ExternalName(target: string)
    | PortMissing
    | NoReadyEndpoints(skipped: nat)

  predicate AddressLe(a: Address, b: Address) {
    a.ip < b.ip || (a.ip == b.ip && a.port <= b.port)
  }

  function NameOr(name: Option<string>): string {
    match name case None => "" case Some(s) => s
  }

  predicate PortMatches(p: ServicePort, wanted: BackendPort) {
    match wanted
    case Number(n) => p.port == n
    case Name(s) => p.name == Some(s)
  }

  function FindPort(ports: seq<ServicePort>, wanted: BackendPort): Option<ServicePort> {
    if ports == [] then None
    else if PortMatches(ports[0], wanted) then Some(ports[0])
    else FindPort(ports[1..], wanted)
  }

  /** Matched by name; absent and empty are the same name. */
  function SlicePortFor(ports: seq<SlicePort>, name: Option<string>): Option<i32> {
    if ports == [] then None
    else if NameOr(ports[0].name) == NameOr(name) then ports[0].port
    else SlicePortFor(ports[1..], name)
  }

  predicate IsServing(pod: Pod) {
    match pod.conditions
    case None => true
    case Some(c) => c.ready != Some(false) && c.terminating != Some(true)
  }

  /** The port of this slice's addresses, when it carries usable ones at all. */
  function UsablePort(slice: Slice, port: ServicePort): Option<nat> {
    if slice.addressType != "IPv4" && slice.addressType != "IPv6" then None
    else
      match SlicePortFor(slice.ports, port.name)
      case None => None
      case Some(p) => if 0 <= p < 0x1_0000 then Some(p) else None
  }

  // -------------------------------------------------------------------------
  // What a slice contributes
  // -------------------------------------------------------------------------

  /** Addresses kept, and a count of those dropped. */
  datatype Harvest = Harvest(addrs: seq<Address>, skipped: nat) {
    function Plus(that: Harvest): Harvest {
      Harvest(addrs + that.addrs, skipped + that.skipped)
    }
  }

  type IpParser = string -> Option<int>

  function FromText(parseIp: IpParser, raw: string, port: nat): Harvest {
    match parseIp(raw)
    case Some(ip) => Harvest([Address(ip, port)], 0)
    case None => Harvest([], 1)
  }

  function FromTexts(parseIp: IpParser, raws: seq<string>, port: nat): Harvest {
    if raws == [] then Harvest([], 0)
    else FromTexts(parseIp, raws[..|raws| - 1], port).Plus(FromText(parseIp, raws[|raws| - 1], port))
  }

  function FromPod(parseIp: IpParser, pod: Pod, port: nat): Harvest {
    if IsServing(pod) then FromTexts(parseIp, pod.addresses, port) else Harvest([], |pod.addresses|)
  }

  function FromPods(parseIp: IpParser, pods: seq<Pod>, port: nat): Harvest {
    if pods == [] then Harvest([], 0)
    else FromPods(parseIp, pods[..|pods| - 1], port).Plus(FromPod(parseIp, pods[|pods| - 1], port))
  }

  function FromSlice(parseIp: IpParser, slice: Slice, port: ServicePort): Harvest {
    match UsablePort(slice, port)
    case None => Harvest([], 0)
    case Some(p) => FromPods(parseIp, slice.pods, p)
  }

  function FromSlices(parseIp: IpParser, slices: seq<Slice>, port: ServicePort): Harvest {
    if slices == [] then Harvest([], 0)
    else FromSlices(parseIp, slices[..|slices| - 1], port).Plus(FromSlice(parseIp, slices[|slices| - 1], port))
  }

  // -------------------------------------------------------------------------
  // The index
  // -------------------------------------------------------------------------

  type ServiceIndex = map<(string, string), Service>

  function AddService(index: ServiceIndex, svc: Service): ServiceIndex {
    if svc.namespace.None? || svc.name.None? then index
    else index[(svc.namespace.value, svc.name.value) := svc]
  }

  function IndexServices(services: seq<Service>): ServiceIndex {
    if services == [] then map[]
    else AddService(IndexServices(services[..|services| - 1]), services[|services| - 1])
  }

  predicate Belongs(slice: Slice, namespace: string, name: string) {
    slice.namespace == Some(namespace) && slice.service == Some(name)
  }

  /** The slices of one Service, in arrival order. */
  function SlicesOf(slices: seq<Slice>, namespace: string, name: string): seq<Slice> {
    if slices == [] then []
    else
      var before, last := SlicesOf(slices[..|slices| - 1], namespace, name), slices[|slices| - 1];
      if Belongs(last, namespace, name) then before + [last] else before
  }

  /** Every Service's slices are under its name, in arrival order. */
  ghost predicate GroupsSlices(groups: map<(string, string), seq<Slice>>, slices: seq<Slice>) {
    forall ns, n :: (if (ns, n) in groups then groups[(ns, n)] else []) == SlicesOf(slices, ns, n)
  }

  function Settle(h: Harvest): Result<Resolution, Issue> {
    var addrs := Dedup(SortBy(AddressLe, h.addrs));
    if addrs == [] then Err(NoReadyEndpoints(h.skipped)) else Ok(Resolution(addrs, h.skipped))
  }

  function Resolve(parseIp: IpParser, index: ServiceIndex, slices: seq<Slice>, target: ServiceRef): Result<Resolution, Issue> {
    var at := (target.namespace, target.name);
    if at !in index then Err(ServiceMissing)
    else if index[at].externalName.Some? then Err(ExternalName(index[at].externalName.value))
    else
      match FindPort(index[at].ports, target.port)
      case None => Err(PortMissing)
      case Some(port) => Settle(FromSlices(parseIp, SlicesOf(slices, target.namespace, target.name), port))
  }

  /** Built once per translation and only read after that. */
  class EndpointIndex {
    const services: ServiceIndex
    const slices: map<(string, string), seq<Slice>>

    ghost predicate Indexes(all: seq<Service>, allSlices: seq<Slice>) {
      && services == IndexServices(all)
      && GroupsSlices(slices, allSlices)
    }

    constructor (all: seq<Service>, allSlices: seq<Slice>)
      ensures Indexes(all, allSlices)
    {
      var byName: ServiceIndex := map[];
      for i := 0 to |all|
        invariant byName == IndexServices(all[..i])
      {
        assert all[..i + 1][..i] == all[..i];
        var svc := all[i];
        if svc.namespace.Some? && svc.name.Some? {
          byName := byName[(svc.namespace.value, svc.name.value) := svc];
        }
      }
      assert all[..|all|] == all;
      var groups: map<(string, string), seq<Slice>> := map[];
      for i := 0 to |allSlices|
        invariant GroupsSlices(groups, allSlices[..i])
      {
        assert allSlices[..i + 1][..i] == allSlices[..i];
        var slice := allSlices[i];
        if slice.namespace.Some? && slice.service.Some? {
          var at := (slice.namespace.value, slice.service.value);
          groups := groups[at := (if at in groups then groups[at] else []) + [slice]];
        }
      }
      assert allSlices[..|allSlices|] == allSlices;
      services, slices := byName, groups;
    }

    method CollectTexts(parseIp: IpParser, raws: seq<string>, port: nat, so: Harvest) returns (h: Harvest)
      ensures h == so.Plus(FromTexts(parseIp, raws, port))
    {
      h := so;
      for i := 0 to |raws|
        invariant h == so.Plus(FromTexts(parseIp, raws[..i], port))
      {
        assert raws[..i + 1][..i] == raws[..i];
        match parseIp(raws[i]) {
          case Some(ip) => h := Harvest(h.addrs + [Address(ip, port)], h.skipped);
          case None => h := Harvest(h.addrs, h.skipped + 1);
        }
      }
      assert raws[..|raws|] == raws;
    }

    method CollectPods(parseIp: IpParser, pods: seq<Pod>, port: nat, so: Harvest) returns (h: Harvest)
      ensures h == so.Plus(FromPods(parseIp, pods, port))
    {
      h := so;
      for i := 0 to |pods|
        invariant h == so.Plus(FromPods(parseIp, pods[..i], port))
      {
        assert pods[..i + 1][..i] == pods[..i];
        if !IsServing(pods[i]) {
          h := Harvest(h.addrs, h.skipped + |pods[i].addresses|);
        } else {
          h := CollectTexts(parseIp, pods[i].addresses, port, h);
        }
      }
      assert pods[..|pods|] == pods;
    }

    /** Resolves a backend to ready addresses, or says why it cannot. */
    method ResolveTarget(parseIp: IpParser, target: ServiceRef, ghost all: seq<Service>, ghost allSlices: seq<Slice>)
      returns (r: Result<Resolution, Issue>)
      requires Indexes(all, allSlices)
      ensures r == Resolve(parseIp, IndexServices(all), allSlices, target)
    {
      var at := (target.namespace, target.name);
      if at !in services {
        return Err(ServiceMissing);
      }
      var service := services[at];
      if service.externalName.Some? {
        return Err(ExternalName(service.externalName.value));
      }
      match FindPort(service.ports, target.port) {
        case None => return Err(PortMissing);
        case Some(port) =>
          var h := Harvest([], 0);
          var mine := if at in slices then slices[at] else [];
          for i := 0 to |mine|
            invariant h == FromSlices(parseIp, mine[..i], port)
          {
            assert mine[..i + 1][..i] == mine[..i];
            match UsablePort(mine[i], port) {
              case None =>
              case Some(p) => h := CollectPods(parseIp, mine[i].pods, p, h);
            }
          }
          assert mine[..|mine|] == mine;
          var addrs := Dedup(SortBy(AddressLe, h.addrs));
          if addrs == [] {
            return Err(NoReadyEndpoints(h.skipped));
          }
          return Ok(Resolution(addrs, h.skipped));
      }
    }
  }

  // -------------------------------------------------------------------------
  // Arrival order does not matter
  // -------------------------------------------------------------------------

  lemma AddressOrder()
    ensures TotalPreorder(AddressLe)
    ensures forall a, b :: AddressLe(a, b) && AddressLe(b, a) ==> a == b
  {
  }

  lemma {:induction false} SlicesOfCounts(slices: seq<Slice>, ns: string, n: string, x: Slice)
    ensures multiset(SlicesOf(slices, ns, n))[x] == if Belongs(x, ns, n) then multiset(slices)[x] else 0
  {
    if slices != [] {
      var init, last := slices[..|slices| - 1], slices[|slices| - 1];
      SlicesOfCounts(init, ns, n, x);
      assert slices == init + [last];
    }
  }

  lemma {:induction false} HarvestConcat(parseIp: IpParser, a: seq<Slice>, b: seq<Slice>, port: ServicePort)
    ensures FromSlices(parseIp, a + b, port) == FromSlices(parseIp, a, port).Plus(FromSlices(parseIp, b, port))
  {
    if b == [] {
      assert a + b == a;
    } else {
      var init, last := b[..|b| - 1], b[|b| - 1];
      HarvestConcat(parseIp, a, init, port);
      assert (a + b)[..|a + b| - 1] == a + init && (a + b)[|a + b| - 1] == last;
      var h, i, l := FromSlices(parseIp, a, port), FromSlices(parseIp, init, port), FromSlice(parseIp, last, port);
      ConcatAssociative(h.addrs, i.addrs, l.addrs);
    }
  }

  /** Equal up to the order of the addresses. */
  ghost predicate SameHaul(a: Harvest, b: Harvest) {
    multiset(a.addrs) == multiset(b.addrs) && a.skipped == b.skipped
  }

  lemma PlusMiddle(a: Harvest, x: Harvest, b: Harvest)
    ensures SameHaul(a.Plus(x.Plus(b)), x.Plus(a.Plus(b)))
  {
  }

  lemma SameWithOneMore(a: Harvest, b: Harvest, x: Harvest, restA: Harvest, restB: Harvest)
    requires SameHaul(a, x.Plus(restA)) && SameHaul(b, x.Plus(restB))
    requires SameHaul(restA, restB)
    ensures SameHaul(a, b)
  {
  }

  /** A slice may as well have arrived first. */
  lemma HarvestMiddle(parseIp: IpParser, a: seq<Slice>, x: Slice, b: seq<Slice>, port: ServicePort)
    ensures SameHaul(FromSlices(parseIp, a + ([x] + b), port),
                     FromSlice(parseIp, x, port).Plus(FromSlices(parseIp, a + b, port)))
  {
    HarvestConcat(parseIp, a, b, port);
    HarvestConcat(parseIp, a, [x] + b, port);
    HarvestConcat(parseIp, [x], b, port);
    OneHarvest(parseIp, x, port);
    PlusMiddle(FromSlices(parseIp, a, port), FromSlice(parseIp, x, port), FromSlices(parseIp, b, port));
  }

  lemma OneHarvest(parseIp: IpParser, x: Slice, port: ServicePort)
    ensures FromSlices(parseIp, [x], port) == FromSlice(parseIp, x, port)
  {
    assert [x][..0] == [];
    assert FromSlices(parseIp, [], port) == Harvest([], 0);
    assert [] + FromSlice(parseIp, x, port).addrs == FromSlice(parseIp, x, port).addrs;
  }

  lemma HarvestFirst(parseIp: IpParser, s: seq<Slice>, i: nat, port: ServicePort)
    requires i < |s|
    ensures SameHaul(FromSlices(parseIp, s, port),
                     FromSlice(parseIp, s[i], port).Plus(FromSlices(parseIp, s[..i] + s[i + 1..], port)))
  {
    HarvestMiddle(parseIp, s[..i], s[i], s[i + 1..], port);
    assert s[..i] + ([s[i]] + s[i + 1..]) == s;
  }

  lemma HarvestHead(parseIp: IpParser, s: seq<Slice>, port: ServicePort)
    requires s != []
    ensures SameHaul(FromSlices(parseIp, s, port), FromSlice(parseIp, s[0], port).Plus(FromSlices(parseIp, s[1..], port)))
  {
    HarvestFirst(parseIp, s, 0, port);
    assert s[..0] + s[0 + 1..] == s[1..];
  }

  lemma HarvestAgrees(parseIp: IpParser, a: seq<Slice>, b: seq<Slice>, i: nat, port: ServicePort)
    requires a != [] && i < |b| && b[i] == a[0]
    requires SameHaul(FromSlices(parseIp, a[1..], port), FromSlices(parseIp, b[..i] + b[i + 1..], port))
    ensures SameHaul(FromSlices(parseIp, a, port), FromSlices(parseIp, b, port))
  {
    HarvestHead(parseIp, a, port);
    HarvestFirst(parseIp, b, i, port);
    SameWithOneMore(FromSlices(parseIp, a, port), FromSlices(parseIp, b, port), FromSlice(parseIp, a[0], port),
                    FromSlices(parseIp, a[1..], port), FromSlices(parseIp, b[..i] + b[i + 1..], port));
  }

  lemma {:induction false} HarvestForgetsOrder(parseIp: IpParser, a: seq<Slice>, b: seq<Slice>, port: ServicePort)
    requires multiset(a) == multiset(b)
    ensures SameHaul(FromSlices(parseIp, a, port), FromSlices(parseIp, b, port))
    decreases |a|
  {
    SameMembers(a, b);
    if |a| == 0 {
      assert a == b;
    } else {
      var i := Located(a, b);
      HarvestForgetsOrder(parseIp, a[1..], b[..i] + b[i + 1..], port);
      HarvestAgrees(parseIp, a, b, i, port);
    }
  }

  /** Services with a namespace and a name, no two alike. */
  ghost predicate DistinctServices(services: seq<Service>) {
    forall i, j :: 0 <= i < j < |services| && services[i].namespace.Some? && services[i].name.Some? ==>
      services[i].namespace != services[j].namespace || services[i].name != services[j].name
  }

  lemma {:induction false} IndexedServices(services: seq<Service>, at: (string, string))
    requires DistinctServices(services)
    ensures at in IndexServices(services) <==>
            exists s :: s in services && s.namespace == Some(at.0) && s.name == Some(at.1)
    ensures forall s :: s in services && s.namespace == Some(at.0) && s.name == Some(at.1) ==>
              at in IndexServices(services) && IndexServices(services)[at] == s
  {
    if services != [] {
      var init, last := services[..|services| - 1], services[|services| - 1];
      IndexedServices(init, at);
      assert forall s :: s in services <==> s in init || s == last;
    }
  }

  lemma IndexForgetsOrder(a: seq<Service>, b: seq<Service>)
    requires DistinctServices(a) && DistinctServices(b)
    requires multiset(a) == multiset(b)
    ensures IndexServices(a) == IndexServices(b)
  {
    SameMembers(a, b);
    forall at ensures at in IndexServices(a) <==> at in IndexServices(b) {
      IndexedServices(a, at);
      IndexedServices(b, at);
    }
    forall at | at in IndexServices(a) ensures IndexServices(a)[at] == IndexServices(b)[at] {
      IndexedServices(a, at);
      IndexedServices(b, at);
      var s :| s in a && s.namespace == Some(at.0) && s.name == Some(at.1);
    }
  }

  /** The same objects in another order resolve every backend identically. */
  lemma ResolveForgetsOrder(parseIp: IpParser, svcA: seq<Service>, svcB: seq<Service>,
                            slcA: seq<Slice>, slcB: seq<Slice>, target: ServiceRef)
    requires DistinctServices(svcA) && DistinctServices(svcB)
    requires multiset(svcA) == multiset(svcB) && multiset(slcA) == multiset(slcB)
    ensures Resolve(parseIp, IndexServices(svcA), slcA, target) == Resolve(parseIp, IndexServices(svcB), slcB, target)
  {
    IndexForgetsOrder(svcA, svcB);
    var at := (target.namespace, target.name);
    if at in IndexServices(svcA) {
      var port := FindPort(IndexServices(svcA)[at].ports, target.port);
      if port.Some? {
        SettleForgetsOrder(parseIp, slcA, slcB, target, port.value);
      }
    }
  }

  lemma SettleForgetsOrder(parseIp: IpParser, slcA: seq<Slice>, slcB: seq<Slice>, target: ServiceRef, port: ServicePort)
    requires multiset(slcA) == multiset(slcB)
    ensures Settle(FromSlices(parseIp, SlicesOf(slcA, target.namespace, target.name), port))
         == Settle(FromSlices(parseIp, SlicesOf(slcB, target.namespace, target.name), port))
  {
    var a, b := SlicesOf(slcA, target.namespace, target.name), SlicesOf(slcB, target.namespace, target.name);
    forall x ensures multiset(a)[x] == multiset(b)[x] {
      SlicesOfCounts(slcA, target.namespace, target.name, x);
      SlicesOfCounts(slcB, target.namespace, target.name, x);
    }
    assert multiset(a) == multiset(b);
    HarvestForgetsOrder(parseIp, a, b, port);
    AddressOrder();
    SortForgetsOrder(AddressLe, FromSlices(parseIp, a, port).addrs, FromSlices(parseIp, b, port).addrs);
  }

  /**
   * What is resolved: strictly ascending, never empty, and exactly the parseable
   * addresses of serving pods in usable slices of that Service.
   */
  lemma ResolvedAddresses(parseIp: IpParser, services: seq<Service>, slices: seq<Slice>, target: ServiceRef)
    requires Resolve(parseIp, IndexServices(services), slices, target).Ok?
    ensures var r := Resolve(parseIp, IndexServices(services), slices, target).value.endpoints;
            && r != [] && Distinct(r) && SortedBy(AddressLe, r)
    ensures var r := Resolve(parseIp, IndexServices(services), slices, target).value.endpoints;
            var svc := IndexServices(services)[(target.namespace, target.name)];
            forall a :: a in r <==> exists s :: s in slices && Belongs(s, target.namespace, target.name)
                                     && Offers(parseIp, s, FindPort(svc.ports, target.port).value, a)
  {
    var svc := IndexServices(services)[(target.namespace, target.name)];
    var port := FindPort(svc.ports, target.port).value;
    var mine := SlicesOf(slices, target.namespace, target.name);
    var addrs := FromSlices(parseIp, mine, port).addrs;
    AddressOrder();
    SortBySorted(AddressLe, addrs);
    SameMembers(addrs, SortBy(AddressLe, addrs));
    DedupSorted(AddressLe, SortBy(AddressLe, addrs));
    forall a ensures a in addrs <==> exists s :: s in slices && Belongs(s, target.namespace, target.name)
                                          && Offers(parseIp, s, port, a)
    {
      SlicesOffer(parseIp, mine, port, a);
      forall s ensures s in mine <==> s in slices && Belongs(s, target.namespace, target.name) {
        SlicesOfCounts(slices, target.namespace, target.name, s);
        assert s in mine <==> s in multiset(mine);
        assert s in slices <==> s in multiset(slices);
      }
    }
  }

  /** Some serving pod of this slice lists the address, on the slice's port for this Service port. */
  ghost predicate Offers(parseIp: IpParser, slice: Slice, port: ServicePort, a: Address) {
    && UsablePort(slice, port) == Some(a.port)
    && exists pod, raw :: pod in slice.pods && IsServing(pod) && raw in pod.addresses && parseIp(raw) == Some(a.ip)
  }

  lemma {:induction false} TextsOffer(parseIp: IpParser, raws: seq<string>, port: nat, a: Address)
    ensures a in FromTexts(parseIp, raws, port).addrs <==>
            a.port == port && exists raw :: raw in raws && parseIp(raw) == Some(a.ip)
  {
    if raws != [] {
      var init, last := raws[..|raws| - 1], raws[|raws| - 1];
      TextsOffer(parseIp, init, port, a);
      assert forall raw :: raw in raws <==> raw in init || raw == last;
    }
  }

  lemma {:induction false} PodsOffer(parseIp: IpParser, pods: seq<Pod>, port: nat, a: Address)
    ensures a in FromPods(parseIp, pods, port).addrs <==>
            a.port == port &&
            exists pod, raw :: pod in pods && IsServing(pod) && raw in pod.addresses && parseIp(raw) == Some(a.ip)
  {
    if pods != [] {
      var init, last := pods[..|pods| - 1], pods[|pods| - 1];
      PodsOffer(parseIp, init, port, a);
      TextsOffer(parseIp, last.addresses, port, a);
      assert forall pod :: pod in pods <==> pod in init || pod == last;
    }
  }

  lemma {:induction false} SlicesOffer(parseIp: IpParser, slices: seq<Slice>, port: ServicePort, a: Address)
    ensures a in FromSlices(parseIp, slices, port).addrs <==> exists s :: s in slices && Offers(parseIp, s, port, a)
  {
    if slices != [] {
      var init, last := slices[..|slices| - 1], slices[|slices| - 1];
      SlicesOffer(parseIp, init, port, a);
      if UsablePort(last, port).Some? {
        PodsOffer(parseIp, last.pods, UsablePort(last, port).value, a);
      }
      assert a in FromSlice(parseIp, last, port).addrs <==> Offers(parseIp, last, port, a);
      assert forall s :: s in slices <==> s in init || s == last;
    }
  }
}
