/** TLS: reading Secrets, and deciding which certificate answers for which host. */
module Certificates {
  import opened Wrappers
  import opened Machine
  import opened Ordering
  import opened TextOps
  import opened Objects
  import opened Digests

  /** An absent `data` is an empty one. */
  datatype Secret = Secret(
    namespace: Option<string>,
    name: Option<string>,
    kind: Option<string>,
    data: map<string, seq<byte>>)

  datatype CertMaterial = CertMaterial(handleId: u64, cert: seq<byte>, key: seq<byte>)

  datatype CertIssue = Missing | WrongType(found: Option<string>) | IncompleteData(field: string) | NotPem

  const TLS_SECRET_TYPE := "kubernetes.io/tls"
  const TLS_CRT := "tls.crt"
  const TLS_KEY := "tls.key"
  // "-----BEGIN"
  const PEM_MARKER: seq<byte> := [0x2d, 0x2d, 0x2d, 0x2d, 0x2d, 0x42, 0x45, 0x47, 0x49, 0x4e]

  predicate Contains(haystack: seq<byte>, needle: seq<byte>) {
    needle <= haystack || (haystack != [] && Contains(haystack[1..], needle))
  }

  // -------------------------------------------------------------------------
  // Secrets
  // -------------------------------------------------------------------------

  type Secrets = map<(string, string), Secret>

  function AddSecret(index: Secrets, s: Secret): Secrets {
    if s.namespace.None? || s.name.None? then index
    else index[(s.namespace.value, s.name.value) := s]
  }

  function IndexSecrets(secrets: seq<Secret>): Secrets {
    if secrets == [] then map[]
    else AddSecret(IndexSecrets(secrets[..|secrets| - 1]), secrets[|secrets| - 1])
  }

  predicate HasField(s: Secret, field: string) {
    field in s.data && s.data[field] != []
  }

  /** The checks run in this order, and the first to fail names the issue. */
  function MaterialOf(index: Secrets, namespace: string, name: string): Result<CertMaterial, CertIssue> {
    if (namespace, name) !in index then Err(Missing)
    else
      var s := index[(namespace, name)];
      if s.kind != Some(TLS_SECRET_TYPE) then Err(WrongType(s.kind))
      else if !HasField(s, TLS_CRT) then Err(IncompleteData(TLS_CRT))
      else if !HasField(s, TLS_KEY) then Err(IncompleteData(TLS_KEY))
      else if !Contains(s.data[TLS_CRT], PEM_MARKER) then Err(NotPem)
      else
        var cert, key := s.data[TLS_CRT], s.data[TLS_KEY];
        Ok(CertMaterial(Fnv(FNV_OFFSET, CertStream(Utf8(namespace), Utf8(name), cert, key)), cert, key))
  }

  class SecretIndex {
    const byName: Secrets

    constructor (secrets: seq<Secret>)
      ensures byName == IndexSecrets(secrets)
    {
      var index: Secrets := map[];
      for i := 0 to |secrets|
        invariant index == IndexSecrets(secrets[..i])
      {
        assert secrets[..i + 1][..i] == secrets[..i];
        var s := secrets[i];
        if s.namespace.Some? && s.name.Some? {
          index := index[(s.namespace.value, s.name.value) := s];
        }
      }
      assert secrets[..|secrets|] == secrets;
      byName := index;
    }

    method Material(namespace: string, name: string) returns (r: Result<CertMaterial, CertIssue>)
      ensures r == MaterialOf(byName, namespace, name)
    {
      if (namespace, name) !in byName {
        return Err(Missing);
      }
      var secret := byName[(namespace, name)];
      if secret.kind != Some(TLS_SECRET_TYPE) {
        return Err(WrongType(secret.kind));
      }
      if !HasField(secret, TLS_CRT) {
        return Err(IncompleteData(TLS_CRT));
      }
      if !HasField(secret, TLS_KEY) {
        return Err(IncompleteData(TLS_KEY));
      }
      var cert, key := secret.data[TLS_CRT], secret.data[TLS_KEY];
      if !Contains(cert, PEM_MARKER) {
        return Err(NotPem);
      }
      var id := CertHandleId(Utf8(namespace), Utf8(name), cert, key);
      return Ok(CertMaterial(id, cert, key));
    }
  }

  /** Secrets with a namespace and a name, no two alike. */
  ghost predicate DistinctSecrets(secrets: seq<Secret>) {
    forall i, j :: 0 <= i < j < |secrets| && secrets[i].namespace.Some? && secrets[i].name.Some? ==>
      secrets[i].namespace != secrets[j].namespace || secrets[i].name != secrets[j].name
  }

  lemma {:induction false} IndexedSecrets(secrets: seq<Secret>, at: (string, string))
    requires DistinctSecrets(secrets)
    ensures at in IndexSecrets(secrets) <==>
            exists s :: s in secrets && s.namespace == Some(at.0) && s.name == Some(at.1)
    ensures forall s :: s in secrets && s.namespace == Some(at.0) && s.name == Some(at.1) ==>
              at in IndexSecrets(secrets) && IndexSecrets(secrets)[at] == s
  {
    if secrets != [] {
      var init, last := secrets[..|secrets| - 1], secrets[|secrets| - 1];
      IndexedSecrets(init, at);
      assert forall s :: s in secrets <==> s in init || s == last;
    }
  }

  lemma SecretsForgetOrder(a: seq<Secret>, b: seq<Secret>)
    requires DistinctSecrets(a) && DistinctSecrets(b)
    requires multiset(a) == multiset(b)
    ensures IndexSecrets(a) == IndexSecrets(b)
  {
    SameMembers(a, b);
    forall at ensures at in IndexSecrets(a) <==> at in IndexSecrets(b) {
      IndexedSecrets(a, at);
      IndexedSecrets(b, at);
    }
    forall at | at in IndexSecrets(a) ensures IndexSecrets(a)[at] == IndexSecrets(b)[at] {
      IndexedSecrets(a, at);
      IndexedSecrets(b, at);
      var s :| s in a && s.namespace == Some(at.0) && s.name == Some(at.1);
    }
  }

  // -------------------------------------------------------------------------
  // Claims on hosts
  // -------------------------------------------------------------------------

  datatype CertClaim = CertClaim(host: string, material: CertMaterial, owner: ObjectKey)

  datatype Holder = Holder(handleId: u64, owner: ObjectKey)

  function TlsHosts(hosts: seq<string>): seq<string> {
    if hosts == [] then []
    else
      var before := TlsHosts(hosts[..|hosts| - 1]);
      match NormalizeHost(Some(hosts[|hosts| - 1]))
      case None => before
      case Some(h) => before + [h]
  }

  function HostClaims(hosts: seq<string>, material: CertMaterial, owner: ObjectKey): seq<CertClaim> {
    if hosts == [] then []
    else HostClaims(hosts[..|hosts| - 1], material, owner) + [CertClaim(hosts[|hosts| - 1], material, owner)]
  }

  /** An entry claims nothing without a host, a Secret name and a usable Secret. */
  function EntryClaims(index: Secrets, owner: ObjectKey, entry: TlsEntry): seq<CertClaim> {
    var hosts := TlsHosts(entry.hosts);
    if hosts == [] || entry.secretName.None? then []
    else
      match MaterialOf(index, owner.namespace, entry.secretName.value)
      case Err(_) => []
      case Ok(material) => HostClaims(hosts, material, owner)
  }

  function TlsClaims(index: Secrets, owner: ObjectKey, tls: seq<TlsEntry>): seq<CertClaim> {
    if tls == [] then []
    else TlsClaims(index, owner, tls[..|tls| - 1]) + EntryClaims(index, owner, tls[|tls| - 1])
  }

  function IngressCertClaims(index: Secrets, ing: Ingress): seq<CertClaim> {
    if ing.spec.None? then [] else TlsClaims(index, ing.key, ing.spec.value.tls)
  }

  function AllCertClaims(index: Secrets, managed: seq<Ingress>): seq<CertClaim> {
    if managed == [] then []
    else AllCertClaims(index, managed[..|managed| - 1]) + IngressCertClaims(index, managed[|managed| - 1])
  }

  type Sni = map<string, Holder>
  type Materials = map<u64, CertMaterial>

  function Hold(sni: Sni, c: CertClaim): Sni {
    if c.host in sni then sni else sni[c.host := Holder(c.material.handleId, c.owner)]
  }

  function HoldAll(sni: Sni, claims: seq<CertClaim>): Sni {
    if claims == [] then sni
    else Hold(HoldAll(sni, claims[..|claims| - 1]), claims[|claims| - 1])
  }

  function StoreAll(materials: Materials, claims: seq<CertClaim>): Materials {
    if claims == [] then materials
    else
      var last := claims[|claims| - 1].material;
      StoreAll(materials, claims[..|claims| - 1])[last.handleId := last]
  }

  lemma {:induction false} HoldAllConcat(sni: Sni, a: seq<CertClaim>, b: seq<CertClaim>)
    ensures HoldAll(sni, a + b) == HoldAll(HoldAll(sni, a), b)
  {
    if b == [] {
      assert a + b == a;
    } else {
      HoldAllConcat(sni, a, b[..|b| - 1]);
      assert (a + b)[..|a + b| - 1] == a + b[..|b| - 1];
    }
  }

  lemma {:induction false} StoreAllConcat(materials: Materials, a: seq<CertClaim>, b: seq<CertClaim>)
    ensures StoreAll(materials, a + b) == StoreAll(StoreAll(materials, a), b)
  {
    if b == [] {
      assert a + b == a;
    } else {
      StoreAllConcat(materials, a, b[..|b| - 1]);
      assert (a + b)[..|a + b| - 1] == a + b[..|b| - 1];
    }
  }

  lemma OneMoreHost(materials: Materials, hosts: seq<string>, material: CertMaterial, owner: ObjectKey)
    requires hosts != []
    ensures StoreAll(materials, HostClaims(hosts, material, owner))
         == StoreAll(materials, HostClaims(hosts[..|hosts| - 1], material, owner))[material.handleId := material]
  {
    var claims := HostClaims(hosts, material, owner);
    assert claims[..|claims| - 1] == HostClaims(hosts[..|hosts| - 1], material, owner);
  }

  /** One certificate is stored once however many hosts it answers for. */
  lemma {:induction false} HostClaimsStoreOnce(materials: Materials, hosts: seq<string>, material: CertMaterial, owner: ObjectKey)
    requires hosts != []
    ensures StoreAll(materials, HostClaims(hosts, material, owner)) == materials[material.handleId := material]
  {
    OneMoreHost(materials, hosts, material, owner);
    if |hosts| > 1 {
      HostClaimsStoreOnce(materials, hosts[..|hosts| - 1], material, owner);
    }
  }

  lemma {:induction false} HeldWasClaimed(claims: seq<CertClaim>, host: string) returns (i: nat)
    requires host in HoldAll(map[], claims)
    ensures i < |claims| && claims[i].host == host
    ensures HoldAll(map[], claims)[host] == Holder(claims[i].material.handleId, claims[i].owner)
    ensures forall j :: 0 <= j < i ==> claims[j].host != host
  {
    var init := claims[..|claims| - 1];
    if host in HoldAll(map[], init) {
      i := HeldWasClaimed(init, host);
    } else {
      i := |claims| - 1;
      forall j | 0 <= j < i ensures claims[j].host != host {
        ClaimedIsHeld(init, j);
      }
    }
  }

  lemma {:induction false} ClaimedIsHeld(claims: seq<CertClaim>, i: nat)
    requires i < |claims|
    ensures claims[i].host in HoldAll(map[], claims)
  {
    if i < |claims| - 1 {
      ClaimedIsHeld(claims[..|claims| - 1], i);
    }
  }

  lemma {:induction false} CertClaimHas(index: Secrets, managed: seq<Ingress>, w: nat, c: CertClaim)
    requires w < |managed| && c in IngressCertClaims(index, managed[w])
    ensures c in AllCertClaims(index, managed)
  {
    if w < |managed| - 1 {
      CertClaimHas(index, managed[..|managed| - 1], w, c);
    }
  }

  lemma {:induction false} CertClaimFrom(index: Secrets, managed: seq<Ingress>, c: CertClaim) returns (w: nat)
    requires c in AllCertClaims(index, managed)
    ensures w < |managed| && c in IngressCertClaims(index, managed[w])
  {
    w := |managed| - 1;
    if c !in IngressCertClaims(index, managed[w]) {
      w := CertClaimFrom(index, managed[..|managed| - 1], c);
    }
  }

  lemma {:induction false} CertClaimsPrefix(index: Secrets, managed: seq<Ingress>, n: nat)
    requires n <= |managed|
    ensures AllCertClaims(index, managed[..n]) <= AllCertClaims(index, managed)
  {
    if n < |managed| {
      var init := managed[..|managed| - 1];
      assert init[..n] == managed[..n];
      CertClaimsPrefix(index, init, n);
    } else {
      assert managed[..n] == managed;
    }
  }

  /**
   * Oldest wins for certificates too: whoever brings a usable certificate for a
   * host, the host answers with that of an Ingress at least as old.
   */
  lemma OldestCertificateWins(index: Secrets, managed: seq<Ingress>, i: nat, c: CertClaim)
    returns (w: nat, held: CertClaim)
    requires SortedBy(AgeLe, managed)
    requires i < |managed| && c in IngressCertClaims(index, managed[i])
    ensures w <= i && (w < i ==> AgeLe(managed[w], managed[i]))
    ensures held in IngressCertClaims(index, managed[w]) && held.host == c.host
    ensures c.host in HoldAll(map[], AllCertClaims(index, managed))
    ensures HoldAll(map[], AllCertClaims(index, managed))[c.host] == Holder(held.material.handleId, held.owner)
  {
    var claims, older := AllCertClaims(index, managed), AllCertClaims(index, managed[..i + 1]);
    CertClaimsPrefix(index, managed, i + 1);
    CertClaimHas(index, managed[..i + 1], i, c);
    var n :| 0 <= n < |older| && older[n] == c;
    assert claims[n] == c;
    ClaimedIsHeld(claims, n);
    var f := HeldWasClaimed(claims, c.host);
    assert f <= n && claims[f] == older[f];
    held := older[f];
    w := CertClaimFrom(index, managed[..i + 1], held);
  }

  /** Every handle the SNI map names has material, filed under its own id. */
  lemma {:induction false} HeldIsStored(claims: seq<CertClaim>)
    ensures forall h :: h in HoldAll(map[], claims) ==> HoldAll(map[], claims)[h].handleId in StoreAll(map[], claims)
    ensures forall id :: id in StoreAll(map[], claims) ==> StoreAll(map[], claims)[id].handleId == id
  {
    if claims != [] {
      HeldIsStored(claims[..|claims| - 1]);
    }
  }

  // -------------------------------------------------------------------------
  // Registration
  // -------------------------------------------------------------------------

  class CertRegistry {
    var byHost: Sni
    var materials: Materials

    constructor ()
      ensures byHost == map[] && materials == map[]
    {
      byHost, materials := map[], map[];
    }

    method TakeHosts(hosts: seq<string>, material: CertMaterial, owner: ObjectKey)
      requires hosts != []
      modifies this
      ensures byHost == HoldAll(old(byHost), HostClaims(hosts, material, owner))
      ensures materials == StoreAll(old(materials), HostClaims(hosts, material, owner))
    {
      for i := 0 to |hosts|
        invariant byHost == HoldAll(old(byHost), HostClaims(hosts[..i], material, owner))
        invariant materials == old(materials)
      {
        assert hosts[..i + 1][..i] == hosts[..i];
        var claims := HostClaims(hosts[..i + 1], material, owner);
        assert claims[..|claims| - 1] == HostClaims(hosts[..i], material, owner);
        if hosts[i] !in byHost {
          byHost := byHost[hosts[i] := Holder(material.handleId, owner)];
        }
      }
      assert hosts[..|hosts|] == hosts;
      HostClaimsStoreOnce(materials, hosts, material, owner);
      materials := materials[material.handleId := material];
    }

    method TakeEntry(secrets: SecretIndex, owner: ObjectKey, entry: TlsEntry)
      modifies this
      ensures byHost == HoldAll(old(byHost), EntryClaims(secrets.byName, owner, entry))
      ensures materials == StoreAll(old(materials), EntryClaims(secrets.byName, owner, entry))
    {
      var hosts := TlsHosts(entry.hosts);
      if hosts == [] || entry.secretName.None? {
        return;
      }
      var material := secrets.Material(owner.namespace, entry.secretName.value);
      match material
      case Err(_) =>
      case Ok(material) => TakeHosts(hosts, material, owner);
    }

    method TakeIngress(secrets: SecretIndex, ing: Ingress)
      modifies this
      ensures byHost == HoldAll(old(byHost), IngressCertClaims(secrets.byName, ing))
      ensures materials == StoreAll(old(materials), IngressCertClaims(secrets.byName, ing))
    {
      if ing.spec.None? {
        return;
      }
      var tls := ing.spec.value.tls;
      for i := 0 to |tls|
        invariant byHost == HoldAll(old(byHost), TlsClaims(secrets.byName, ing.key, tls[..i]))
        invariant materials == StoreAll(old(materials), TlsClaims(secrets.byName, ing.key, tls[..i]))
      {
        assert tls[..i + 1][..i] == tls[..i];
        HoldAllConcat(old(byHost), TlsClaims(secrets.byName, ing.key, tls[..i]), EntryClaims(secrets.byName, ing.key, tls[i]));
        StoreAllConcat(old(materials), TlsClaims(secrets.byName, ing.key, tls[..i]), EntryClaims(secrets.byName, ing.key, tls[i]));
        TakeEntry(secrets, ing.key, tls[i]);
      }
      assert tls[..|tls|] == tls;
    }

    method TakeAll(secrets: SecretIndex, managed: seq<Ingress>)
      modifies this
      ensures byHost == HoldAll(old(byHost), AllCertClaims(secrets.byName, managed))
      ensures materials == StoreAll(old(materials), AllCertClaims(secrets.byName, managed))
    {
      for i := 0 to |managed|
        invariant byHost == HoldAll(old(byHost), AllCertClaims(secrets.byName, managed[..i]))
        invariant materials == StoreAll(old(materials), AllCertClaims(secrets.byName, managed[..i]))
      {
        assert managed[..i + 1][..i] == managed[..i];
        HoldAllConcat(old(byHost), AllCertClaims(secrets.byName, managed[..i]), IngressCertClaims(secrets.byName, managed[i]));
        StoreAllConcat(old(materials), AllCertClaims(secrets.byName, managed[..i]), IngressCertClaims(secrets.byName, managed[i]));
        TakeIngress(secrets, managed[i]);
      }
      assert managed[..|managed|] == managed;
    }
  }

  // -------------------------------------------------------------------------
  // What is published
  // -------------------------------------------------------------------------

  /** `defaultCert` is the handle a handshake falls back to. */
  datatype CertPlan = CertPlan(sni: Sni, materials: Materials, defaultCert: Option<u64>)

  function DefaultMaterial(index: Secrets, reference: Option<string>): Option<CertMaterial> {
    match reference
    case None => None
    case Some(r) =>
      match SplitOnce('/', r)
      case None => None
      case Some((namespace, name)) =>
        match MaterialOf(index, namespace, name)
        case Err(_) => None
        case Ok(material) => Some(material)
  }

  function WithDefaultCert(sni: Sni, materials: Materials, default: Option<CertMaterial>): CertPlan {
    match default
    case None => CertPlan(sni, materials, None)
    case Some(m) => CertPlan(sni, materials[m.handleId := m], Some(m.handleId))
  }

  function PlanCerts(index: Secrets, reference: Option<string>, managed: seq<Ingress>): CertPlan {
    var claims := AllCertClaims(index, managed);
    WithDefaultCert(HoldAll(map[], claims), StoreAll(map[], claims), DefaultMaterial(index, reference))
  }

  /** Whatever handle a handshake can be answered with, its material is shipped. */
  lemma NoHandleWithoutMaterial(index: Secrets, reference: Option<string>, managed: seq<Ingress>)
    ensures var p := PlanCerts(index, reference, managed);
            && (forall h :: h in p.sni ==> p.sni[h].handleId in p.materials)
            && (p.defaultCert.Some? ==> p.defaultCert.value in p.materials)
            && (forall id :: id in p.materials ==> p.materials[id].handleId == id)
  {
    HeldIsStored(AllCertClaims(index, managed));
  }

  function SniFields(sni: Sni, hosts: seq<string>): seq<Field>
    requires forall h :: h in hosts ==> h in sni
  {
    if hosts == [] then []
    else
      var h := hosts[|hosts| - 1];
      SniFields(sni, hosts[..|hosts| - 1]) + [Text(Utf8(h)), Word(sni[h].handleId)]
  }

  ghost function CertFields(p: CertPlan): seq<Field> {
    SniFields(p.sni, SortedSet(LexLe, p.sni.Keys))
    + match p.defaultCert case None => [] case Some(id) => [Word(id)]
  }

  method SortedHosts(sni: Sni) returns (hosts: seq<string>)
    ensures hosts == SortedSet(LexLe, sni.Keys)
  {
    var order := Walk(sni.Keys);
    hosts := SortBy(LexLe, order);
    LexOrder();
    SortedWalk(LexLe, order, sni.Keys);
  }

  method MixHosts(sni: Sni, hosts: seq<string>, d: Digest)
    requires forall h :: h in hosts ==> h in sni
    modifies d`state
    ensures d.state == Fnv(old(d.state), Stream(SniFields(sni, hosts)))
  {
    for i := 0 to |hosts|
      invariant d.state == Fnv(old(d.state), Stream(SniFields(sni, hosts[..i])))
    {
      assert hosts[..i + 1][..i] == hosts[..i];
      var fields := [Text(Utf8(hosts[i])), Word(sni[hosts[i]].handleId)];
      OneMoreItem(old(d.state), SniFields(sni, hosts[..i]), fields);
      d.MixAll(fields);
    }
    assert hosts[..|hosts|] == hosts;
  }

  /** Wires `spec.tls` and the default Secret, folding both into the digest. */
  method RegisterCertificates(secrets: seq<Secret>, reference: Option<string>, managed: seq<Ingress>, d: Digest)
    returns (p: CertPlan)
    modifies d`state
    ensures p == PlanCerts(IndexSecrets(secrets), reference, managed)
    ensures d.state == Fnv(old(d.state), Stream(CertFields(p)))
  {
    var index := new SecretIndex(secrets);
    var registry := new CertRegistry();
    registry.TakeAll(index, managed);
    var hosts := SortedHosts(registry.byHost);
    var sni, materials := registry.byHost, registry.materials;
    MixHosts(sni, hosts, d);
    var default := FindDefault(index, reference);
    p := WithDefaultCert(sni, materials, default);
    MixDefault(p, hosts, d, old(d.state));
  }

  method FindDefault(index: SecretIndex, reference: Option<string>) returns (default: Option<CertMaterial>)
    ensures default == DefaultMaterial(index.byName, reference)
  {
    if reference.None? {
      return None;
    }
    match SplitOnce('/', reference.value)
    case None => return None;
    case Some((namespace, name)) =>
      var material := index.Material(namespace, name);
      match material
      case Err(_) => return None;
      case Ok(m) => return Some(m);
  }

  method MixDefault(p: CertPlan, ghost hosts: seq<string>, d: Digest, ghost seed: u64)
    requires hosts == SortedSet(LexLe, p.sni.Keys)
    requires d.state == Fnv(seed, Stream(SniFields(p.sni, hosts)))
    modifies d`state
    ensures d.state == Fnv(seed, Stream(CertFields(p)))
  {
    match p.defaultCert
    case None =>
      assert SniFields(p.sni, hosts) + [] == SniFields(p.sni, hosts);
    case Some(id) =>
      OneMoreItem(seed, SniFields(p.sni, hosts), [Word(id)]);
      d.MixAll([Word(id)]);
  }
}
