/**
 * The cluster objects the compiler reads, and the orders it sorts them by.
 *
 * Annotations appear here already parsed: the parsers read named keys of one
 * object, so what they yield is a field of that object.
 */
module Objects {
  import opened Wrappers
  import opened Machine
  import opened TextOps
  import opened Ordering
  import opened Config

  datatype ObjectKey = ObjectKey(namespace: string, name: string)

  datatype PathType = Exact | Prefix | ImplementationSpecific

  datatype BackendProtocol = Http1 | H2c

  /** `backend.service`, or the `backend.resource` nothing here can route to. */
  datatype IngressBackend =
    | ServiceBackend(service: string, number: Option<i32>, portName: Option<string>)
    | ResourceBackend

  datatype PathEntry = PathEntry(path: Option<string>, pathType: string, backend: IngressBackend)

  datatype Rule = Rule(host: Option<string>, paths: seq<PathEntry>)

  datatype TlsEntry = TlsEntry(hosts: seq<string>, secretName: Option<string>)

  datatype Spec = Spec(rules: seq<Rule>, defaultBackend: Option<IngressBackend>, tls: seq<TlsEntry>)

  datatype CanaryRules = CanaryRules(
    enabled: bool,
    weight: u32,
    weightTotal: u32,
    header: Option<string>,
    headerValue: Option<string>,
    headerPattern: Option<string>,
    cookie: Option<string>)

  datatype MirrorAnnotations = MirrorAnnotations(backend: Option<string>, percent: u32, host: Option<string>)

  /** Thresholds are exact rationals here; `steps` is ascending. */
  datatype PromotionPolicy = PromotionPolicy(
    enabled: bool,
    interval: u64,
    steps: seq<u32>,
    max5xxPercent: real,
    maxLatencyFactor: real,
    minRequests: u64,
    status: Option<string>)

  datatype Ingress = Ingress(
    key: ObjectKey,
    uid: Option<string>,
    created: Option<int>,
    spec: Option<Spec>,
    protocol: BackendProtocol,
    mirror: MirrorAnnotations,
    canary: CanaryRules,
    promotion: PromotionPolicy,
    observedGeneration: Option<nat>)

  /** What the router tells two routes apart by. `None` is the catch-all host. */
  datatype RouteKey = RouteKey(host: Option<string>, path: string, pathType: PathType)

  /** A compiled host entry; a wildcard is stored under its parent domain. */
  datatype RouteHost = ExactHost(name: string) | WildcardHost(parent: string) | CatchAll

  function Displayed(host: RouteHost): string {
    match host
    case ExactHost(name) => name
    case WildcardHost(parent) => "*." + parent
    case CatchAll => "*"
  }

  function PathTypeRank(t: PathType): (r: nat)
    ensures r < 3
  {
    match t
    case Exact => 0
    case Prefix => 1
    case ImplementationSpecific => 2
  }

  function ParsePathType(raw: string): PathType {
    if raw == "Exact" then Exact else if raw == "Prefix" then Prefix else ImplementationSpecific
  }

  /** An absent or empty host is the catch-all; case and root dots do not count. */
  function NormalizeHost(host: Option<string>): Option<string> {
    match host
    case None => None
    case Some(h) =>
      var trimmed := TrimEndDots(Trim(h));
      if trimmed == "" then None else Some(Lower(trimmed))
  }

  /** A number wins over a name; neither means the backend is unusable. */
  function BackendRef(namespace: string, backend: IngressBackend): Option<ServiceRef> {
    match backend
    case ResourceBackend => None
    case ServiceBackend(service, number, portName) =>
      if number.Some? then Some(ServiceRef(namespace, service, Number(number.value)))
      else if portName.Some? then Some(ServiceRef(namespace, service, Name(portName.value)))
      else None
  }

  // -------------------------------------------------------------------------
  // Orders
  // -------------------------------------------------------------------------

  predicate KeyLe(a: ObjectKey, b: ObjectKey) {
    if a.namespace != b.namespace then LexLe(a.namespace, b.namespace) else LexLe(a.name, b.name)
  }

  lemma KeyTotal(a: ObjectKey, b: ObjectKey)
    ensures KeyLe(a, b) || KeyLe(b, a)
    ensures KeyLe(a, b) && KeyLe(b, a) ==> a == b
  {
    LexTotal(a.namespace, b.namespace);
    LexTotal(a.name, b.name);
    if KeyLe(a, b) && KeyLe(b, a) {
      if a.namespace != b.namespace {
        LexAntisymmetric(a.namespace, b.namespace);
      } else {
        LexAntisymmetric(a.name, b.name);
      }
    }
  }

  lemma KeyTransitive(a: ObjectKey, b: ObjectKey, c: ObjectKey)
    requires KeyLe(a, b) && KeyLe(b, c)
    ensures KeyLe(a, c)
  {
    if a.namespace == b.namespace == c.namespace {
      LexTransitive(a.name, b.name, c.name);
    } else if a.namespace != b.namespace && b.namespace != c.namespace {
      LexTransitive(a.namespace, b.namespace, c.namespace);
      if a.namespace == c.namespace {
        LexAntisymmetric(a.namespace, b.namespace);
      }
    }
  }

  lemma KeyOrder()
    ensures TotalPreorder(KeyLe)
    ensures forall a, b :: KeyLe(a, b) && KeyLe(b, a) ==> a == b
  {
    forall a, b ensures KeyLe(a, b) || KeyLe(b, a) { KeyTotal(a, b); }
    forall a, b | KeyLe(a, b) && KeyLe(b, a) ensures a == b { KeyTotal(a, b); }
    forall a, b, c | KeyLe(a, b) && KeyLe(b, c) ensures KeyLe(a, c) { KeyTransitive(a, b, c); }
  }

  /** An absent timestamp sorts first, as `None` does. */
  predicate StampLe(a: Option<int>, b: Option<int>) {
    a.None? || (b.Some? && a.value <= b.value)
  }

  /** Age order: creation time, then namespace and name. */
  predicate AgeLe(a: Ingress, b: Ingress) {
    if a.created != b.created then StampLe(a.created, b.created) else KeyLe(a.key, b.key)
  }

  lemma AgeOrder()
    ensures TotalPreorder(AgeLe)
    ensures forall a, b :: AgeLe(a, b) && AgeLe(b, a) ==> a.key == b.key
  {
    KeyOrder();
  }

  /** The route order: host, then a named host before the catch-all, path, type. */
  predicate RouteLe(a: RouteKey, b: RouteKey) {
    var ha, hb := HostText(a), HostText(b);
    if ha != hb then LexLe(ha, hb)
    else if a.host.None? != b.host.None? then a.host.Some?
    else if a.path != b.path then LexLe(a.path, b.path)
    else PathTypeRank(a.pathType) <= PathTypeRank(b.pathType)
  }

  function HostText(k: RouteKey): string {
    if k.host.Some? then k.host.value else ""
  }

  lemma RouteTotal(a: RouteKey, b: RouteKey)
    ensures RouteLe(a, b) || RouteLe(b, a)
    ensures RouteLe(a, b) && RouteLe(b, a) ==> a == b
  {
    LexTotal(HostText(a), HostText(b));
    LexTotal(a.path, b.path);
    if RouteLe(a, b) && RouteLe(b, a) {
      if HostText(a) != HostText(b) {
        LexAntisymmetric(HostText(a), HostText(b));
      } else if a.path != b.path {
        LexAntisymmetric(a.path, b.path);
      }
    }
  }

  lemma RouteTransitive(a: RouteKey, b: RouteKey, c: RouteKey)
    requires RouteLe(a, b) && RouteLe(b, c)
    ensures RouteLe(a, c)
  {
    var ha, hb, hc := HostText(a), HostText(b), HostText(c);
    if ha != hb && hb != hc {
      LexTransitive(ha, hb, hc);
      if ha == hc {
        LexAntisymmetric(ha, hb);
      }
    } else if ha == hb == hc && a.host.None? == b.host.None? == c.host.None? {
      if a.path != b.path && b.path != c.path {
        LexTransitive(a.path, b.path, c.path);
        if a.path == c.path {
          LexAntisymmetric(a.path, b.path);
        }
      }
    }
  }

  lemma RouteOrder()
    ensures TotalPreorder(RouteLe)
    ensures forall a, b :: RouteLe(a, b) && RouteLe(b, a) ==> a == b
  {
    forall a, b ensures RouteLe(a, b) || RouteLe(b, a) { RouteTotal(a, b); }
    forall a, b | RouteLe(a, b) && RouteLe(b, a) ensures a == b { RouteTotal(a, b); }
    forall a, b, c | RouteLe(a, b) && RouteLe(b, c) ensures RouteLe(a, c) { RouteTransitive(a, b, c); }
  }
}
