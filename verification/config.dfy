// The load balancer configuration: the request that creates a load balancer and
// everything nested in it. Values that the reconciler only copies and compares are
// bundled into one opaque string field (settings, body, rest).
module Config {
  import opened Wrappers

  // Identifiers that the API hands out; 0 stands for the empty identifier.
  type Uuid = nat

  const NETWORK_PUBLIC := "public-IPv4"
  const NETWORK_PRIVATE := "private-IPv4"

  datatype NetworkKind = Public | Private

  datatype Network = Network(name: string, kind: NetworkKind, family: string, uuid: string)

  datatype Resolver = Resolver(name: string, settings: string)

  datatype Label = Label(key: string, value: string)

  datatype Member = Member(name: string, weight: int, maxSessions: int, enabled: bool, kind: string,
                           ip: string, port: int)

  datatype BackendTls = BackendTls(name: string, bundle: Uuid)

  datatype BackendProperties = BackendProperties(healthCheckType: string, healthCheckUrl: string, rest: string)

  datatype Backend = Backend(name: string, resolver: string, members: seq<Member>,
                             properties: Option<BackendProperties>, tlsConfigs: seq<BackendTls>)

  datatype Action = Action(kind: string, body: string)

  datatype Matcher = Matcher(kind: string, body: string)

  datatype Rule = Rule(name: string, priority: int, matchingCondition: string,
                       matchers: seq<Matcher>, actions: seq<Action>)

  datatype FrontendTls = FrontendTls(name: string, bundle: Uuid)

  datatype FrontendNetwork = FrontendNetwork(name: string)

  datatype Frontend = Frontend(name: string, mode: string, port: int, defaultBackend: string,
                               rules: seq<Rule>, tlsConfigs: seq<FrontendTls>,
                               properties: Option<string>, networks: seq<FrontendNetwork>)

  datatype IpAddress = IpAddress(networkName: string, address: string)

  datatype Request = Request(
    name: string, plan: string, zone: string, networkUuid: string, configuredStatus: string,
    maintenanceDow: string, maintenanceTime: string,
    networks: seq<Network>, resolvers: seq<Resolver>, labels: seq<Label>,
    frontends: seq<Frontend>, backends: seq<Backend>, ipAddresses: seq<IpAddress>)

  // The keys that the lists are sorted by.
  function NetworkName(n: Network): string { n.name }
  function ResolverName(r: Resolver): string { r.name }
  function LabelKey(l: Label): string { l.key }
  function MemberName(m: Member): string { m.name }
  function BackendTlsName(t: BackendTls): string { t.name }
  function BackendName(b: Backend): string { b.name }
  function ActionKind(a: Action): string { a.kind }
  function MatcherKind(m: Matcher): string { m.kind }
  function RuleName(r: Rule): string { r.name }
  function FrontendTlsName(t: FrontendTls): string { t.name }
  function FrontendNetworkName(n: FrontendNetwork): string { n.name }
  function FrontendName(f: Frontend): string { f.name }
  function IpNetworkName(a: IpAddress): string { a.networkName }
}
