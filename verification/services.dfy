// The Kubernetes service that a load balancer is made for, and what users may override.
module Services {
  import opened Wrappers
  import opened Config
  import opened Naming

  // spec.externalTrafficPolicy
  datatype Policy = NotSet | Cluster | Local

  function LowerCase(p: Policy): string {
    match p
    case NotSet => ""
    case Cluster => "cluster"
    case Local => "local"
  }

  // A decoded configuration annotation. Scalars and resolvers that the user left out keep the
  // defaults; the other lists start out empty before the annotation is decoded.
  datatype Overlay = Overlay(
    name: Option<string>, plan: Option<string>, zone: Option<string>, networkUuid: Option<string>,
    configuredStatus: Option<string>, maintenanceDow: Option<string>, maintenanceTime: Option<string>,
    networks: seq<Network>, resolvers: Option<seq<Resolver>>, labels: seq<Label>,
    frontends: seq<Frontend>, backends: seq<Backend>, ipAddresses: seq<IpAddress>)

  // The annotation "null" decodes to no request at all.
  datatype ConfigAnnotation = NoConfig | Malformed | Null | Decoded(overlay: Overlay)

  // The node selector annotation; without one everything matches.
  datatype SelectorAnnotation = BadSelector | NodeSelector(matches: map<string, string> -> bool)

  datatype Service = Service(namespace: string, name: string, ports: seq<Port>, policy: Policy,
                             healthCheckNodePort: int, config: ConfigAnnotation, selector: SelectorAnnotation)

  datatype Plan = Plan(name: string, maxSessions: int)

  // Why no request can be derived; NilRequest is a nil pointer panic.
  datatype BuildError = UnsupportedConfiguration | UnknownPlan | ForbiddenLabel | NilRequest
}
