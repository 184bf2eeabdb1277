// The desired request of a service, field by field, in terms of what the service, its nodes and its
// configuration annotation say.
module DesiredFields {
  import opened Wrappers
  import opened Sorting
  import opened Config
  import opened Naming
  import opened Nodes
  import opened Services
  import opened Builder
  import opened Overlays
  import opened DesiredState

  // What the user set; nothing without an annotation.
  function UserSet(s: Service): Overlay {
    if s.config.Decoded? then s.config.overlay
    else Overlay(None, None, None, None, None, None, None, [], None, [], [], [], [])
  }

  // The plan of the controller's settings and its session limit; both are empty for an unknown plan.
  function OwnPlan(c: Settings, plans: map<string, Plan>): (string, int) {
    if c.plan in plans then (plans[c.plan].name, plans[c.plan].maxSessions) else ("", 0)
  }

  predicate OtherPlan(c: Settings, s: Service, plans: map<string, Plan>) {
    UserSet(s).plan.Some? && UserSet(s).plan.value != OwnPlan(c, plans).0
  }

  // ----- when there is one -----

  ghost predicate SendsToBackend(f: Frontend) {
    exists r, a :: r in f.rules && a in r.actions && a.kind == "use_backend"
  }

  predicate Forbidden(l: Label) {
    l.key in ["ccm_cluster_id", "ccm_cluster_name", "ccm_generated_name", "ccm_external_traffic_policy"]
  }

  lemma MergeOutcome(s: Service, r: Request, plans: map<string, Plan>)
    ensures var d, o := Merged(s, r, plans), UserSet(s);
            if s.config.Malformed? then d == Err(UnsupportedConfiguration)
            else if s.config.Null? then d == Err(NilRequest)
            else if o.plan.Some? && o.plan.value != r.plan && o.plan.value !in plans then d == Err(UnknownPlan)
            else if exists f :: f in o.frontends && SendsToBackend(f) then d == Err(UnsupportedConfiguration)
            else if exists l :: l in o.labels && Forbidden(l) then d == Err(ForbiddenLabel)
            else d.Ok?
  {
    assert forall f :: f in UserSet(s).frontends ==> (SendsToBackend(f) <==> UsesBackendAction(f));
    assert forall l :: l in UserSet(s).labels ==> (Forbidden(l) <==> Reserved(l.key));
  }

  lemma DefaultPlan(c: Settings, s: Service, nodes: seq<Node>, plans: map<string, Plan>, clusterName: string,
                    privateNetwork: string, zone: string)
    ensures Defaults(c, s, nodes, plans, clusterName, privateNetwork, zone).plan == OwnPlan(c, plans).0
  {
  }

  // Nothing in the service or its annotation stands in the way of a request.
  ghost predicate Derivable(c: Settings, s: Service, plans: map<string, Plan>) {
    && !(s.policy.Local? && s.healthCheckNodePort == 0)
    && !s.config.Malformed? && !s.config.Null?
    && (OtherPlan(c, s, plans) ==> UserSet(s).plan.value in plans)
    && (forall f :: f in UserSet(s).frontends ==> !SendsToBackend(f))
    && (forall l :: l in UserSet(s).labels ==> !Forbidden(l))
  }

  // A request can be derived unless the health check port is missing, the annotation cannot be decoded, or it
  // asks for an unknown plan, a use_backend action or a label that belongs to the controller; in this order.
  lemma DesiredOutcome(c: Settings, s: Service, nodes: seq<Node>, plans: map<string, Plan>, clusterName: string,
                       privateNetwork: string, zone: string)
    ensures var d := Desired(c, s, nodes, plans, clusterName, privateNetwork, zone);
            if s.policy.Local? && s.healthCheckNodePort == 0 then d == Err(UnsupportedConfiguration)
            else if s.config.Malformed? then d == Err(UnsupportedConfiguration)
            else if s.config.Null? then d == Err(NilRequest)
            else if OtherPlan(c, s, plans) && UserSet(s).plan.value !in plans then d == Err(UnknownPlan)
            else if exists f :: f in UserSet(s).frontends && SendsToBackend(f) then d == Err(UnsupportedConfiguration)
            else if exists l :: l in UserSet(s).labels && Forbidden(l) then d == Err(ForbiddenLabel)
            else d.Ok?
  {
    DefaultPlan(c, s, nodes, plans, clusterName, privateNetwork, zone);
    MergeOutcome(s, Defaults(c, s, nodes, plans, clusterName, privateNetwork, zone), plans);
  }

  // ----- everything but frontends and backends -----

  function Or<T>(x: Option<T>, default: T): T {
    match x
    case Some(v) => v
    case None => default
  }

  // In the merge what the user sets wins, and all else stays; user labels come first.
  lemma MergeScalars(s: Service, r: Request, plans: map<string, Plan>)
    requires Merged(s, r, plans).Ok?
    requires !s.config.Decoded? ==> r.ipAddresses == []
    ensures var d, o := Merged(s, r, plans).value, UserSet(s);
            && d.name == Or(o.name, r.name) && d.plan == Or(o.plan, r.plan)
            && d.zone == Or(o.zone, r.zone) && d.networkUuid == Or(o.networkUuid, r.networkUuid)
            && d.configuredStatus == Or(o.configuredStatus, r.configuredStatus)
            && d.maintenanceDow == Or(o.maintenanceDow, r.maintenanceDow)
            && d.maintenanceTime == Or(o.maintenanceTime, r.maintenanceTime)
            && d.resolvers == Or(o.resolvers, r.resolvers) && d.ipAddresses == o.ipAddresses
            && d.networks == (if o.networks != [] then o.networks else r.networks)
            && d.labels == o.labels + r.labels
  {
    assert [] + r.labels == r.labels;
  }

  // The labels that the controller sets.
  function ControllerLabels(c: Settings, s: Service, clusterName: string): seq<Label> {
    [Label("ccm_cluster_id", c.clusterId), Label("ccm_cluster_name", clusterName),
     Label("ccm_generated_name", GeneratedName(c, s, clusterName)),
     Label("ccm_external_traffic_policy", match s.policy case NotSet => "" case Cluster => "cluster" case Local => "local")]
  }

  lemma DesiredScalars(c: Settings, s: Service, nodes: seq<Node>, plans: map<string, Plan>, clusterName: string,
                       privateNetwork: string, zone: string)
    requires Desired(c, s, nodes, plans, clusterName, privateNetwork, zone).Ok?
    ensures var d, o := Desired(c, s, nodes, plans, clusterName, privateNetwork, zone).value, UserSet(s);
            && d.name == Or(o.name, GeneratedName(c, s, clusterName)) && d.plan == Or(o.plan, OwnPlan(c, plans).0)
            && d.zone == Or(o.zone, zone) && d.networkUuid == Or(o.networkUuid, "")
            && d.configuredStatus == Or(o.configuredStatus, "started")
            && d.maintenanceDow == Or(o.maintenanceDow, "") && d.maintenanceTime == Or(o.maintenanceTime, "")
            && d.resolvers == Or(o.resolvers, []) && d.ipAddresses == o.ipAddresses
            && d.networks == (if o.networks != [] then o.networks
                              else [Network("public-IPv4", Public, "IPv4", ""), Network("private-IPv4", Private, "IPv4", privateNetwork)])
            && d.labels == o.labels + ControllerLabels(c, s, clusterName)
  {
    var r := Defaults(c, s, nodes, plans, clusterName, privateNetwork, zone);
    DefaultPlan(c, s, nodes, plans, clusterName, privateNetwork, zone);
    DefaultScalars(s, nodes, PlanNamed(plans, c.plan), privateNetwork, GeneratedName(c, s, clusterName), zone);
    assert r.labels == ControllerLabels(c, s, clusterName);
    MergeScalars(s, r, plans);
  }

  // Of the reserved labels a request has exactly those of the controller.
  lemma ReservedLabels(c: Settings, s: Service, nodes: seq<Node>, plans: map<string, Plan>, clusterName: string,
                       privateNetwork: string, zone: string, l: Label)
    requires Desired(c, s, nodes, plans, clusterName, privateNetwork, zone).Ok? && Forbidden(l)
    ensures l in Desired(c, s, nodes, plans, clusterName, privateNetwork, zone).value.labels <==> l in ControllerLabels(c, s, clusterName)
  {
    DesiredOutcome(c, s, nodes, plans, clusterName, privateNetwork, zone);
    DesiredScalars(c, s, nodes, plans, clusterName, privateNetwork, zone);
  }

  // The name starts with the cluster ID of the settings, whatever the cluster is called, and without one with
  // the name of the cluster.
  lemma GeneratedNameReads(c: Settings, s: Service, clusterName: string)
    ensures var prefix := if c.clusterId == "" then clusterName else c.clusterId;
            var cut := if |prefix| < 36 then prefix else prefix[..36];
            var start := if prefix == "" then "" else cut + "-";
            var name := GeneratedName(c, s, clusterName);
            && start <= name
            && (|prefix| <= 36 && |s.namespace| <= 13 && |s.name| <= 13 ==> name == start + s.namespace + "-" + s.name)
  {
    var prefix := if c.clusterId == "" then clusterName else c.clusterId;
    NameParts(s.namespace, s.name, prefix);
    LoadBalancerNameBounds(s.namespace, s.name, prefix);
  }

  // ----- frontends -----

  // The first port of this name.
  predicate FirstPort(s: Service, j: nat, name: string) {
    j < |s.ports| && PortName(s.ports[j]) == name && forall k :: 0 <= k < j ==> PortName(s.ports[k]) != name
  }

  // The only item without a name stands for the only port.
  function NameGiven(name: string, count: nat, s: Service): string {
    if name == "" && count == 1 && |s.ports| == 1 then PortName(s.ports[0]) else name
  }

  ghost predicate ServesPort(f: Frontend, p: Port) {
    f == Frontend(PortName(p), "http", p.port, PortName(p), [], [], Some("timeout_client=10,http2_enabled=false"),
                  [FrontendNetwork("public-IPv4"), FrontendNetwork("private-IPv4")])
  }

  // What the user says stays; what is left out comes from the first port of that name.
  ghost predicate FrontendAsked(s: Service, u: Frontend, f: Frontend, j: nat) {
    && (u.mode != "" ==> f.mode == u.mode) && (u.port != 0 ==> f.port == u.port)
    && (u.defaultBackend != "" ==> f.defaultBackend == u.defaultBackend) && (u.rules != [] ==> f.rules == u.rules)
    && (u.tlsConfigs != [] ==> f.tlsConfigs == u.tlsConfigs) && (u.properties.Some? ==> f.properties == u.properties)
    && (u.networks != [] ==> f.networks == u.networks)
    && (FirstPort(s, j, f.name) ==>
          && (u.mode == "" ==> f.mode == "http") && (u.port == 0 ==> f.port == s.ports[j].port)
          && (u.defaultBackend == "" ==> f.defaultBackend == f.name) && (u.rules == [] ==> f.rules == [])
          && (u.tlsConfigs == [] ==> f.tlsConfigs == [])
          && (u.properties.None? ==> f.properties == Some("timeout_client=10,http2_enabled=false"))
          && (u.networks == [] ==> f.networks == [FrontendNetwork("public-IPv4"), FrontendNetwork("private-IPv4")]))
    && ((forall p :: p in s.ports ==> PortName(p) != f.name) ==> f == u.(name := f.name))
  }

  lemma {:induction false} MergedFrontendAsked(s: Service, frontends: seq<Frontend>, i: nat, j: nat)
    requires i < |frontends| && MergedFrontends(frontends, Map(FrontendFromPort, s.ports)).Ok?
    ensures var fs := MergedFrontends(frontends, Map(FrontendFromPort, s.ports)).value;
            && |fs| == |frontends|
            && fs[i].name == NameGiven(frontends[i].name, |frontends|, s)
            && FrontendAsked(s, frontends[i], fs[i], j)
  {
    var defaults := Map(FrontendFromPort, s.ports);
    FrontendMergeIsRightBiased(frontends, defaults, i, j);
    var f := MergedFrontends(frontends, defaults).value[i];
    assert FirstPort(s, j, f.name) ==> FirstAt(FrontendName, defaults, j, f.name);
    if forall p :: p in s.ports ==> PortName(p) != f.name {
      forall d | d in defaults ensures d.name != f.name {
        var k :| 0 <= k < |s.ports| && d == FrontendFromPort(s.ports[k]);
        assert s.ports[k] in s.ports;
      }
    }
  }

  // The frontends of the request: one for every port, or those that the user asks for.
  lemma {:induction false} DesiredFrontends(c: Settings, s: Service, nodes: seq<Node>, plans: map<string, Plan>, clusterName: string,
                                            privateNetwork: string, zone: string, i: nat, j: nat)
    requires Desired(c, s, nodes, plans, clusterName, privateNetwork, zone).Ok?
    ensures var fs, us := Desired(c, s, nodes, plans, clusterName, privateNetwork, zone).value.frontends, UserSet(s).frontends;
            if us == [] then |fs| == |s.ports| && (i < |fs| ==> ServesPort(fs[i], s.ports[i]))
            else |fs| == |us| && (i < |fs| ==> fs[i].name == NameGiven(us[i].name, |us|, s) && FrontendAsked(s, us[i], fs[i], j))
  {
    var us := UserSet(s).frontends;
    if us != [] {
      MergedFrontendAsked(s, us, if i < |us| then i else 0, j);
    }
  }

  // ----- backends -----

  // The session limit of the plan that the request names.
  function Sessions(c: Settings, s: Service, plans: map<string, Plan>): int
    requires OtherPlan(c, s, plans) ==> UserSet(s).plan.value in plans
  {
    if OtherPlan(c, s, plans) then plans[UserSet(s).plan.value].maxSessions else OwnPlan(c, plans).1
  }

  // The members of a backend are the internal addresses of the nodes, on the node port.
  ghost predicate MembersReach(b: Backend, nodes: seq<Node>, port: int, sessions: int) {
    forall m :: m in b.members <==> exists n, a :: n in nodes && ReachesNode(m, n, a, port, sessions)
  }

  ghost predicate ServesNodes(s: Service, nodes: seq<Node>, b: Backend, p: Port, sessions: int) {
    b.name == PortName(p) && b.resolver == "" && b.tlsConfigs == [] && ChecksHealth(s, b) && MembersReach(b, nodes, p.nodePort, sessions)
  }

  lemma DefaultServesNodes(s: Service, nodes: seq<Node>, sessions: int, i: nat)
    requires i < |s.ports|
    ensures ServesNodes(s, nodes, ServiceBackend(s, nodes, sessions, s.ports[i]), s.ports[i], sessions)
  {
    var b, plan := ServiceBackend(s, nodes, sessions, s.ports[i]), Plan("", sessions);
    assert DefaultRequest(s, nodes, plan, "", "", "").backends[i] == b;
    forall m ensures ChecksHealth(s, b)
             ensures m in b.members <==> exists n, a :: n in nodes && ReachesNode(m, n, a, s.ports[i].nodePort, sessions)
    {
      DefaultBackendFields(s, nodes, plan, "", "", "", i, m);
    }
    DefaultBackendFields(s, nodes, plan, "", "", "", i, Member("", 0, 0, false, "", "", 0));
  }

  lemma {:induction false} OtherSessions(nodes: seq<Node>, port: int, before: int, after: int)
    ensures Map(WithSessions(after), MembersOf(nodes, port, before)) == MembersOf(nodes, port, after)
  {
    if nodes != [] {
      var n := nodes[0];
      OtherSessions(nodes[1..], port, before, after);
      OtherSessionsOfNode(n, n.addresses, port, before, after);
      MapAppended(WithSessions(after), MembersOfNode(n, n.addresses, port, before), MembersOf(nodes[1..], port, before));
    }
  }

  lemma {:induction false} OtherSessionsOfNode(n: Node, addresses: seq<Address>, port: int, before: int, after: int)
    ensures Map(WithSessions(after), MembersOfNode(n, addresses, port, before)) == MembersOfNode(n, addresses, port, after)
  {
    if addresses != [] {
      OtherSessionsOfNode(n, addresses[1..], port, before, after);
      var first := if addresses[0].kind.InternalIP? then [MemberAt(n, addresses[0].address, port, before)] else [];
      MapAppended(WithSessions(after), first, MembersOfNode(n, addresses[1..], port, before));
    }
  }

  lemma {:induction false} MapAppended<T, U>(f: T -> U, s: seq<T>, t: seq<T>)
    ensures Map(f, s + t) == Map(f, s) + Map(f, t)
  {
    forall k | 0 <= k < |s + t| ensures Map(f, s + t)[k] == (Map(f, s) + Map(f, t))[k] {
    }
  }

  // Changing the plan gives the backends that the other plan would have given in the first place.
  lemma {:induction false} PlannedAsFor(s: Service, nodes: seq<Node>, before: int, after: int)
    ensures Map(BackendWithSessions(after), Map(BackendFor(s, nodes, before), s.ports)) == Map(BackendFor(s, nodes, after), s.ports)
  {
    forall i | 0 <= i < |s.ports|
      ensures BackendWithSessions(after)(BackendFor(s, nodes, before)(s.ports[i])) == BackendFor(s, nodes, after)(s.ports[i])
    {
      OtherSessions(nodes, s.ports[i].nodePort, before, after);
    }
  }

  // What the user says stays, up to an empty health check under local policy; what is left out comes from the
  // first port of that name.
  ghost predicate BackendAsked(s: Service, nodes: seq<Node>, sessions: int, u: Backend, b: Backend, j: nat) {
    && (u.resolver != "" ==> b.resolver == u.resolver) && (u.members != [] ==> b.members == u.members)
    && (u.tlsConfigs != [] ==> b.tlsConfigs == u.tlsConfigs)
    && (u.properties.Some? ==> PropertiesAsked(s, u.properties.value, b))
    && (FirstPort(s, j, b.name) ==>
          && (u.resolver == "" ==> b.resolver == "") && (u.tlsConfigs == [] ==> b.tlsConfigs == [])
          && (u.members == [] ==> MembersReach(b, nodes, s.ports[j].nodePort, sessions))
          && (u.properties.None? ==> ChecksHealth(s, b)))
    && ((forall p :: p in s.ports ==> PortName(p) != b.name) ==> b == u.(name := b.name, properties := b.properties)
                                                                 && (u.properties.None? ==> b.properties.None?))
  }

  // An empty health check under local policy becomes that of the worker nodes; nothing else changes.
  ghost predicate PropertiesAsked(s: Service, u: BackendProperties, b: Backend) {
    if s.policy.Local? && u.healthCheckType == "" && u.healthCheckUrl == "" then
      ChecksHealth(s, b) && b.properties.value.rest == u.rest
    else b.properties == Some(u)
  }

  lemma SanitizedAsAsked(s: Service, u: BackendProperties, b: Backend)
    requires b.properties == Some(Sanitized(s, u))
    ensures PropertiesAsked(s, u, b)
  {
    if s.healthCheckNodePort > 0 {
      HealthCheckUrlReads(s);
    }
  }

  // The default of the first port of that name.
  lemma DefaultAsked(s: Service, nodes: seq<Node>, sessions: int, u: Backend, b: Backend, j: nat)
    requires FirstPort(s, j, b.name)
    requires BackendRightBiased(s, u, b, Map(BackendFor(s, nodes, sessions), s.ports), j)
    ensures (u.resolver == "" ==> b.resolver == "") && (u.tlsConfigs == [] ==> b.tlsConfigs == [])
    ensures u.members == [] ==> MembersReach(b, nodes, s.ports[j].nodePort, sessions)
    ensures u.properties.None? ==> ChecksHealth(s, b)
  {
    var defaults := Map(BackendFor(s, nodes, sessions), s.ports);
    assert FirstAt(BackendName, defaults, j, b.name);
    assert ServesNodes(s, nodes, defaults[j], s.ports[j], sessions) by {
      DefaultServesNodes(s, nodes, sessions, j);
    }
    DefaultsAreSanitized(s, nodes, sessions, s.ports[j]);
  }

  lemma {:induction false} NoDefault(s: Service, nodes: seq<Node>, sessions: int, name: string)
    requires forall p :: p in s.ports ==> PortName(p) != name
    ensures forall d :: d in Map(BackendFor(s, nodes, sessions), s.ports) ==> d.name != name
  {
    forall d | d in Map(BackendFor(s, nodes, sessions), s.ports) ensures d.name != name {
      var k :| 0 <= k < |s.ports| && d == BackendFor(s, nodes, sessions)(s.ports[k]);
      assert s.ports[k] in s.ports;
    }
  }

  lemma RightBiasedAsked(s: Service, nodes: seq<Node>, sessions: int, u: Backend, b: Backend, j: nat)
    requires BackendRightBiased(s, u, b, Map(BackendFor(s, nodes, sessions), s.ports), j)
    ensures BackendAsked(s, nodes, sessions, u, b, j)
  {
    if u.properties.Some? {
      SanitizedAsAsked(s, u.properties.value, b);
    }
    if FirstPort(s, j, b.name) {
      DefaultAsked(s, nodes, sessions, u, b, j);
    }
    if forall p :: p in s.ports ==> PortName(p) != b.name {
      NoDefault(s, nodes, sessions, b.name);
    }
  }

  lemma {:induction false} MergedBackendAsked(s: Service, nodes: seq<Node>, sessions: int, backends: seq<Backend>, i: nat, j: nat)
    requires i < |backends|
    ensures var bs := MergedBackends(s, backends, Map(BackendFor(s, nodes, sessions), s.ports));
            && |bs| == |backends|
            && bs[i].name == NameGiven(backends[i].name, |backends|, s)
            && BackendAsked(s, nodes, sessions, backends[i], bs[i], j)
  {
    var defaults := Map(BackendFor(s, nodes, sessions), s.ports);
    BackendMergeIsRightBiased(s, backends, defaults, i, j);
    RightBiasedAsked(s, nodes, sessions, backends[i], MergedBackends(s, backends, defaults)[i], j);
  }

  // The default backends under the plan that the request names.
  lemma {:induction false} DefaultsUnderPlan(c: Settings, s: Service, nodes: seq<Node>, plans: map<string, Plan>, clusterName: string,
                                             privateNetwork: string, zone: string)
    requires s.config.Decoded? && (OtherPlan(c, s, plans) ==> UserSet(s).plan.value in plans)
    ensures var r := Defaults(c, s, nodes, plans, clusterName, privateNetwork, zone);
            PlannedDefaults(r, Decode(s.config.overlay, r), plans) == Ok(Map(BackendFor(s, nodes, Sessions(c, s, plans)), s.ports))
  {
    if OtherPlan(c, s, plans) {
      PlannedAsFor(s, nodes, OwnPlan(c, plans).1, Sessions(c, s, plans));
    }
  }

  // The backends of the request: one for every port, or those that the user asks for.
  lemma {:induction false} DesiredBackends(c: Settings, s: Service, nodes: seq<Node>, plans: map<string, Plan>, clusterName: string,
                                           privateNetwork: string, zone: string, i: nat, j: nat)
    requires Desired(c, s, nodes, plans, clusterName, privateNetwork, zone).Ok?
    ensures OtherPlan(c, s, plans) ==> UserSet(s).plan.value in plans
    ensures var bs, us := Desired(c, s, nodes, plans, clusterName, privateNetwork, zone).value.backends, UserSet(s).backends;
            var sessions := Sessions(c, s, plans);
            if us == [] then |bs| == |s.ports| && (i < |bs| ==> ServesNodes(s, nodes, bs[i], s.ports[i], sessions))
            else && |bs| == |us|
                 && (i < |bs| ==> bs[i].name == NameGiven(us[i].name, |us|, s) && BackendAsked(s, nodes, sessions, us[i], bs[i], j))
  {
    DesiredOutcome(c, s, nodes, plans, clusterName, privateNetwork, zone);
    var us, sessions := UserSet(s).backends, Sessions(c, s, plans);
    if s.config.Decoded? {
      DefaultsUnderPlan(c, s, nodes, plans, clusterName, privateNetwork, zone);
    }
    if us != [] {
      MergedBackendAsked(s, nodes, sessions, us, if i < |us| then i else 0, j);
    } else if i < |s.ports| {
      DefaultServesNodes(s, nodes, sessions, i);
    }
  }
}
