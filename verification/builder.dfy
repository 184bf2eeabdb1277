// The default configuration of a service: one frontend and one backend for every port, and
// in each backend one member for every internal address of every node.
module Builder {
  import opened Wrappers
  import opened Sorting
  import opened Config
  import opened Naming
  import opened Nodes
  import opened Services
  import Shape

  const MODE_HTTP := "http"
  const STATUS_STARTED := "started"
  const FAMILY_IPV4 := "IPv4"
  const MEMBER_STATIC := "static"
  const HEALTH_CHECK_TCP := "tcp"
  const HEALTH_CHECK_HTTP := "http"

  // The remaining default properties, which nothing here reads.
  const FRONTEND_PROPERTIES := "timeout_client=10,http2_enabled=false"
  const BACKEND_PROPERTIES_REST :=
    "timeout_server=10,timeout_tunnel=3600,health_check_interval=10,health_check_fall=3,health_check_rise=3,health_check_expected_status=200"

  // loadBalancerFrontendFromServicePort
  function FrontendFromPort(p: Port): Frontend {
    Frontend(PortName(p), MODE_HTTP, p.port, PortName(p), [], [], Some(FRONTEND_PROPERTIES),
             [FrontendNetwork(NETWORK_PUBLIC), FrontendNetwork(NETWORK_PRIVATE)])
  }

  function MemberAt(n: Node, ip: string, port: int, sessions: int): Member {
    Member(n.name, 100, sessions, true, MEMBER_STATIC, ip, port)
  }

  function MembersOfNode(n: Node, addresses: seq<Address>, port: int, sessions: int): seq<Member> {
    if addresses == [] then []
    else (if addresses[0].kind.InternalIP? then [MemberAt(n, addresses[0].address, port, sessions)] else [])
         + MembersOfNode(n, addresses[1..], port, sessions)
  }

  function NodeMembers(port: int, sessions: int): Node -> seq<Member> {
    (n: Node) => MembersOfNode(n, n.addresses, port, sessions)
  }

  function MembersOf(nodes: seq<Node>, port: int, sessions: int): seq<Member> {
    FlatMap(NodeMembers(port, sessions), nodes)
  }

  function BackendFromPort(p: Port, nodes: seq<Node>, sessions: int): Backend {
    Backend(PortName(p), "", MembersOf(nodes, p.nodePort, sessions),
            Some(BackendProperties(HEALTH_CHECK_TCP, "/", BACKEND_PROPERTIES_REST)), [])
  }

  lemma {:induction false} MembersOfNodeAppend(n: Node, addresses: seq<Address>, a: Address, port: int, sessions: int)
    ensures MembersOfNode(n, addresses + [a], port, sessions) ==
            MembersOfNode(n, addresses, port, sessions)
            + if a.kind.InternalIP? then [MemberAt(n, a.address, port, sessions)] else []
  {
    if addresses != [] {
      MembersOfNodeAppend(n, addresses[1..], a, port, sessions);
      assert (addresses + [a])[1..] == addresses[1..] + [a];
    }
  }

  // loadBalancerBackendFromServicePort
  method BackendFromServicePort(p: Port, nodes: seq<Node>, plan: Plan) returns (b: Backend)
    ensures b == BackendFromPort(p, nodes, plan.maxSessions)
  {
    var members: seq<Member> := [];
    for i := 0 to |nodes|
      invariant members == MembersOf(nodes[..i], p.nodePort, plan.maxSessions)
    {
      var node := nodes[i];
      ghost var before := members;
      for j := 0 to |node.addresses|
        invariant members == before + MembersOfNode(node, node.addresses[..j], p.nodePort, plan.maxSessions)
      {
        MembersOfNodeAppend(node, node.addresses[..j], node.addresses[j], p.nodePort, plan.maxSessions);
        assert node.addresses[..j + 1] == node.addresses[..j] + [node.addresses[j]];
        if node.addresses[j].kind.InternalIP? {
          members := members + [Member(node.name, 100, plan.maxSessions, true, MEMBER_STATIC,
                                       node.addresses[j].address, p.nodePort)];
        }
      }
      assert node.addresses[..|node.addresses|] == node.addresses;
      FlatMapAppend(NodeMembers(p.nodePort, plan.maxSessions), nodes[..i], node);
      assert nodes[..i + 1] == nodes[..i] + [node];
    }
    assert nodes[..|nodes|] == nodes;
    b := Backend(PortName(p), "", members,
                 Some(BackendProperties(HEALTH_CHECK_TCP, "/", BACKEND_PROPERTIES_REST)), []);
  }

  // serviceHealthCheckURL
  function HealthCheckUrl(s: Service): string {
    if s.healthCheckNodePort > 0 then "http://:" + Decimal(s.healthCheckNodePort) else "/"
  }

  // The backend of a port of this service; local traffic policy brings its own health check.
  function ServiceBackend(s: Service, nodes: seq<Node>, sessions: int, p: Port): Backend {
    var b := BackendFromPort(p, nodes, sessions);
    if s.policy.Local? then
      b.(properties := Some(b.properties.value.(healthCheckType := HEALTH_CHECK_HTTP,
                                                healthCheckUrl := HealthCheckUrl(s))))
    else b
  }

  function BackendFor(s: Service, nodes: seq<Node>, sessions: int): Port -> Backend {
    (p: Port) => ServiceBackend(s, nodes, sessions, p)
  }

  // The default request of a service.
  function DefaultRequest(s: Service, nodes: seq<Node>, plan: Plan, privateNetwork: string, name: string, zone: string)
    : Request
  {
    Request(name, plan.name, zone, "", STATUS_STARTED, "", "",
            [Network(NETWORK_PUBLIC, Public, FAMILY_IPV4, ""),
             Network(NETWORK_PRIVATE, Private, FAMILY_IPV4, privateNetwork)],
            [], [], Map(FrontendFromPort, s.ports), Map(BackendFor(s, nodes, plan.maxSessions), s.ports), [])
  }

  // createLoadBalancerRequest
  method CreateLoadBalancerRequest(s: Service, nodes: seq<Node>, plan: Plan, privateNetwork: string,
                                   name: string, zone: string)
    returns (r: Result<Request, BuildError>)
    ensures r.Err? <==> s.policy.Local? && s.healthCheckNodePort == 0
    ensures r.Ok? ==> r.value == DefaultRequest(s, nodes, plan, privateNetwork, name, zone)
    ensures r.Err? ==> r.error == UnsupportedConfiguration
    ensures r.Ok? ==> forall b :: b in r.value.backends ==> ChecksHealth(s, b)
  {
    AllCheckHealth(s, nodes, plan, privateNetwork, name, zone);
    if s.policy.Local? && s.healthCheckNodePort == 0 {
      return Err(UnsupportedConfiguration);
    }
    var frontends: seq<Frontend> := [];
    var backends: seq<Backend> := [];
    for i := 0 to |s.ports|
      invariant |frontends| == |backends| == i
      invariant forall k :: 0 <= k < i ==> frontends[k] == FrontendFromPort(s.ports[k])
      invariant forall k :: 0 <= k < i ==> backends[k] == BackendFor(s, nodes, plan.maxSessions)(s.ports[k])
    {
      frontends := frontends + [FrontendFromPort(s.ports[i])];
      var backend := BackendFromServicePort(s.ports[i], nodes, plan);
      if s.policy.Local? {
        backend := backend.(properties := Some(backend.properties.value.(
                              healthCheckType := HEALTH_CHECK_HTTP, healthCheckUrl := HealthCheckUrl(s))));
      }
      backends := backends + [backend];
    }
    r := Ok(Request(name, plan.name, zone, "", STATUS_STARTED, "", "",
                    [Network(NETWORK_PUBLIC, Public, FAMILY_IPV4, ""),
                     Network(NETWORK_PRIVATE, Private, FAMILY_IPV4, privateNetwork)],
                    [], [], frontends, backends, []));
    assert frontends == Map(FrontendFromPort, s.ports);
    assert backends == Map(BackendFor(s, nodes, plan.maxSessions), s.ports);
  }

  // createLoadBalancerRequestLabels
  function RequestLabels(s: Service, clusterId: string, clusterName: string, name: string): seq<Label> {
    [Label(CLUSTER_ID_LABEL, clusterId), Label(CLUSTER_NAME_LABEL, clusterName),
     Label(GENERATED_NAME_LABEL, name), Label(TRAFFIC_POLICY_LABEL, LowerCase(s.policy))]
  }

  // ----- conservation -----

  // One member for each internal address of each node, and nothing else.
  lemma {:induction false} MembersAreAddresses(nodes: seq<Node>, port: int, sessions: int, m: Member)
    ensures m in MembersOf(nodes, port, sessions) <==>
            exists n, a :: n in nodes && a in n.addresses && a.kind.InternalIP? && m == MemberAt(n, a.address, port, sessions)
    ensures |MembersOf(nodes, port, sessions)| == InternalAddresses(nodes)
  {
    if nodes != [] {
      MembersAreAddresses(nodes[1..], port, sessions, m);
      AddressesOfNode(nodes[0], nodes[0].addresses, port, sessions, m);
      AddressCount(nodes[0], nodes[0].addresses, port, sessions);
    }
  }

  function InternalCount(addresses: seq<Address>): nat {
    if addresses == [] then 0 else (if addresses[0].kind.InternalIP? then 1 else 0) + InternalCount(addresses[1..])
  }

  function InternalAddresses(nodes: seq<Node>): nat {
    if nodes == [] then 0 else InternalCount(nodes[0].addresses) + InternalAddresses(nodes[1..])
  }

  lemma {:induction false} AddressCount(n: Node, addresses: seq<Address>, port: int, sessions: int)
    ensures |MembersOfNode(n, addresses, port, sessions)| == InternalCount(addresses)
    ensures forall m :: m in MembersOfNode(n, addresses, port, sessions) ==> m.name == n.name
  {
    if addresses != [] {
      AddressCount(n, addresses[1..], port, sessions);
    }
  }

  lemma {:induction false} AddressesOfNode(n: Node, addresses: seq<Address>, port: int, sessions: int, m: Member)
    ensures m in MembersOfNode(n, addresses, port, sessions) <==>
            exists a :: a in addresses && a.kind.InternalIP? && m == MemberAt(n, a.address, port, sessions)
  {
    if addresses != [] {
      AddressesOfNode(n, addresses[1..], port, sessions, m);
    }
  }

  // Every frontend has its own backend, which its default names; the names are distinct
  // exactly when the ports are told apart.
  lemma RequestStructure(s: Service, nodes: seq<Node>, plan: Plan, privateNetwork: string, name: string, zone: string)
    ensures var r := DefaultRequest(s, nodes, plan, privateNetwork, name, zone);
            && |r.frontends| == |r.backends| == |s.ports|
            && (forall i :: 0 <= i < |s.ports| ==>
                  && r.frontends[i].port == s.ports[i].port
                  && r.frontends[i].defaultBackend == r.frontends[i].name == r.backends[i].name == PortName(s.ports[i])
                  && r.backends[i].members == MembersOf(nodes, s.ports[i].nodePort, plan.maxSessions))
            && (DistinctKeys(BackendName, r.backends) <==>
                forall i, j :: 0 <= i < j < |s.ports| ==> PortsDiffer(s.ports[i], s.ports[j]))
            && (DistinctKeys(FrontendName, r.frontends) <==> DistinctKeys(BackendName, r.backends))
  {
    var r := DefaultRequest(s, nodes, plan, privateNetwork, name, zone);
    forall i | 0 <= i < |s.ports|
      ensures BackendName(r.backends[i]) == PortName(s.ports[i]) == FrontendName(r.frontends[i])
    {
    }
    PortNamesDistinct(s.ports);
  }

  // ----- the defaults, field by field -----

  lemma DefaultScalars(s: Service, nodes: seq<Node>, plan: Plan, privateNetwork: string, name: string, zone: string)
    ensures var r := DefaultRequest(s, nodes, plan, privateNetwork, name, zone);
            && r.name == name && r.plan == plan.name && r.zone == zone && r.networkUuid == "" && r.configuredStatus == "started"
            && r.maintenanceDow == "" && r.maintenanceTime == "" && r.resolvers == [] && r.ipAddresses == []
            && r.networks == [Network("public-IPv4", Public, "IPv4", ""), Network("private-IPv4", Private, "IPv4", privateNetwork)]
  {
  }

  // A frontend takes HTTP on the port of the service, from both networks.
  lemma DefaultFrontendFields(s: Service, nodes: seq<Node>, plan: Plan, privateNetwork: string, name: string, zone: string, i: nat)
    requires i < |s.ports|
    ensures var f, p := DefaultRequest(s, nodes, plan, privateNetwork, name, zone).frontends[i], s.ports[i];
            && f.mode == "http" && f.port == p.port && f.rules == [] && f.tlsConfigs == []
            && f.networks == [FrontendNetwork("public-IPv4"), FrontendNetwork("private-IPv4")]
            && f.defaultBackend == f.name
            && (p.name != "" ==> f.name == p.name)
            && (p.name == "" && p.port >= 0 ==> f.name[..7] == "config_" && NumeralOf(f.name[7..], p.port))
  {
    PortNameReads(s.ports[i]);
  }

  // Local policy: the health check of the worker nodes; any other policy: a plain TCP check.
  ghost predicate ChecksHealth(s: Service, b: Backend) {
    && b.properties.Some?
    && var p := b.properties.value;
       if s.policy.Local? then
         && p.healthCheckType == "http"
         && (s.healthCheckNodePort > 0 ==>
               |p.healthCheckUrl| > 8 && p.healthCheckUrl[..8] == "http://:" && NumeralOf(p.healthCheckUrl[8..], s.healthCheckNodePort))
         && (s.healthCheckNodePort <= 0 ==> p.healthCheckUrl == "/")
       else p.healthCheckType == "tcp" && p.healthCheckUrl == "/"
  }

  lemma HealthCheckUrlReads(s: Service)
    requires s.healthCheckNodePort > 0
    ensures |HealthCheckUrl(s)| > 8 && HealthCheckUrl(s)[..8] == "http://:"
    ensures NumeralOf(HealthCheckUrl(s)[8..], s.healthCheckNodePort)
  {
    DecimalValue(s.healthCheckNodePort);
    assert ("http://:" + Decimal(s.healthCheckNodePort))[8..] == Decimal(s.healthCheckNodePort);
  }

  // The member at one internal address of a node.
  ghost predicate ReachesNode(m: Member, n: Node, a: Address, port: int, sessions: int) {
    && a in n.addresses && a.kind.InternalIP?
    && m.name == n.name && m.ip == a.address && m.port == port
    && m.weight == 100 && m.maxSessions == sessions && m.enabled && m.kind == "static"
  }

  // A backend reaches the node port of the service on every internal address of every node, and nothing else.
  lemma DefaultBackendFields(s: Service, nodes: seq<Node>, plan: Plan, privateNetwork: string, name: string, zone: string, i: nat,
                             m: Member)
    requires i < |s.ports|
    ensures var r, p := DefaultRequest(s, nodes, plan, privateNetwork, name, zone), s.ports[i];
            var b := r.backends[i];
            && b.name == r.frontends[i].name && b.resolver == "" && b.tlsConfigs == [] && ChecksHealth(s, b)
            && (m in b.members <==> exists n, a :: n in nodes && ReachesNode(m, n, a, p.nodePort, plan.maxSessions))
  {
    if s.healthCheckNodePort > 0 {
      HealthCheckUrlReads(s);
    }
    var b := DefaultRequest(s, nodes, plan, privateNetwork, name, zone).backends[i];
    assert b == ServiceBackend(s, nodes, plan.maxSessions, s.ports[i]);
    MembersAreAddresses(nodes, s.ports[i].nodePort, plan.maxSessions, m);
    if n, a :| n in nodes && ReachesNode(m, n, a, s.ports[i].nodePort, plan.maxSessions) {
      assert m == MemberAt(n, a.address, s.ports[i].nodePort, plan.maxSessions);
    }
    if m in b.members {
      var n, a :| n in nodes && a in n.addresses && a.kind.InternalIP? && m == MemberAt(n, a.address, s.ports[i].nodePort, plan.maxSessions);
      assert ReachesNode(m, n, a, s.ports[i].nodePort, plan.maxSessions);
    }
  }

  lemma {:induction false} AllCheckHealth(s: Service, nodes: seq<Node>, plan: Plan, privateNetwork: string, name: string, zone: string)
    ensures forall b :: b in DefaultRequest(s, nodes, plan, privateNetwork, name, zone).backends ==> ChecksHealth(s, b)
  {
    var bs := DefaultRequest(s, nodes, plan, privateNetwork, name, zone).backends;
    forall b | b in bs ensures ChecksHealth(s, b) {
      var i :| 0 <= i < |s.ports| && bs[i] == b;
      DefaultBackendFields(s, nodes, plan, privateNetwork, name, zone, i, Member("", 0, 0, false, "", "", 0));
    }
  }

  ghost predicate AtMostOneAddress(nodes: seq<Node>) {
    forall n :: n in nodes ==> InternalCount(n.addresses) <= 1
  }

  lemma {:induction false} MembersHead(nodes: seq<Node>, port: int, sessions: int)
    requires nodes != []
    ensures var first := MembersOfNode(nodes[0], nodes[0].addresses, port, sessions);
            && MembersOf(nodes, port, sessions) == first + MembersOf(nodes[1..], port, sessions)
            && |first| == InternalCount(nodes[0].addresses) && forall m :: m in first ==> m.name == nodes[0].name
  {
    AddressCount(nodes[0], nodes[0].addresses, port, sessions);
  }

  lemma OtherNames(nodes: seq<Node>, port: int, sessions: int, m: Member)
    requires nodes != [] && DistinctKeys(NodeName, nodes) && m in MembersOf(nodes[1..], port, sessions)
    ensures m.name != nodes[0].name
  {
    MembersAreAddresses(nodes[1..], port, sessions, m);
    var n :| n in nodes[1..] && n.name == m.name;
    var k :| 0 <= k < |nodes[1..]| && nodes[1..][k] == n;
    assert NodeName(nodes[0]) != NodeName(nodes[k + 1]);
  }

  // Members of distinct nodes have distinct names exactly when no node has several internal addresses.
  lemma {:induction false} MemberNamesDistinct(nodes: seq<Node>, port: int, sessions: int)
    requires DistinctKeys(NodeName, nodes)
    ensures DistinctKeys(MemberName, MembersOf(nodes, port, sessions)) <==> AtMostOneAddress(nodes)
  {
    if nodes != [] {
      var rest := MembersOf(nodes[1..], port, sessions);
      assert forall i :: 0 <= i < |nodes[1..]| ==> nodes[1..][i] == nodes[i + 1];
      MemberNamesDistinct(nodes[1..], port, sessions);
      MembersHead(nodes, port, sessions);
      forall m | m in rest ensures m.name != nodes[0].name {
        OtherNames(nodes, port, sessions, m);
      }
      DistinctAppend(MemberName, MembersOfNode(nodes[0], nodes[0].addresses, port, sessions), rest, nodes[0].name);
      assert AtMostOneAddress(nodes) <==> InternalCount(nodes[0].addresses) <= 1 && AtMostOneAddress(nodes[1..]) by {
        assert nodes == [nodes[0]] + nodes[1..];
      }
    }
  }

  // The internal addresses of a node are all the same.
  ghost predicate AddressesAgree(nodes: seq<Node>) {
    forall n, a, b :: n in nodes && a in n.addresses && b in n.addresses && a.kind.InternalIP? && b.kind.InternalIP? ==>
      a.address == b.address
  }

  lemma SameNameSameMember(nodes: seq<Node>, port: int, sessions: int, x: Member, y: Member)
    requires DistinctKeys(NodeName, nodes) && AddressesAgree(nodes)
    requires x in MembersOf(nodes, port, sessions) && y in MembersOf(nodes, port, sessions) && x.name == y.name
    ensures x == y
  {
    MembersAreAddresses(nodes, port, sessions, x);
    MembersAreAddresses(nodes, port, sessions, y);
    var n, a :| n in nodes && a in n.addresses && a.kind.InternalIP? && x == MemberAt(n, a.address, port, sessions);
    var k, b :| k in nodes && b in k.addresses && b.kind.InternalIP? && y == MemberAt(k, b.address, port, sessions);
    var i :| 0 <= i < |nodes| && nodes[i] == n;
    var j :| 0 <= j < |nodes| && nodes[j] == k;
    assert NodeName(nodes[i]) == NodeName(nodes[j]);
    assert i == j;
  }

  lemma SameNodeSameAddress(nodes: seq<Node>, port: int, sessions: int, n: Node, a: Address, b: Address)
    requires KeyDetermines(MemberName, multiset(MembersOf(nodes, port, sessions)))
    requires n in nodes && a in n.addresses && b in n.addresses && a.kind.InternalIP? && b.kind.InternalIP?
    ensures a.address == b.address
  {
    var x, y := MemberAt(n, a.address, port, sessions), MemberAt(n, b.address, port, sessions);
    MembersAreAddresses(nodes, port, sessions, x);
    MembersAreAddresses(nodes, port, sessions, y);
    assert MemberName(x) == MemberName(y);
  }

  // Members of one name are the same exactly when the addresses of each node agree.
  lemma MembersUnambiguous(nodes: seq<Node>, port: int, sessions: int)
    requires DistinctKeys(NodeName, nodes)
    ensures KeyDetermines(MemberName, multiset(MembersOf(nodes, port, sessions))) <==> AddressesAgree(nodes)
  {
    var ms := MembersOf(nodes, port, sessions);
    if KeyDetermines(MemberName, multiset(ms)) {
      forall n, a, b | n in nodes && a in n.addresses && b in n.addresses && a.kind.InternalIP? && b.kind.InternalIP?
        ensures a.address == b.address
      {
        SameNodeSameAddress(nodes, port, sessions, n, a, b);
      }
    }
    if AddressesAgree(nodes) {
      forall x, y | x in multiset(ms) && y in multiset(ms) && MemberName(x) == MemberName(y) ensures x == y {
        SameNameSameMember(nodes, port, sessions, x, y);
      }
    }
  }

  lemma DefaultFrontendUnambiguous(p: Port)
    ensures Shape.UnambiguousFrontend(Shape.OfFrontend(FrontendFromPort(p)))
  {
  }

  lemma DefaultBackendUnambiguous(s: Service, nodes: seq<Node>, sessions: int, p: Port)
    requires DistinctKeys(NodeName, nodes)
    ensures Shape.UnambiguousBackend(Shape.OfBackend(ServiceBackend(s, nodes, sessions, p))) <==> AddressesAgree(nodes)
  {
    MembersUnambiguous(nodes, p.nodePort, sessions);
  }

  lemma DefaultNames(s: Service, nodes: seq<Node>, sessions: int)
    requires DistinctKeys(PortName, s.ports)
    ensures DistinctKeys(FrontendName, Map(FrontendFromPort, s.ports))
    ensures DistinctKeys(BackendName, Map(BackendFor(s, nodes, sessions), s.ports))
  {
    forall i | 0 <= i < |s.ports|
      ensures FrontendName(FrontendFromPort(s.ports[i])) == PortName(s.ports[i])
      ensures BackendName(BackendFor(s, nodes, sessions)(s.ports[i])) == PortName(s.ports[i])
    {
    }
  }

  lemma DefaultListsClear(s: Service, nodes: seq<Node>, sessions: int)
    requires DistinctKeys(PortName, s.ports) && DistinctKeys(NodeName, nodes)
    ensures Shape.ClearFrontends(Map(FrontendFromPort, s.ports))
    ensures AddressesAgree(nodes) ==> Shape.ClearBackends(Map(BackendFor(s, nodes, sessions), s.ports))
  {
    DefaultNames(s, nodes, sessions);
    forall p: Port
      ensures Shape.UnambiguousFrontend(Shape.OfFrontend(FrontendFromPort(p)))
      ensures AddressesAgree(nodes) ==> Shape.UnambiguousBackend(Shape.OfBackend(ServiceBackend(s, nodes, sessions, p)))
    {
      DefaultFrontendUnambiguous(p);
      DefaultBackendUnambiguous(s, nodes, sessions, p);
    }
  }

  // The default request is unambiguous exactly when the addresses of each node agree, or there are no ports.
  lemma DefaultRequestUnambiguous(s: Service, nodes: seq<Node>, plan: Plan, privateNetwork: string, name: string, zone: string)
    requires DistinctKeys(PortName, s.ports) && DistinctKeys(NodeName, nodes)
    ensures Shape.Unambiguous(DefaultRequest(s, nodes, plan, privateNetwork, name, zone)) <==> s.ports == [] || AddressesAgree(nodes)
  {
    var r := DefaultRequest(s, nodes, plan, privateNetwork, name, zone);
    DefaultListsClear(s, nodes, plan.maxSessions);
    if s.ports == [] || AddressesAgree(nodes) {
      Shape.ClearIsUnambiguous(r);
    } else {
      DefaultBackendUnambiguous(s, nodes, plan.maxSessions, s.ports[0]);
      assert Map(Shape.OfBackend, r.backends)[0] in Shape.OfRequest(r).backends;
    }
  }

  // ----- reordering nodes and ports -----

  lemma BackendForReorderedNodes(s: Service, m: seq<Node>, n: seq<Node>, sessions: int, p: Port)
    requires Permutation(m, n)
    ensures Shape.OfBackend(BackendFor(s, m, sessions)(p)) == Shape.OfBackend(BackendFor(s, n, sessions)(p))
  {
    FlatMapPermutation(NodeMembers(p.nodePort, sessions), m, n);
  }
}
