// The order in which Kubernetes lists nodes and ports does not matter: from selection over
// building and merging to the comparison with the live load balancer.
module Reordering {
  import opened Wrappers
  import opened Sorting
  import opened Config
  import opened Naming
  import opened Nodes
  import opened Services
  import opened Builder
  import opened Overlays
  import opened DesiredState
  import opened CanonicalForm
  import Shape

  // Backend by backend the same up to the order of members and TLS configs.
  ghost predicate Alike(xs: seq<Backend>, ys: seq<Backend>) {
    |xs| == |ys| && forall i :: 0 <= i < |xs| ==> Shape.OfBackend(xs[i]) == Shape.OfBackend(ys[i])
  }

  // The same outcome: the same error, or requests that describe one configuration.
  ghost predicate SameOutcome(x: Result<Request, BuildError>, y: Result<Request, BuildError>) {
    match (x, y)
    case (Ok(a), Ok(b)) => SameScalars(a, b) && Shape.OfRequest(a) == Shape.OfRequest(b)
    case (Err(e), Err(f)) => e == f
    case _ => false
  }

  // ----- reordering the nodes -----

  lemma {:induction false} FirstNamedAlike(xs: seq<Backend>, ys: seq<Backend>, name: string)
    requires Alike(xs, ys)
    ensures var x, y := FirstNamed(BackendName, xs, name), FirstNamed(BackendName, ys, name);
            && (x.Some? <==> y.Some?)
            && (x.Some? ==> Shape.OfBackend(x.value) == Shape.OfBackend(y.value))
  {
    if xs != [] {
      assert Shape.OfBackend(xs[0]) == Shape.OfBackend(ys[0]);
      forall i | 0 <= i < |xs[1..]| ensures Shape.OfBackend(xs[1..][i]) == Shape.OfBackend(ys[1..][i]) {
        assert Shape.OfBackend(xs[i + 1]) == Shape.OfBackend(ys[i + 1]);
      }
      FirstNamedAlike(xs[1..], ys[1..], name);
    }
  }

  lemma MergeOneAlike(s: Service, xs: seq<Backend>, ys: seq<Backend>, b: Backend)
    requires Alike(xs, ys)
    ensures Shape.OfBackend(MergeOneBackend(s, xs, b)) == Shape.OfBackend(MergeOneBackend(s, ys, b))
  {
    FirstNamedAlike(xs, ys, b.name);
  }

  lemma MergeAlike(s: Service, backends: seq<Backend>, xs: seq<Backend>, ys: seq<Backend>)
    requires Alike(xs, ys)
    ensures Alike(MergedBackends(s, backends, xs), MergedBackends(s, backends, ys))
  {
    if backends != [] {
      if |xs| == 1 {
        assert Shape.OfBackend(xs[0]) == Shape.OfBackend(ys[0]);
      }
      var named := NamedBackends(backends, xs);
      assert named == NamedBackends(backends, ys);
      forall i | 0 <= i < |named|
        ensures Shape.OfBackend(MergedBackend(s, xs)(named[i])) == Shape.OfBackend(MergedBackend(s, ys)(named[i]))
      {
        MergeOneAlike(s, xs, ys, named[i]);
      }
    }
  }

  lemma {:induction false} SessionsAlike(sessions: int, xs: seq<Backend>, ys: seq<Backend>)
    requires Alike(xs, ys)
    ensures Alike(Map(BackendWithSessions(sessions), xs), Map(BackendWithSessions(sessions), ys))
  {
    forall i | 0 <= i < |xs|
      ensures Shape.OfBackend(BackendWithSessions(sessions)(xs[i])) == Shape.OfBackend(BackendWithSessions(sessions)(ys[i]))
    {
      assert Shape.OfBackend(xs[i]) == Shape.OfBackend(ys[i]);
      MapPermutation(WithSessions(sessions), xs[i].members, ys[i].members);
    }
  }

  lemma {:induction false} AlikeShapes(xs: seq<Backend>, ys: seq<Backend>)
    requires Alike(xs, ys)
    ensures Map(Shape.OfBackend, xs) == Map(Shape.OfBackend, ys)
  {
  }

  lemma OverlayReorderedNodes(s: Service, o: Overlay, r: Request, q: Request, plans: map<string, Plan>)
    requires q == r.(backends := q.backends) && Alike(r.backends, q.backends)
    ensures SameOutcome(MergedOverlay(s, o, r, plans), MergedOverlay(s, o, q, plans))
  {
    var d := Decode(o, r);
    assert d == Decode(o, q);
    var xs, ys := PlannedDefaults(r, d, plans), PlannedDefaults(q, d, plans);
    if xs.Ok? {
      if d.plan != r.plan {
        SessionsAlike(plans[d.plan].maxSessions, r.backends, q.backends);
      }
      MergeAlike(s, d.backends, xs.value, ys.value);
      AlikeShapes(MergedBackends(s, d.backends, xs.value), MergedBackends(s, d.backends, ys.value));
    }
  }

  lemma MergedReorderedNodes(s: Service, r: Request, q: Request, plans: map<string, Plan>)
    requires q == r.(backends := q.backends) && Alike(r.backends, q.backends)
    ensures SameOutcome(Merged(s, r, plans), Merged(s, q, plans))
  {
    if s.config.Decoded? {
      OverlayReorderedNodes(s, s.config.overlay, r, q, plans);
    } else {
      AlikeShapes(r.backends, q.backends);
    }
  }

  lemma BackendsReorderedNodes(s: Service, m: seq<Node>, n: seq<Node>, sessions: int)
    requires Permutation(m, n)
    ensures Alike(Map(BackendFor(s, m, sessions), s.ports), Map(BackendFor(s, n, sessions), s.ports))
  {
    var xs, ys := Map(BackendFor(s, m, sessions), s.ports), Map(BackendFor(s, n, sessions), s.ports);
    forall i | 0 <= i < |s.ports| ensures Shape.OfBackend(xs[i]) == Shape.OfBackend(ys[i]) {
      BackendForReorderedNodes(s, m, n, sessions, s.ports[i]);
    }
  }

  lemma DesiredReorderedNodes(c: Settings, s: Service, m: seq<Node>, n: seq<Node>, plans: map<string, Plan>,
                              clusterName: string, privateNetwork: string, zone: string)
    requires Permutation(m, n)
    ensures SameOutcome(Desired(c, s, m, plans, clusterName, privateNetwork, zone),
                        Desired(c, s, n, plans, clusterName, privateNetwork, zone))
  {
    BackendsReorderedNodes(s, m, n, PlanNamed(plans, c.plan).maxSessions);
    MergedReorderedNodes(s, Defaults(c, s, m, plans, clusterName, privateNetwork, zone),
                         Defaults(c, s, n, plans, clusterName, privateNetwork, zone), plans);
  }

  // ----- reordering the ports -----

  lemma {:induction false} FirstNamedPermutation<T>(key: T -> string, s: seq<T>, t: seq<T>, name: string)
    requires Permutation(s, t) && DistinctKeys(key, s)
    ensures FirstNamed(key, s, name) == FirstNamed(key, t, name)
  {
    DistinctKeysPermutation(key, s, t);
    forall x ensures x in s <==> x in t {
      assert x in multiset(s) <==> x in multiset(t);
    }
    var f := FirstNamed(key, s, name);
    if f.Some? {
      FirstNamedDistinct(key, t, f.value);
    }
  }

  lemma SingletonPermutation<T>(s: seq<T>, t: seq<T>)
    requires Permutation(s, t) && |s| == 1
    ensures s == t
  {
    PermutationLength(s, t);
    assert s[0] in multiset(t);
  }

  lemma MergePermutedBackends(s: Service, s': Service, backends: seq<Backend>, xs: seq<Backend>, ys: seq<Backend>)
    requires s' == s.(ports := s'.ports)
    requires Permutation(xs, ys) && DistinctKeys(BackendName, xs)
    ensures Permutation(MergedBackends(s, backends, xs), MergedBackends(s', backends, ys))
  {
    if backends != [] {
      PermutationLength(xs, ys);
      if |xs| == 1 {
        SingletonPermutation(xs, ys);
      }
      var named := NamedBackends(backends, xs);
      assert named == NamedBackends(backends, ys);
      forall i | 0 <= i < |named| ensures MergedBackend(s, xs)(named[i]) == MergedBackend(s', ys)(named[i]) {
        FirstNamedPermutation(BackendName, xs, ys, named[i].name);
      }
      assert Map(MergedBackend(s, xs), named) == Map(MergedBackend(s', ys), named);
    }
  }

  lemma MergePermutedFrontends(frontends: seq<Frontend>, xs: seq<Frontend>, ys: seq<Frontend>)
    requires Permutation(xs, ys) && DistinctKeys(FrontendName, xs)
    ensures match (MergedFrontends(frontends, xs), MergedFrontends(frontends, ys))
            case (Ok(a), Ok(b)) => Permutation(a, b)
            case (Err(e), Err(f)) => e == f
            case _ => false
  {
    if frontends != [] {
      PermutationLength(xs, ys);
      if |xs| == 1 {
        SingletonPermutation(xs, ys);
      }
      var named := NamedFrontends(frontends, xs);
      assert named == NamedFrontends(frontends, ys);
      forall i | 0 <= i < |named| ensures MergedFrontend(xs)(named[i]) == MergedFrontend(ys)(named[i]) {
        FirstNamedPermutation(FrontendName, xs, ys, named[i].name);
      }
      assert Map(MergedFrontend(xs), named) == Map(MergedFrontend(ys), named);
    }
  }

  lemma {:induction false} SessionsKeepNames(sessions: int, xs: seq<Backend>)
    requires DistinctKeys(BackendName, xs)
    ensures DistinctKeys(BackendName, Map(BackendWithSessions(sessions), xs))
  {
  }

  lemma OverlayReorderedPorts(s: Service, s': Service, o: Overlay, r: Request, q: Request, plans: map<string, Plan>)
    requires s' == s.(ports := s'.ports)
    requires q == r.(frontends := q.frontends, backends := q.backends)
    requires Permutation(r.frontends, q.frontends) && DistinctKeys(FrontendName, r.frontends)
    requires Permutation(r.backends, q.backends) && DistinctKeys(BackendName, r.backends)
    ensures SameOutcome(MergedOverlay(s, o, r, plans), MergedOverlay(s', o, q, plans))
  {
    var d := Decode(o, r);
    assert d == Decode(o, q);
    var xs, ys := PlannedDefaults(r, d, plans), PlannedDefaults(q, d, plans);
    if xs.Ok? {
      if d.plan != r.plan {
        MapPermutation(BackendWithSessions(plans[d.plan].maxSessions), r.backends, q.backends);
        SessionsKeepNames(plans[d.plan].maxSessions, r.backends);
      }
      MergePermutedBackends(s, s', d.backends, xs.value, ys.value);
      MapPermutation(Shape.OfBackend, MergedBackends(s, d.backends, xs.value), MergedBackends(s', d.backends, ys.value));
      MergePermutedFrontends(d.frontends, r.frontends, q.frontends);
      var fs, gs := MergedFrontends(d.frontends, r.frontends), MergedFrontends(d.frontends, q.frontends);
      if fs.Ok? {
        MapPermutation(Shape.OfFrontend, fs.value, gs.value);
      }
    }
  }

  lemma MergedReorderedPorts(s: Service, s': Service, r: Request, q: Request, plans: map<string, Plan>)
    requires s' == s.(ports := s'.ports)
    requires q == r.(frontends := q.frontends, backends := q.backends)
    requires Permutation(r.frontends, q.frontends) && DistinctKeys(FrontendName, r.frontends)
    requires Permutation(r.backends, q.backends) && DistinctKeys(BackendName, r.backends)
    ensures SameOutcome(Merged(s, r, plans), Merged(s', q, plans))
  {
    if s.config.Decoded? {
      OverlayReorderedPorts(s, s', s.config.overlay, r, q, plans);
    } else {
      MapPermutation(Shape.OfFrontend, r.frontends, q.frontends);
      MapPermutation(Shape.OfBackend, r.backends, q.backends);
    }
  }

  lemma PortListsReordered(s: Service, s': Service, nodes: seq<Node>, sessions: int)
    requires s' == s.(ports := s'.ports) && Permutation(s.ports, s'.ports) && DistinctKeys(PortName, s.ports)
    ensures Permutation(Map(FrontendFromPort, s.ports), Map(FrontendFromPort, s'.ports))
    ensures Permutation(Map(BackendFor(s, nodes, sessions), s.ports), Map(BackendFor(s', nodes, sessions), s'.ports))
  {
    MapPermutation(FrontendFromPort, s.ports, s'.ports);
    MapPermutation(BackendFor(s, nodes, sessions), s.ports, s'.ports);
    forall p: Port ensures ServiceBackend(s, nodes, sessions, p) == ServiceBackend(s', nodes, sessions, p) {
    }
    assert Map(BackendFor(s, nodes, sessions), s'.ports) == Map(BackendFor(s', nodes, sessions), s'.ports);
  }

  lemma DesiredReorderedPorts(c: Settings, s: Service, s': Service, nodes: seq<Node>, plans: map<string, Plan>,
                              clusterName: string, privateNetwork: string, zone: string)
    requires s' == s.(ports := s'.ports) && Permutation(s.ports, s'.ports) && DistinctKeys(PortName, s.ports)
    ensures SameOutcome(Desired(c, s, nodes, plans, clusterName, privateNetwork, zone),
                        Desired(c, s', nodes, plans, clusterName, privateNetwork, zone))
  {
    PortListsReordered(s, s', nodes, PlanNamed(plans, c.plan).maxSessions);
    DefaultNames(s, nodes, PlanNamed(plans, c.plan).maxSessions);
    MergedReorderedPorts(s, s', Defaults(c, s, nodes, plans, clusterName, privateNetwork, zone),
                         Defaults(c, s', nodes, plans, clusterName, privateNetwork, zone), plans);
  }

  // ----- names tell items apart in the desired configuration -----

  // Names tell the items of the overlay's own lists apart.
  ghost predicate WellNamed(o: Overlay) {
    && Shape.ClearFrontends(o.frontends)
    && Shape.ClearBackends(o.backends)
    && KeyDetermines(IpNetworkName, multiset(o.ipAddresses))
  }

  // Ports that are told apart, and an overlay whose names tell its items apart.
  ghost predicate WellFormedService(s: Service) {
    DistinctKeys(PortName, s.ports) && (s.config.Decoded? ==> WellNamed(s.config.overlay))
  }

  // Together with nodes of distinct names whose internal addresses agree.
  ghost predicate WellFormedInputs(s: Service, nodes: seq<Node>) {
    WellFormedService(s) && DistinctKeys(NodeName, nodes) && AddressesAgree(nodes)
  }

  lemma {:induction false} SessionsKeepMembers(sessions: int, members: seq<Member>)
    requires KeyDetermines(MemberName, multiset(members))
    ensures KeyDetermines(MemberName, multiset(Map(WithSessions(sessions), members)))
  {
    var ms := Map(WithSessions(sessions), members);
    forall x, y | x in multiset(ms) && y in multiset(ms) && MemberName(x) == MemberName(y) ensures x == y {
      var i :| 0 <= i < |ms| && ms[i] == x;
      var j :| 0 <= j < |ms| && ms[j] == y;
      assert members[i] in multiset(members) && members[j] in multiset(members);
      assert MemberName(members[i]) == MemberName(members[j]);
    }
  }

  lemma {:induction false} SessionsKeepClear(sessions: int, xs: seq<Backend>)
    requires Shape.ClearBackends(xs)
    ensures Shape.ClearBackends(Map(BackendWithSessions(sessions), xs))
  {
    SessionsKeepNames(sessions, xs);
    var ys := Map(BackendWithSessions(sessions), xs);
    forall i | 0 <= i < |xs| ensures Shape.UnambiguousBackend(Shape.OfBackend(ys[i])) {
      assert xs[i] in xs;
      SessionsKeepMembers(sessions, xs[i].members);
    }
  }

  lemma MergedBackendsClear(s: Service, backends: seq<Backend>, defaults: seq<Backend>)
    requires Shape.ClearBackends(backends) && Shape.ClearBackends(defaults)
    ensures Shape.ClearBackends(MergedBackends(s, backends, defaults))
  {
    if backends != [] {
      var named, merged := NamedBackends(backends, defaults), MergedBackends(s, backends, defaults);
      forall i | 0 <= i < |named|
        ensures BackendName(merged[i]) == BackendName(named[i]) && Shape.UnambiguousBackend(Shape.OfBackend(merged[i]))
      {
        assert backends[i] in backends && Shape.UnambiguousBackend(Shape.OfBackend(backends[i]));
        var d := FirstNamed(BackendName, defaults, named[i].name);
      }
    }
  }

  lemma MergedFrontendsClear(frontends: seq<Frontend>, defaults: seq<Frontend>)
    requires Shape.ClearFrontends(frontends) && Shape.ClearFrontends(defaults)
    requires MergedFrontends(frontends, defaults).Ok?
    ensures Shape.ClearFrontends(MergedFrontends(frontends, defaults).value)
  {
    if frontends != [] {
      var named, merged := NamedFrontends(frontends, defaults), MergedFrontends(frontends, defaults).value;
      forall i | 0 <= i < |named|
        ensures FrontendName(merged[i]) == FrontendName(named[i]) && Shape.UnambiguousFrontend(Shape.OfFrontend(merged[i]))
      {
        assert frontends[i] in frontends && Shape.UnambiguousFrontend(Shape.OfFrontend(frontends[i]));
        var d := FirstNamed(FrontendName, defaults, named[i].name);
      }
    }
  }

  lemma DesiredUnambiguous(c: Settings, s: Service, nodes: seq<Node>, plans: map<string, Plan>, clusterName: string,
                           privateNetwork: string, zone: string)
    requires WellFormedInputs(s, nodes)
    requires Desired(c, s, nodes, plans, clusterName, privateNetwork, zone).Ok?
    ensures Shape.Unambiguous(Desired(c, s, nodes, plans, clusterName, privateNetwork, zone).value)
  {
    var r := Defaults(c, s, nodes, plans, clusterName, privateNetwork, zone);
    DefaultListsClear(s, nodes, PlanNamed(plans, c.plan).maxSessions);
    if s.config.Decoded? {
      var o := s.config.overlay;
      var d := Decode(o, r);
      if d.plan != r.plan {
        SessionsKeepClear(plans[d.plan].maxSessions, r.backends);
      }
      MergedBackendsClear(s, o.backends, PlannedDefaults(r, d, plans).value);
      MergedFrontendsClear(o.frontends, r.frontends);
    }
    Shape.ClearIsUnambiguous(Desired(c, s, nodes, plans, clusterName, privateNetwork, zone).value);
  }
}
