// Order insensitivity end to end: reordering the nodes or the ports of a service changes neither the
// verdict on its load balancer nor, once sorted, what is PUT.
module Insensitivity {
  import opened Wrappers
  import opened Sorting
  import opened Config
  import opened Naming
  import opened Nodes
  import opened Services
  import opened Builder
  import opened DesiredState
  import opened Reordering
  import opened Compare
  import opened CanonicalForm
  import opened Conversion
  import opened Cloud
  import opened Certificates
  import opened Update
  import opened Convergence
  import opened Manager
  import Shape

  // ----- certificates -----

  // Provisioning makes the same calls for every frontend that needs a certificate.
  function ProvisionTimes(e: Env, w: World, name: string, hostname: string, n: nat): (World, bool)
    decreases n
  {
    if n == 0 then (w, true)
    else
      var (w1, r) := GetOrCreateBundle(e, w, name, hostname);
      if r.Err? then (w1, false) else ProvisionTimes(e, w1, name, hostname, n - 1)
  }

  lemma {:induction false} ProvisionByCount(e: Env, w: World, name: string, hostname: string, fs: seq<Frontend>)
    ensures var (w', r) := Provision(e, w, name, hostname, fs);
            (w', r.Ok?) == ProvisionTimes(e, w, name, hostname, |Filter(NeedsCertificate, fs)|)
    decreases |fs|
  {
    if fs != [] {
      var w1 := if NeedsCertificate(fs[0]) then GetOrCreateBundle(e, w, name, hostname).0 else w;
      ProvisionByCount(e, w1, name, hostname, fs[1..]);
    }
  }

  lemma {:induction false} CountByShape(fs: seq<Frontend>)
    ensures |Filter(NeedsCertificate, fs)| == |Filter(ShapeNeedsCertificate, Map(Shape.OfFrontend, fs))|
  {
    if fs != [] {
      NeedsByShape(fs[0]);
      CountByShape(fs[1..]);
      assert Map(Shape.OfFrontend, fs)[1..] == Map(Shape.OfFrontend, fs[1..]);
    }
  }

  ghost predicate FrontendsAlike(fs: seq<Frontend>, gs: seq<Frontend>) {
    Permutation(Map(Shape.OfFrontend, fs), Map(Shape.OfFrontend, gs))
  }

  lemma {:induction false} SomeNeedsByShape(fs: seq<Frontend>, gs: seq<Frontend>)
    requires FrontendsAlike(fs, gs)
    ensures |Filter(NeedsCertificate, fs)| == |Filter(NeedsCertificate, gs)|
    ensures (exists f :: f in fs && NeedsCertificate(f)) ==> exists g :: g in gs && NeedsCertificate(g)
  {
    CountByShape(fs);
    CountByShape(gs);
    FilterPermutation(ShapeNeedsCertificate, Map(Shape.OfFrontend, fs), Map(Shape.OfFrontend, gs));
    PermutationLength(Filter(ShapeNeedsCertificate, Map(Shape.OfFrontend, fs)),
                      Filter(ShapeNeedsCertificate, Map(Shape.OfFrontend, gs)));
    if f :| f in fs && NeedsCertificate(f) {
      var g := Preimage(Shape.OfFrontend, gs, fs, f);
      NeedsByShape(f);
      NeedsByShape(g);
    }
  }

  lemma {:induction false} ProvisionReordered(e: Env, w: World, name: string, hostname: string, fs: seq<Frontend>, gs: seq<Frontend>)
    requires FrontendsAlike(fs, gs)
    ensures var (w1, r) := Provision(e, w, name, hostname, fs);
            var (w2, q) := Provision(e, w, name, hostname, gs);
            && w1 == w2 && (r.Ok? <==> q.Ok?)
            && (r.Ok? ==> FrontendsAlike(r.value, q.value))
  {
    SomeNeedsByShape(fs, gs);
    SomeNeedsByShape(gs, fs);
    ProvisionByCount(e, w, name, hostname, fs);
    ProvisionByCount(e, w, name, hostname, gs);
    ProvisionSharesOneBundle(e, w, name, hostname, fs);
    ProvisionSharesOneBundle(e, w, name, hostname, gs);
    var (w1, r) := Provision(e, w, name, hostname, fs);
    if r.Ok? && exists f :: f in fs && NeedsCertificate(f) {
      var b := FindBundle(w1.bundles, name).value;
      CertifiedByShape(b, fs);
      CertifiedByShape(b, gs);
      MapPermutation(CertifiedShape(b), Map(Shape.OfFrontend, fs), Map(Shape.OfFrontend, gs));
    }
  }

  // ----- the desired request -----

  lemma SameOutcomeTransitive(x: Result<Request, BuildError>, y: Result<Request, BuildError>, z: Result<Request, BuildError>)
    requires SameOutcome(x, y) && SameOutcome(y, z)
    ensures SameOutcome(x, z)
  {
  }

  lemma DesiredReordered(c: Settings, s: Service, s': Service, m: seq<Node>, n: seq<Node>, plans: map<string, Plan>,
                         clusterName: string, privateNetwork: string, zone: string)
    requires s' == s.(ports := s'.ports) && Permutation(s.ports, s'.ports) && DistinctKeys(PortName, s.ports)
    requires Permutation(m, n)
    ensures SameOutcome(Desired(c, s, m, plans, clusterName, privateNetwork, zone),
                        Desired(c, s', n, plans, clusterName, privateNetwork, zone))
  {
    DesiredReorderedNodes(c, s, m, n, plans, clusterName, privateNetwork, zone);
    DesiredReorderedPorts(c, s, s', n, plans, clusterName, privateNetwork, zone);
    SameOutcomeTransitive(Desired(c, s, m, plans, clusterName, privateNetwork, zone),
                          Desired(c, s, n, plans, clusterName, privateNetwork, zone),
                          Desired(c, s', n, plans, clusterName, privateNetwork, zone));
  }

  ghost predicate RequestsAlike(a: Request, b: Request) {
    SameScalars(a, b) && Shape.OfRequest(a) == Shape.OfRequest(b)
  }

  // Requests that are built alike stay alike when certificates are provided.
  lemma CertificatesAlike(e: Env, w: World, lb: LoadBalancer, s: Service, s': Service,
                          m: seq<Node>, n: seq<Node>, clusterName: string)
    requires PrivateNetworkOf(lb).Some? ==> SameOutcome(Built(e, lb, s, m, clusterName), Built(e, lb, s', n, clusterName))
    ensures var (w1, d) := DesiredWithCertificates(e, w, lb, s, m, clusterName);
            var (w2, d') := DesiredWithCertificates(e, w, lb, s', n, clusterName);
            w1 == w2 && (d.Some? <==> d'.Some?) && (d.Some? ==> RequestsAlike(d.value, d'.value))
  {
    if PrivateNetworkOf(lb).Some? && Built(e, lb, s, m, clusterName).Ok? {
      ProvisionReordered(e, Ask(e, w).0, CertBundleName(LoadBalancerGeneratedName(lb)), lb.dnsName,
                         Built(e, lb, s, m, clusterName).value.frontends, Built(e, lb, s', n, clusterName).value.frontends);
    }
  }

  lemma CertifiedStaysUnambiguous(e: Env, w: World, lb: LoadBalancer, s: Service, nodes: seq<Node>, clusterName: string)
    requires WellFormedInputs(s, nodes)
    requires DesiredWithCertificates(e, w, lb, s, nodes, clusterName).1.Some?
    ensures Shape.Unambiguous(DesiredWithCertificates(e, w, lb, s, nodes, clusterName).1.value)
  {
    var network := PrivateNetworkOf(lb).value.uuid;
    DesiredUnambiguous(e.settings, s, nodes, e.plans, clusterName, network, lb.zone);
    var d := Desired(e.settings, s, nodes, e.plans, clusterName, network, lb.zone).value;
    ProvisionedUnambiguous(e, Ask(e, w).0, CertBundleName(LoadBalancerGeneratedName(lb)), lb.dnsName, d);
  }

  // ----- the comparison and the PUT -----

  // Two comparisons of one live configuration with requests that describe the same: one report, and
  // one body unless the comparison stopped before sorting.
  lemma ComparisonReordered(live: Request, d: Request, d': Request, l1: Request, b1: Request, m1: Option<Mismatch>,
                            l2: Request, b2: Request, m2: Option<Mismatch>)
    requires Shape.Unambiguous(live) && Shape.Unambiguous(d) && RequestsAlike(d, d')
    requires Compared(live, d, l1, b1, m1) && Compared(live, d', l2, b2, m2)
    ensures m1 == m2 && RequestsAlike(b1, b2)
    ensures EarlyMismatch(live, d).None? ==> b1 == b2
  {
    EarlyMismatchReordered(live, d, d');
    if EarlyMismatch(live, d).None? {
      LateComparisonReordered(live, d, d', l1, b1, m1, l2, b2, m2);
    }
  }

  lemma EarlyMismatchReordered(live: Request, d: Request, d': Request)
    requires RequestsAlike(d, d')
    ensures EarlyMismatch(live, d) == EarlyMismatch(live, d')
  {
    Shape.SameShapeSameLengths(d, d');
    EarlyMismatchByLengths(live, d, d');
  }

  lemma EarlyMismatchByLengths(live: Request, d: Request, d': Request)
    requires SameScalars(d, d') && |d.networks| == |d'.networks| && |d.resolvers| == |d'.resolvers|
    requires |d.labels| == |d'.labels| && |d.frontends| == |d'.frontends| && |d.backends| == |d'.backends|
    ensures EarlyMismatch(live, d) == EarlyMismatch(live, d')
  {
  }

  lemma LateComparisonReordered(live: Request, d: Request, d': Request, l1: Request, b1: Request, m1: Option<Mismatch>,
                                l2: Request, b2: Request, m2: Option<Mismatch>)
    requires Shape.Unambiguous(live) && Shape.Unambiguous(d) && RequestsAlike(d, d')
    requires EarlyMismatch(live, d).None? && EarlyMismatch(live, d').None?
    requires Compared(live, d, l1, b1, m1) && Compared(live, d', l2, b2, m2)
    ensures m1 == m2 && b1 == b2 && RequestsAlike(b1, b2)
  {
    assert l1 == l2 by {
      CanonicalUnique(live, live, l1, l2);
    }
    assert b1 == b2 by {
      CanonicalUnique(d, d', b1, b2);
    }
  }

  // Requests that describe the same, without ambiguity, have one sorted form.
  lemma CanonicalUnique(a: Request, b: Request, a': Request, b': Request)
    requires Canonical(a, a') && Canonical(b, b') && RequestsAlike(a, b)
    requires Shape.Unambiguous(a)
    ensures a' == b'
  {
    CanonicalKeepsShape(a, a');
    CanonicalKeepsShape(b, b');
    CanonicalSorted(a, a');
    CanonicalSorted(b, b');
    SortedRequestDetermined(a', b');
  }

  lemma ReconciledReordered(e: Env, w: World, lb: LoadBalancer, d: Request, d': Request,
                            w1: World, res1: UpdateResult, w2: World, res2: UpdateResult)
    requires RequestsAlike(d, d') && Shape.Unambiguous(d)
    requires Converted(lb).Some? ==> Shape.Unambiguous(Converted(lb).value)
    requires Reconciled(e, w, lb, d, w1, res1) && Reconciled(e, w, lb, d', w2, res2)
    ensures res1 == res2 && SameButOrder(w1, w2, lb.uuid)
    ensures !StopsEarly(lb, d) ==> w1 == w2
  {
    if Converted(lb).Some? {
      var live := Converted(lb).value;
      var l1, b1, m1 := ComparisonOf(e, w, lb, d, w1, res1);
      var l2, b2, m2 := ComparisonOf(e, w, lb, d', w2, res2);
      ComparedReordered(e, w, lb, live, d, d', l1, b1, m1, w1, res1, l2, b2, m2, w2, res2);
    }
  }

  lemma ComparedReordered(e: Env, w: World, lb: LoadBalancer, live: Request, d: Request, d': Request,
                          l1: Request, b1: Request, m1: Option<Mismatch>, w1: World, res1: UpdateResult,
                          l2: Request, b2: Request, m2: Option<Mismatch>, w2: World, res2: UpdateResult)
    requires RequestsAlike(d, d') && Shape.Unambiguous(live) && Shape.Unambiguous(d)
    requires Compared(live, d, l1, b1, m1) && PutIfNeeded(e, w, lb, b1, m1, w1, res1)
    requires Compared(live, d', l2, b2, m2) && PutIfNeeded(e, w, lb, b2, m2, w2, res2)
    ensures res1 == res2 && SameButOrder(w1, w2, lb.uuid)
    ensures EarlyMismatch(live, d).None? ==> w1 == w2
  {
    ComparisonReordered(live, d, d', l1, b1, m1, l2, b2, m2);
    PutReordered(e, w, lb, b1, b2, m1, w1, res1, w2, res2);
  }

  // The two worlds agree, except that the lists of one load balancer may be in another order.
  ghost predicate SameButOrder(w1: World, w2: World, id: Uuid) {
    || w1 == w2
    || (exists lb, b1, b2 :: RequestsAlike(b1, b2) && w2 == w1.(lbs := w2.lbs) && id in w1.lbs
                             && w1.lbs[id] == Replaced(lb, b1) && w2.lbs == w1.lbs[id := Replaced(lb, b2)])
  }

  lemma PutReordered(e: Env, w: World, lb: LoadBalancer, b1: Request, b2: Request, m: Option<Mismatch>,
                     w1: World, res1: UpdateResult, w2: World, res2: UpdateResult)
    requires RequestsAlike(b1, b2)
    requires PutIfNeeded(e, w, lb, b1, m, w1, res1) && PutIfNeeded(e, w, lb, b2, m, w2, res2)
    ensures res1 == res2 && SameButOrder(w1, w2, lb.uuid) && (b1 == b2 ==> w1 == w2)
  {
  }

  // Two updates of one load balancer whose requests are built alike end the same way, with a PUT in both
  // or in neither, and leave the same configuration up to order; and exactly the same one if the
  // comparison got to the sorted lists.
  lemma UpdateAlike(e: Env, w: World, lb: LoadBalancer, s: Service, s': Service, m: seq<Node>, n: seq<Node>,
                    clusterName: string, w1: World, res1: UpdateResult, w2: World, res2: UpdateResult)
    requires PrivateNetworkOf(lb).Some? ==> SameOutcome(Built(e, lb, s, m, clusterName), Built(e, lb, s', n, clusterName))
    requires Converted(lb).Some? ==> Shape.Unambiguous(Converted(lb).value)
    requires var d := DesiredWithCertificates(e, w, lb, s, m, clusterName).1;
             d.Some? ==> Shape.Unambiguous(d.value)
    requires UpdateRun(e, w, lb, s, m, clusterName, w1, res1) && UpdateRun(e, w, lb, s', n, clusterName, w2, res2)
    ensures res1 == res2 && SameButOrder(w1, w2, lb.uuid)
    ensures var d := DesiredWithCertificates(e, w, lb, s, m, clusterName).1;
            d.Some? && !StopsEarly(lb, d.value) ==> w1 == w2
  {
    CertificatesAlike(e, w, lb, s, s', m, n, clusterName);
    var (wd, d) := DesiredWithCertificates(e, w, lb, s, m, clusterName);
    var d' := DesiredWithCertificates(e, w, lb, s', n, clusterName).1;
    if d.Some? {
      ReconciledReordered(e, wd, lb, d.value, d'.value, w1, res1, w2, res2);
    }
  }

  // In particular when nodes and ports are listed in different orders.
  lemma UpdateReordered(e: Env, w: World, lb: LoadBalancer, s: Service, s': Service, m: seq<Node>, n: seq<Node>,
                        clusterName: string, w1: World, res1: UpdateResult, w2: World, res2: UpdateResult)
    requires s' == s.(ports := s'.ports) && Permutation(s.ports, s'.ports) && Permutation(m, n)
    requires WellFormedInputs(s, m)
    requires Converted(lb).Some? ==> Shape.Unambiguous(Converted(lb).value)
    requires UpdateRun(e, w, lb, s, m, clusterName, w1, res1) && UpdateRun(e, w, lb, s', n, clusterName, w2, res2)
    ensures res1 == res2 && SameButOrder(w1, w2, lb.uuid)
    ensures var d := DesiredWithCertificates(e, w, lb, s, m, clusterName).1;
            d.Some? && !StopsEarly(lb, d.value) ==> w1 == w2
  {
    if PrivateNetworkOf(lb).Some? {
      DesiredReordered(e.settings, s, s', m, n, e.plans, clusterName, PrivateNetworkOf(lb).value.uuid, lb.zone);
    }
    if DesiredWithCertificates(e, w, lb, s, m, clusterName).1.Some? {
      CertifiedStaysUnambiguous(e, w, lb, s, m, clusterName);
    }
    UpdateAlike(e, w, lb, s, s', m, n, clusterName, w1, res1, w2, res2);
  }

  // ----- selection and limit -----

  lemma EnsuredNodesReordered(e: Env, s: Service, s': Service, m: seq<Node>, n: seq<Node>)
    requires s' == s.(ports := s'.ports) && Permutation(m, n)
    requires DistinctKeys(NodeName, m)
    ensures var x, y := EnsuredNodes(e, s, m), EnsuredNodes(e, s', n);
            && (x.Some? <==> y.Some?)
            && (x.Some? ==> Permutation(x.value, y.value) && DistinctKeys(NodeName, x.value) && forall a :: a in x.value ==> a in m)
  {
    var p := Matches(e.nodeSelector);
    FilterPermutation(p, m, n);
    FilterDistinct(p, NodeName, m);
    PermutationLength(Filter(p, m), Filter(p, n));
    if Filter(p, m) != [] && !s.selector.BadSelector? {
      var q := Matches(Some(s.selector.matches));
      FilterPermutation(q, Filter(p, m), Filter(p, n));
      FilterDistinct(q, NodeName, Filter(p, m));
      var x, y := Filter(q, Filter(p, m)), Filter(q, Filter(p, n));
      PermutationLength(x, y);
      if e.settings.maxBackendMembers >= 0 {
        LimitedPermutation(e.settings.maxBackendMembers, x, y);
        LimitedKeepsNames(e.settings.maxBackendMembers, x);
      }
    }
  }

  lemma LimitedKeepsNames(max: nat, nodes: seq<Node>)
    requires DistinctKeys(NodeName, nodes)
    ensures DistinctKeys(NodeName, Limited(max, nodes)) && forall n :: n in Limited(max, nodes) ==> n in nodes
  {
    var s := StableSort(CompareNodes, nodes);
    DistinctKeysPermutation(NodeName, nodes, s);
    forall n | n in s ensures n in nodes {
      assert n in multiset(nodes);
    }
  }

  // ----- a whole ensure -----

  // Two ensures of a running load balancer, found by its identifier or by its labels: their updates end with
  // one verdict, so that there is a PUT in both or in neither.
  ghost predicate SameVerdict(e: Env, w: World, lb: LoadBalancer, k: KubeService, k': KubeService, x: seq<Node>, y: seq<Node>,
                              clusterName: string, w1: World, res1: EnsureResult, w2: World, res2: EnsureResult)
  {
    exists v1, v2, u ::
      && UpdateRun(e, w, lb, k.spec, x, clusterName, v1, u) && AfterUpdate(e, v1, k, clusterName, u, w1, res1)
      && UpdateRun(e, w, lb, k'.spec, y, clusterName, v2, u) && AfterUpdate(e, v2, k', clusterName, u, w2, res2)
  }

  lemma EnsureReordered(e: Env, w: World, lb: LoadBalancer, k: KubeService, k': KubeService, m: seq<Node>, n: seq<Node>,
                        given: string, w1: World, k1: KubeService, res1: EnsureResult,
                        w2: World, k2: KubeService, res2: EnsureResult)
    requires k' == k.(spec := k'.spec) && k'.spec == k.spec.(ports := k'.spec.ports)
    requires Permutation(k.spec.ports, k'.spec.ports) && Permutation(m, n) && WellFormedService(k.spec) && DistinctKeys(NodeName, m)
    requires EnsuredNodes(e, k.spec, m).Some? ==> AddressesAgree(EnsuredNodes(e, k.spec, m).value)
    requires Lookup(e, w, k, ClusterName(e.settings, given)).1 == Ok(lb) && lb.running
    requires Converted(lb).Some? ==> Shape.Unambiguous(Converted(lb).value)
    requires EnsureRun(e, w, k, m, given, w1, k1, res1) && EnsureRun(e, w, k', n, given, w2, k2, res2)
    ensures res1 == res2 && k1 == k && k2 == k' && SameButOrder(w1, w2, lb.uuid)
    ensures var clusterName := ClusterName(e.settings, given);
            var x, y := EnsuredNodes(e, k.spec, m), EnsuredNodes(e, k'.spec, n);
            && (x.Some? <==> y.Some?)
            && (x.Some? ==> SameVerdict(e, Lookup(e, w, k, clusterName).0, lb, k, k', x.value, y.value, clusterName, w1, res1, w2, res2))
  {
    var clusterName := ClusterName(e.settings, given);
    var wl := Lookup(e, w, k, clusterName).0;
    assert Lookup(e, w, k', clusterName) == Lookup(e, w, k, clusterName);
    EnsuredNodesReordered(e, k.spec, k'.spec, m, n);
    if EnsuredNodes(e, k.spec, m).Some? {
      var x, y := EnsuredNodes(e, k.spec, m).value, EnsuredNodes(e, k'.spec, n).value;
      ExistingReordered(e, wl, lb, k, k', x, y, clusterName, w1, res1, w2, res2);
    }
  }

  lemma ExistingReordered(e: Env, w: World, lb: LoadBalancer, k: KubeService, k': KubeService,
                          x: seq<Node>, y: seq<Node>, clusterName: string,
                          w1: World, res1: EnsureResult, w2: World, res2: EnsureResult)
    requires k' == k.(spec := k'.spec) && k'.spec == k.spec.(ports := k'.spec.ports)
    requires Permutation(k.spec.ports, k'.spec.ports) && Permutation(x, y) && WellFormedInputs(k.spec, x) && lb.running
    requires Converted(lb).Some? ==> Shape.Unambiguous(Converted(lb).value)
    requires EnsureExisting(e, w, lb, k, x, clusterName, w1, res1) && EnsureExisting(e, w, lb, k', y, clusterName, w2, res2)
    ensures res1 == res2 && SameButOrder(w1, w2, lb.uuid)
    ensures SameVerdict(e, w, lb, k, k', x, y, clusterName, w1, res1, w2, res2)
  {
    var v1, u1 :| UpdateRun(e, w, lb, k.spec, x, clusterName, v1, u1) && AfterUpdate(e, v1, k, clusterName, u1, w1, res1);
    var v2, u2 :| UpdateRun(e, w, lb, k'.spec, y, clusterName, v2, u2) && AfterUpdate(e, v2, k', clusterName, u2, w2, res2);
    UpdateReordered(e, w, lb, k.spec, k'.spec, x, y, clusterName, v1, u1, v2, u2);
    RefetchReordered(e, v1, v2, lb.uuid, k, k', clusterName, u1, w1, res1, w2, res2);
  }

  lemma OrderAfterCall(v1: World, v2: World, id: Uuid)
    requires SameButOrder(v1, v2, id)
    ensures SameButOrder(Called(v1), Called(v2), id) && v1.calls == v2.calls && v1.lbs.Keys == v2.lbs.Keys
  {
  }

  lemma LabelsReordered(lb: LoadBalancer, b1: Request, b2: Request, l: Label)
    requires RequestsAlike(b1, b2)
    ensures l in Replaced(lb, b1).labels <==> l in Replaced(lb, b2).labels
  {
    Shape.SameGroupsPermutation(LabelKey, b1.labels, b2.labels);
    PermutationLength(b1.labels, b2.labels);
    assert l in b1.labels <==> l in multiset(b1.labels);
    assert l in b2.labels <==> l in multiset(b2.labels);
  }

  // Which load balancers match the labels does not depend on the order either.
  lemma MatchesReordered(v1: World, v2: World, id: Uuid, other: Uuid, clusterId: string, clusterName: string, name: string)
    requires SameButOrder(v1, v2, id) && other in v1.lbs && other in v2.lbs
    ensures MatchesLabels(v1.lbs[other], clusterId, clusterName, name) <==> MatchesLabels(v2.lbs[other], clusterId, clusterName, name)
  {
    if v1 != v2 && other == id {
      var lb, b1, b2 :| RequestsAlike(b1, b2) && v1.lbs[id] == Replaced(lb, b1) && v2.lbs == v1.lbs[id := Replaced(lb, b2)];
      LabelsReordered(lb, b1, b2, Label(CLUSTER_ID_LABEL, clusterId));
      LabelsReordered(lb, b1, b2, Label(CLUSTER_NAME_LABEL, clusterName));
      LabelsReordered(lb, b1, b2, Label(GENERATED_NAME_LABEL, name));
    }
  }

  lemma MatchingReordered(v1: World, v2: World, id: Uuid, clusterId: string, clusterName: string, name: string)
    requires SameButOrder(v1, v2, id)
    ensures Matching(v1, clusterId, clusterName, name) == Matching(v2, clusterId, clusterName, name)
  {
    OrderAfterCall(v1, v2, id);
    forall x ensures x in Matching(v1, clusterId, clusterName, name) <==> x in Matching(v2, clusterId, clusterName, name) {
      assert x in v1.lbs.Keys <==> x in v2.lbs.Keys;
      if x in v1.lbs {
        MatchesReordered(v1, v2, id, x, clusterId, clusterName, name);
      }
    }
  }

  lemma LookupReordered(e: Env, v1: World, v2: World, id: Uuid, k: KubeService, k': KubeService, clusterName: string)
    requires SameButOrder(v1, v2, id) && k'.id == k.id && k'.lbName == k.lbName
    ensures Lookup(e, v1, k, clusterName).1.Ok? <==> Lookup(e, v2, k', clusterName).1.Ok?
  {
    OrderAfterCall(v1, v2, id);
    assert k.id.Id? ==> (k.id.uuid in v1.lbs.Keys <==> k.id.uuid in v2.lbs.Keys);
    MatchingReordered(v1, v2, id, e.settings.clusterId, clusterName, if k.lbName.Some? then k.lbName.value else "");
  }

  lemma RefetchReordered(e: Env, v1: World, v2: World, id: Uuid, k: KubeService, k': KubeService, clusterName: string,
                         u: UpdateResult, w1: World, res1: EnsureResult, w2: World, res2: EnsureResult)
    requires SameButOrder(v1, v2, id) && k'.id == k.id && k'.lbName == k.lbName
    requires AfterUpdate(e, v1, k, clusterName, u, w1, res1) && AfterUpdate(e, v2, k', clusterName, u, w2, res2)
    ensures res1 == res2 && SameButOrder(w1, w2, id)
  {
    OrderAfterCall(v1, v2, id);
    LookupReordered(e, v1, v2, id, k, k', clusterName);
  }
}
