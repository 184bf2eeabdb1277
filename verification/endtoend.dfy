// Convergence and node limiting, as the entry points see them: ensure limits the nodes, an update of the hosts
// does not.
module EndToEnd {
  import opened Wrappers
  import opened Nodes
  import opened Services
  import opened Compare
  import opened Conversion
  import opened Cloud
  import opened Update
  import opened Convergence
  import opened Manager
  import opened Limits
  import Shape

  // An ensure that finds this load balancer, running, and whose update ends like this.
  ghost predicate EnsureUpdated(e: Env, w: World, lb: LoadBalancer, k: KubeService, nodes: seq<Node>, given: string,
                                w': World, res: EnsureResult, u: UpdateResult)
  {
    var clusterName := ClusterName(e.settings, given);
    var ns := EnsuredNodes(e, k.spec, nodes);
    && Lookup(e, w, k, clusterName).1 == Ok(lb) && lb.running && ns.Some?
    && exists w1 :: UpdateRun(e, Called(w), lb, k.spec, ns.value, clusterName, w1, u)
                    && AfterUpdate(e, w1, k, clusterName, u, w', res)
  }

  // An update of the hosts that finds this load balancer and ends like this.
  ghost predicate HostsUpdated(e: Env, w: World, lb: LoadBalancer, k: KubeService, nodes: seq<Node>, given: string,
                               w': World, ok: bool, u: UpdateResult)
  {
    var ns := SelectedNodes(e, k.spec, nodes);
    && Lookup(e, w, k, ClusterName(e.settings, given)).1 == Ok(lb)
    && ns.Some? && ok == (u.NoChange? || u.Changed?)
    && UpdateRun(e, Called(w), lb, k.spec, ns.value, ClusterName(e.settings, given), w', u)
  }

  // Every run that gets that far is one of these.
  lemma EnsureUpdates(e: Env, w: World, lb: LoadBalancer, k: KubeService, nodes: seq<Node>, given: string,
                      w': World, k': KubeService, res: EnsureResult) returns (u: UpdateResult)
    requires EnsureRun(e, w, k, nodes, given, w', k', res) && EnsuredNodes(e, k.spec, nodes).Some?
    requires Lookup(e, w, k, ClusterName(e.settings, given)).1 == Ok(lb) && lb.running
    ensures EnsureUpdated(e, w, lb, k, nodes, given, w', res, u) && k' == k
  {
    var clusterName := ClusterName(e.settings, given);
    var w1, v :| UpdateRun(e, Called(w), lb, k.spec, EnsuredNodes(e, k.spec, nodes).value, clusterName, w1, v)
                 && AfterUpdate(e, w1, k, clusterName, v, w', res);
    u := v;
  }

  // The update inside of an ensure; fetching the load balancer again afterwards changes nothing.
  lemma UpdateOf(e: Env, w: World, lb: LoadBalancer, k: KubeService, nodes: seq<Node>, given: string,
                 w': World, res: EnsureResult, u: UpdateResult) returns (w1: World)
    requires EnsureUpdated(e, w, lb, k, nodes, given, w', res, u)
    ensures UpdateRun(e, Called(w), lb, k.spec, EnsuredNodes(e, k.spec, nodes).value, ClusterName(e.settings, given), w1, u)
    ensures w'.lbs == w1.lbs && w'.bundles == w1.bundles && (u == NoChange ==> w' == w1 && res == Ready)
  {
    var clusterName := ClusterName(e.settings, given);
    w1 :| UpdateRun(e, Called(w), lb, k.spec, EnsuredNodes(e, k.spec, nodes).value, clusterName, w1, u)
          && AfterUpdate(e, w1, k, clusterName, u, w', res);
  }

  lemma HostsUpdate(e: Env, w: World, lb: LoadBalancer, k: KubeService, nodes: seq<Node>, given: string,
                    w': World, ok: bool) returns (u: UpdateResult)
    requires UpdateHostsRun(e, w, k, nodes, given, w', ok) && SelectedNodes(e, k.spec, nodes).Some?
    requires Lookup(e, w, k, ClusterName(e.settings, given)).1 == Ok(lb)
    ensures HostsUpdated(e, w, lb, k, nodes, given, w', ok, u)
  {
    var v :| UpdateRun(e, Called(w), lb, k.spec, SelectedNodes(e, k.spec, nodes).value, ClusterName(e.settings, given), w', v)
             && ok == (v.NoChange? || v.Changed?);
    u := v;
  }

  // ----- the limit -----

  // Ensure desires fewer members than an update of the hosts.
  ghost predicate Disagree(e: Env, s: Service, nodes: seq<Node>) {
    var ns := SelectedNodes(e, s, nodes);
    && ns.Some? && e.settings.maxBackendMembers >= 0
    && CutsOff(e.settings.maxBackendMembers, ns.value) && TakesNodes(s)
  }

  lemma EnsuredAreLimited(e: Env, s: Service, nodes: seq<Node>)
    requires EnsuredNodes(e, s, nodes).Some? && e.settings.maxBackendMembers >= 0
    ensures SelectedNodes(e, s, nodes).Some?
    ensures EnsuredNodes(e, s, nodes).value == Limited(e.settings.maxBackendMembers, SelectedNodes(e, s, nodes).value)
  {
  }

  // An ensure and an update of the hosts of one load balancer, from the same service and nodes, never both
  // find nothing to do if they disagree.
  lemma EnsureAndHostsFlap(e: Env, w: World, lb: LoadBalancer, k: KubeService, nodes: seq<Node>, given: string,
                           w1: World, res: EnsureResult, u1: UpdateResult,
                           e2: Env, v: World, v1: World, ok: bool, u2: UpdateResult)
    requires e2 == e.(faults := e2.faults) && Disagree(e, k.spec, nodes)
    requires EnsureUpdated(e, w, lb, k, nodes, given, w1, res, u1)
    requires HostsUpdated(e2, v, lb, k, nodes, given, v1, ok, u2)
    ensures !(u1 == NoChange && u2 == NoChange)
  {
    EnsuredAreLimited(e, k.spec, nodes);
    var clusterName, ns := ClusterName(e.settings, given), SelectedNodes(e, k.spec, nodes).value;
    var wu := UpdateOf(e, w, lb, k, nodes, given, w1, res, u1);
    LimitFlaps(e2, Called(v), lb, k.spec, ns, e.settings.maxBackendMembers, clusterName, v1, u2, e, Called(w), wu, u1);
  }

  // Otherwise, in the same state, they end the same way.
  lemma EnsureAndHostsAgree(e: Env, w: World, lb: LoadBalancer, k: KubeService, nodes: seq<Node>, given: string,
                            w1: World, res: EnsureResult, u1: UpdateResult, w2: World, ok: bool, u2: UpdateResult)
    requires !Disagree(e, k.spec, nodes)
    requires EnsureUpdated(e, w, lb, k, nodes, given, w1, res, u1)
    requires HostsUpdated(e, w, lb, k, nodes, given, w2, ok, u2)
    requires Converted(lb).Some? ==> Shape.Unambiguous(Converted(lb).value)
    requires var d := DesiredWithCertificates(e, Called(w), lb, k.spec, SelectedNodes(e, k.spec, nodes).value, ClusterName(e.settings, given)).1;
             d.Some? ==> Shape.Unambiguous(d.value)
    ensures u1 == u2
  {
    var clusterName, ns := ClusterName(e.settings, given), SelectedNodes(e, k.spec, nodes).value;
    var max := if e.settings.maxBackendMembers >= 0 then e.settings.maxBackendMembers else 0;
    var wu := UpdateOf(e, w, lb, k, nodes, given, w1, res, u1);
    LimitFlaps(e, Called(w), lb, k.spec, ns, max, clusterName, w2, u2, e, Called(w), wu, u1);
  }

  // ----- convergence -----

  // When another run after a PUT finds nothing to do.
  ghost predicate Reaches(e: Env, w: World, lb: LoadBalancer, s: Service, nodes: seq<Node>, clusterName: string)
    requires PrivateNetworkOf(lb).Some? && DesiredWithCertificates(e, w, lb, s, nodes, clusterName).1.Some?
  {
    var d := DesiredWithCertificates(e, w, lb, s, nodes, clusterName).1.value;
    PutCanReach(lb, d, StopsEarly(lb, d)) && SameBundle(e, lb, s, nodes, clusterName)
  }

  ghost predicate WellFormedDesired(e: Env, w: World, lb: LoadBalancer, s: Service, nodes: seq<Node>, clusterName: string) {
    var d := DesiredWithCertificates(e, w, lb, s, nodes, clusterName).1;
    d.Some? && PrivateNetworkOf(lb).Some? && Shape.Unambiguous(d.value) && NamedBackendTls(d.value.backends)
  }

  // An ensure that issued a PUT, then another one of the same service and nodes that finds the same load
  // balancer: without failing calls, its update ends in no change exactly when the PUT could carry the
  // difference and did not change the bundle that a frontend needs; then the ensure is done and has changed nothing.
  lemma EnsureConverges(e: Env, w: World, lb: LoadBalancer, k: KubeService, nodes: seq<Node>, given: string,
                        w1: World, res1: EnsureResult, m: Mismatch,
                        e2: Env, v: World, lb2: LoadBalancer, v1: World, res: EnsureResult, u: UpdateResult)
    requires lb.uuid in w.lbs && w.lbs[lb.uuid] == lb && EnsureUpdated(e, w, lb, k, nodes, given, w1, res1, Changed(m))
    requires e2 == e.(faults := e2.faults) && v.lbs == w1.lbs && v.bundles == w1.bundles
    requires lb.uuid in v.lbs && lb2 == v.lbs[lb.uuid] && EnsureUpdated(e2, v, lb2, k, nodes, given, v1, res, u)
    requires WellFormedDesired(e, Called(w), lb, k.spec, EnsuredNodes(e, k.spec, nodes).value, ClusterName(e.settings, given))
    requires forall n :: n > v.calls ==> e2.faults(n).Fine?
    ensures u == NoChange <==> Reaches(e, Called(w), lb, k.spec, EnsuredNodes(e, k.spec, nodes).value, ClusterName(e.settings, given))
    ensures u == NoChange ==> res == Ready && v1.lbs == v.lbs && v1.bundles == v.bundles
  {
    var clusterName, ns := ClusterName(e.settings, given), EnsuredNodes(e, k.spec, nodes).value;
    var wu := UpdateOf(e, w, lb, k, nodes, given, w1, res1, Changed(m));
    var vu := UpdateOf(e2, v, lb2, k, nodes, given, v1, res, u);
    UpdateConverges(e, Called(w), lb.uuid, k.spec, ns, clusterName, wu, m, e2, Called(v), vu, u);
  }

  // The same for two updates of the hosts.
  lemma HostsConverge(e: Env, w: World, lb: LoadBalancer, k: KubeService, nodes: seq<Node>, given: string,
                      w1: World, ok1: bool, m: Mismatch,
                      e2: Env, v: World, lb2: LoadBalancer, v1: World, ok: bool, u: UpdateResult)
    requires lb.uuid in w.lbs && w.lbs[lb.uuid] == lb && HostsUpdated(e, w, lb, k, nodes, given, w1, ok1, Changed(m))
    requires e2 == e.(faults := e2.faults) && v.lbs == w1.lbs && v.bundles == w1.bundles
    requires lb.uuid in v.lbs && lb2 == v.lbs[lb.uuid] && HostsUpdated(e2, v, lb2, k, nodes, given, v1, ok, u)
    requires WellFormedDesired(e, Called(w), lb, k.spec, SelectedNodes(e, k.spec, nodes).value, ClusterName(e.settings, given))
    requires forall n :: n > v.calls ==> e2.faults(n).Fine?
    ensures u == NoChange <==> Reaches(e, Called(w), lb, k.spec, SelectedNodes(e, k.spec, nodes).value, ClusterName(e.settings, given))
    ensures u == NoChange ==> ok && v1.lbs == v.lbs && v1.bundles == v.bundles
  {
    UpdateConverges(e, Called(w), lb.uuid, k.spec, SelectedNodes(e, k.spec, nodes).value, ClusterName(e.settings, given), w1, m,
                    e2, Called(v), v1, u);
  }
}
