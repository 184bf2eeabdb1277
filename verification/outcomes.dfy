// What the callers of the controller are told, and what they can conclude from it.
module Outcomes {
  import opened Wrappers
  import opened Sorting
  import opened Config
  import opened Nodes
  import opened Services
  import opened DesiredState
  import opened DesiredFields
  import opened Compare
  import opened CanonicalForm
  import opened Conversion
  import opened Cloud
  import opened Certificates
  import opened Update
  import opened Convergence
  import opened Creation
  import opened Deletion
  import opened Manager
  import opened Ownership
  import opened EndToEnd
  import Shape

  // ----- the load balancer that a creation returns -----

  // It stores its request, except that frontends that ask for a certificate have the bundle of the load balancer.
  lemma CreatedReads(e: Env, w: World, s: Service, nodes: seq<Node>, clusterName: string, lb: LoadBalancer, i: nat)
    requires Consistent(w) && CreateRun(e, w, s, nodes, clusterName).1 == Made(lb)
    ensures var d := RequestFromService(e, w, s, nodes, clusterName).1;
            && d.Some? && lb.uuid == w.issued && lb.owner == Owner(s.namespace, s.name)
            && Stores(lb, d.value.(frontends := lb.frontends)) && |lb.frontends| == |d.value.frontends|
            && (i < |lb.frontends| ==>
                  && lb.frontends[i] == d.value.frontends[i].(tlsConfigs := lb.frontends[i].tlsConfigs)
                  && if AsksForCertificate(d.value.frontends[i]) then
                       |lb.frontends[i].tlsConfigs| == 1 && lb.frontends[i].tlsConfigs[0].name == BundleNameOf(lb)
                     else lb.frontends[i] == d.value.frontends[i])
  {
    var w2, certified := MadeStoresRequest(e, w, s, nodes, clusterName, lb);
    var d := RequestFromService(e, w, s, nodes, clusterName).1.value;
    ProvisionSharesOneBundle(e, w2, BundleNameOf(lb), lb.dnsName, d.frontends);
    CertifiedFrontends(e, w2, BundleNameOf(lb), lb.dnsName, d.frontends, certified);
    if i < |d.frontends| {
      ProvisionedReads(e, w2, BundleNameOf(lb), lb.dnsName, d.frontends, i);
    }
  }

  // Whatever a creation leaves behind carries the labels of its cluster and its generated name.
  lemma CreatedIsLabelled(e: Env, w: World, s: Service, nodes: seq<Node>, clusterName: string)
    requires Consistent(w) && !CreateRun(e, w, s, nodes, clusterName).1.NothingMade?
    ensures var w' := CreateRun(e, w, s, nodes, clusterName).0;
            && w.issued in w'.lbs
            && w.issued in Matching(w', e.settings.clusterId, clusterName, GeneratedName(e.settings, s, clusterName))
  {
    CreateRunEffects(e, w, s, nodes, clusterName);
    RequestPlaced(e, w, s, nodes, clusterName);
    var labels := ControllerLabels(e.settings, s, clusterName);
    assert labels[0] in labels && labels[1] in labels && labels[2] in labels;
  }

  // What the label filter matches.
  lemma MatchingReads(w: World, clusterId: string, clusterName: string, name: string, id: Uuid)
    ensures id in Matching(w, clusterId, clusterName, name) <==>
            && id in w.lbs && Label("ccm_cluster_id", clusterId) in w.lbs[id].labels
            && Label("ccm_cluster_name", clusterName) in w.lbs[id].labels && Label("ccm_generated_name", name) in w.lbs[id].labels
  {
  }

  // ----- when a creation succeeds -----

  // The create call is answered, the certificates are there, and every frontend and the refresh go through.
  predicate Completes(e: Env, w: World, d: Request, s: Service) {
    && e.faults(w.calls).Fine?
    && var lb := NewLoadBalancer(e, w.issued, d.(frontends := []), OwnerOf(s));
       var made := CreateLoadBalancer(e, w, d.(frontends := []), OwnerOf(s)).0;
       var (w1, certified) := Provision(e, made, BundleNameOf(lb), lb.dnsName, d.frontends);
       certified.Ok? && CompletesFrom(e, w1.calls, |d.frontends|)
  }

  predicate CompletesFrom(e: Env, k: nat, n: nat) {
    FineCalls(e, k, n) == n && e.faults(k + n).Fine?
  }

  lemma AfterProvisionCompletes(e: Env, w: World, lb: LoadBalancer, fs: Result<seq<Frontend>, ApiError>, n: nat)
    requires fs.Ok? ==> lb.uuid in w.lbs && |fs.value| == n
    ensures AfterProvision(e, w, lb, fs).1.Made? <==> fs.Ok? && CompletesFrom(e, w.calls, n)
  {
    if fs.Ok? {
      AddFrontendsByFaults(e, w, lb.uuid, fs.value);
      AddFrontendsEffects(e, w, lb.uuid, fs.value);
    }
  }

  lemma EquipCompletes(e: Env, w: World, lb: LoadBalancer, fs: seq<Frontend>)
    requires lb.uuid in w.lbs
    ensures var (w1, certified) := Provision(e, w, BundleNameOf(lb), lb.dnsName, fs);
            Equip(e, w, lb, fs).1.Made? <==> certified.Ok? && CompletesFrom(e, w1.calls, |fs|)
  {
    var (w1, certified) := Provision(e, w, BundleNameOf(lb), lb.dnsName, fs);
    assert certified.Ok? ==> lb.uuid in w1.lbs && |certified.value| == |fs| by {
      ProvisionSharesOneBundle(e, w, BundleNameOf(lb), lb.dnsName, fs);
      if certified.Ok? {
        CertifiedFrontends(e, w, BundleNameOf(lb), lb.dnsName, fs, certified.value);
      }
    }
    AfterProvisionCompletes(e, w1, lb, certified, |fs|);
  }

  lemma MakeCompletes(e: Env, w: World, d: Request, s: Service)
    ensures Make(e, w, d, s).1.Made? <==> Completes(e, w, d, s)
  {
    var (w1, created) := CreateLoadBalancer(e, w, d.(frontends := []), OwnerOf(s));
    if created.Ok? {
      EquipCompletes(e, w1, created.value, d.frontends);
    }
  }

  lemma CreationCompletes(e: Env, w: World, s: Service, nodes: seq<Node>, clusterName: string)
    ensures var (w1, d) := RequestFromService(e, w, s, nodes, clusterName);
            CreateRun(e, w, s, nodes, clusterName).1.Made? <==> d.Some? && Completes(e, w1, d.value, s)
  {
    var (w1, d) := RequestFromService(e, w, s, nodes, clusterName);
    if d.Some? {
      MakeCompletes(e, w1, d.value, s);
    }
  }

  // ----- how an update ends -----

  // The frontends that an update desires, before their certificates.
  function FrontendsFor(e: Env, lb: LoadBalancer, s: Service, nodes: seq<Node>, clusterName: string): seq<Frontend> {
    if PrivateNetworkOf(lb).Some? && Built(e, lb, s, nodes, clusterName).Ok? then Built(e, lb, s, nodes, clusterName).value.frontends
    else []
  }

  // An update has a request to compare with exactly if the load balancer has a private network, the plans are
  // listed, the service and its annotation allow it, and the certificates are there.
  lemma UpdateRequestMade(e: Env, w: World, lb: LoadBalancer, s: Service, nodes: seq<Node>, clusterName: string)
    ensures DesiredWithCertificates(e, w, lb, s, nodes, clusterName).1.Some? <==>
            && (exists n :: n in lb.networks && n.kind == Private) && e.faults(w.calls).Fine? && Derivable(e.settings, s, e.plans)
            && Provision(e, Called(w), BundleNameOf(lb), lb.dnsName, FrontendsFor(e, lb, s, nodes, clusterName)).1.Ok?
  {
    SomePrivate(lb);
    if PrivateNetworkOf(lb).Some? {
      DesiredOutcome(e.settings, s, nodes, e.plans, clusterName, PrivateNetworkOf(lb).value.uuid, lb.zone);
    }
  }

  lemma SomePrivate(lb: LoadBalancer)
    ensures PrivateNetworkOf(lb).Some? <==> exists n :: n in lb.networks && n.kind == Private
  {
    if n :| n in lb.networks && n.kind == Private {
      FirstPrivateIsSome(lb.networks);
    } else {
      PrivateNetworkReads(lb, 0);
    }
  }

  lemma {:induction false} FirstPrivateIsSome(networks: seq<Network>)
    requires exists n :: n in networks && n.kind == Private
    ensures FirstPrivate(networks, false).Some?
  {
    if networks[0].kind != Private {
      FirstPrivateIsSome(networks[1..]);
    }
  }

  // How the comparison and the PUT end an update: unchanged exactly if the live configuration is as desired, up to
  // order, where names tell the items of one of them apart; else changed exactly if the PUT is answered.
  ghost predicate EndsAs(e: Env, w: World, lb: LoadBalancer, d: Request, w': World, res: UpdateResult) {
    match Converted(lb)
    case None => res == Crashed && w' == w
    case Some(live) =>
      && (res == NoChange ==> w' == w && Shape.SameConfiguration(live, d))
      && (res.Changed? ==> e.faults(w.calls).Fine?) && (res == Failed ==> !e.faults(w.calls).Fine?) && res != Crashed
      && (Shape.Unambiguous(live) || Shape.Unambiguous(d) ==> (res == NoChange <==> Shape.SameConfiguration(live, d)))
  }

  lemma PutOutcome(e: Env, w: World, lb: LoadBalancer, body: Request, m: Option<Mismatch>, w': World, res: UpdateResult)
    requires lb.uuid in w.lbs && PutIfNeeded(e, w, lb, body, m, w', res)
    ensures (res == NoChange <==> m.None?) && (m.None? ==> w' == w) && res != Crashed
    ensures (res.Changed? ==> e.faults(w.calls).Fine?) && (res == Failed ==> !e.faults(w.calls).Fine?)
  {
  }

  lemma Verdict(live: Request, d: Request, live': Request, body: Request, m: Option<Mismatch>)
    requires Compared(live, d, live', body, m)
    ensures m.None? ==> Shape.SameConfiguration(live, d)
    ensures Shape.Unambiguous(live) || Shape.Unambiguous(d) ==> (m.None? <==> Shape.SameConfiguration(live, d))
  {
    ComparisonSound(live, d, live', body, m);
    if Shape.Unambiguous(live) || Shape.Unambiguous(d) {
      ComparisonDecides(live, d, live', body, m);
    }
  }

  lemma ReconciledOutcome(e: Env, w: World, lb: LoadBalancer, d: Request, w': World, res: UpdateResult)
    requires lb.uuid in w.lbs && Reconciled(e, w, lb, d, w', res)
    ensures EndsAs(e, w, lb, d, w', res)
  {
    if Converted(lb).Some? {
      var live', body, m := ComparisonOf(e, w, lb, d, w', res);
      PutOutcome(e, w, lb, body, m, w', res);
      Verdict(Converted(lb).value, d, live', body, m);
    }
  }

  lemma UpdateOutcome(e: Env, w: World, id: Uuid, s: Service, nodes: seq<Node>, clusterName: string, w': World, res: UpdateResult)
    requires id in w.lbs && w.lbs[id].uuid == id && UpdateRun(e, w, w.lbs[id], s, nodes, clusterName, w', res)
    ensures var (wd, d) := DesiredWithCertificates(e, w, w.lbs[id], s, nodes, clusterName);
            if d.None? then res == Failed && w' == wd else EndsAs(e, wd, w.lbs[id], d.value, w', res)
  {
    var lb := w.lbs[id];
    ProvisionOnlyBundles(e, w, lb, s, nodes, clusterName);
    var (wd, d) := DesiredWithCertificates(e, w, lb, s, nodes, clusterName);
    if d.Some? {
      ReconciledOutcome(e, wd, lb, d.value, w', res);
    }
  }

  lemma DesiredCalls(e: Env, w: World, lb: LoadBalancer, s: Service, nodes: seq<Node>, clusterName: string)
    requires Consistent(w)
    ensures DesiredWithCertificates(e, w, lb, s, nodes, clusterName).0.calls >= w.calls
  {
    ProvisionStaysConsistent(e, Called(w), BundleNameOf(lb), lb.dnsName, FrontendsFor(e, lb, s, nodes, clusterName));
  }

  // Without a failing call an update succeeds once there is a request and the load balancer can be converted.
  lemma UpdateSucceeds(e: Env, w: World, id: Uuid, s: Service, nodes: seq<Node>, clusterName: string, w': World, res: UpdateResult)
    requires Consistent(w) && id in w.lbs && UpdateRun(e, w, w.lbs[id], s, nodes, clusterName, w', res)
    requires forall n :: n >= w.calls ==> e.faults(n).Fine?
    requires Converted(w.lbs[id]).Some? && DesiredWithCertificates(e, w, w.lbs[id], s, nodes, clusterName).1.Some?
    ensures res == NoChange || res.Changed?
  {
    DesiredCalls(e, w, w.lbs[id], s, nodes, clusterName);
    UpdateOutcome(e, w, id, s, nodes, clusterName, w', res);
  }

  // The load balancer was as desired, or has been given the desired configuration by a PUT.
  ghost predicate BroughtUp(e: Env, w: World, w': World, id: Uuid, s: Service, nodes: seq<Node>, clusterName: string) {
    && id in w.lbs
    && var d := DesiredWithCertificates(e, w, w.lbs[id], s, nodes, clusterName).1;
       && d.Some?
       && (|| (w'.lbs == w.lbs && Converted(w.lbs[id]).Some? && Shape.SameConfiguration(Converted(w.lbs[id]).value, d.value))
           || exists body :: && SameScalars(d.value, body) && Shape.OfRequest(d.value) == Shape.OfRequest(body)
                             && w'.lbs == w.lbs[id := Replaced(w.lbs[id], body)])
  }

  lemma UpdateBringsUp(e: Env, w: World, id: Uuid, s: Service, nodes: seq<Node>, clusterName: string, w': World, res: UpdateResult)
    requires id in w.lbs && w.lbs[id].uuid == id && UpdateRun(e, w, w.lbs[id], s, nodes, clusterName, w', res)
    requires res == NoChange || res.Changed?
    ensures BroughtUp(e, w, w', id, s, nodes, clusterName)
  {
    var lb := w.lbs[id];
    ProvisionOnlyBundles(e, w, lb, s, nodes, clusterName);
    var (wd, d) := DesiredWithCertificates(e, w, lb, s, nodes, clusterName);
    if res == NoChange {
      UpdateOutcome(e, w, id, s, nodes, clusterName, w', res);
    } else {
      var live', body, m := ComparisonOf(e, wd, lb, d.value, w', res);
      ComparisonOnlyReorders(Converted(lb).value, d.value, live', body, m);
      assert w'.lbs == w.lbs[id := Replaced(w.lbs[id], body)];
    }
  }

  // ----- which load balancer is looked up -----

  // The labels that a load balancer is found by when there is no ID: those of the cluster, whose configured name
  // takes precedence, and the name annotation.
  ghost predicate LabelledFor(e: Env, lb: LoadBalancer, k: KubeService, given: string) {
    && Label("ccm_cluster_id", e.settings.clusterId) in lb.labels
    && Label("ccm_cluster_name", if e.settings.clusterName == "" then given else e.settings.clusterName) in lb.labels
    && Label("ccm_generated_name", match k.lbName case Some(name) => name case None => "") in lb.labels
  }

  lemma LookupReads(e: Env, w: World, k: KubeService, given: string)
    ensures var (w1, r) := Lookup(e, w, k, ClusterName(e.settings, given));
            && w1 == Called(w)
            && (r == Err(Missing) <==> e.faults(w.calls).Fine?
                                       && if k.id.Id? then k.id.uuid !in w.lbs
                                          else forall id :: id in w.lbs ==> !LabelledFor(e, w.lbs[id], k, given))
            && (r.Ok? ==> e.faults(w.calls).Fine?)
            && (r.Ok? && k.id.Id? ==> k.id.uuid in w.lbs && r.value == w.lbs[k.id.uuid])
            && (r.Ok? && !k.id.Id? ==>
                  exists id :: && id in w.lbs && r.value == w.lbs[id] && LabelledFor(e, r.value, k, given)
                               && forall other :: other in w.lbs && LabelledFor(e, w.lbs[other], k, given) ==> other == id)
  {
    LookupFinds(e, w, k, ClusterName(e.settings, given));
    forall id ensures id in Matching(w, e.settings.clusterId, ClusterName(e.settings, given), NameAnnotation(k)) <==>
                      id in w.lbs && LabelledFor(e, w.lbs[id], k, given) {
      MatchingReads(w, e.settings.clusterId, ClusterName(e.settings, given), NameAnnotation(k), id);
    }
  }

  // ----- what an ensure tells -----

  // An ensure that has to create does not fail exactly if the creation completes and, for a service without an
  // ID, the patch of its annotations is answered; then it is done if the load balancer runs, and else to be retried.
  lemma NewOutcome(e: Env, w: World, k: KubeService, nodes: seq<Node>, clusterName: string)
    ensures var (w', k', res) := EnsureNew(e, w, k, nodes, clusterName);
            var (w1, outcome) := CreateRun(e, w, k.spec, nodes, clusterName);
            && (res != EnsureFailed <==> outcome.Made? && (k.id.NoId? ==> e.faults(w1.calls).Fine?))
            && (res == Ready <==> res != EnsureFailed && outcome.lb.running)
            && (res == Retry <==> res != EnsureFailed && !outcome.lb.running)
            && (res != EnsureFailed && k.id.NoId? ==> k'.id == Id(outcome.lb.uuid) && k'.lbName == Some(outcome.lb.name))
  {
  }

  // Whoever is not told of a failure has a service that knows its load balancer.
  lemma NotFailedIsTracked(e: Env, w: World, k: KubeService, nodes: seq<Node>, given: string,
                           w': World, k': KubeService, res: EnsureResult)
    requires Tracked(w, k) && EnsureRun(e, w, k, nodes, given, w', k', res) && res != EnsureFailed
    ensures Tracked(w', k')
  {
    var clusterName := ClusterName(e.settings, given);
    EnsureStaysTracked(e, w, k, nodes, given, w', k', res);
    LookupWhenTracked(e, w, k, clusterName);
    var (w1, found) := Lookup(e, w, k, clusterName);
    var ns := EnsuredNodes(e, k.spec, nodes);
    if found == Err(Missing) && ns.Some? {
      NewOutcome(e, w1, k, ns.value, clusterName);
      LosesByOutcome(e, w1, k.spec, ns.value, clusterName);
    }
  }

  // After its update an ensure is done if there was nothing to do, to be retried if the load balancer cannot be
  // fetched again after a PUT, and failed if the update is.
  ghost predicate Tells(e: Env, u: UpdateResult, w': World, res: EnsureResult) {
    match u
    case NoChange => res == Ready
    case Changed(_) => w'.calls > 0 && res == if e.faults(w'.calls - 1).Fine? then Ready else Retry
    case _ => res == EnsureFailed
  }

  lemma RefetchTells(e: Env, w: World, k: KubeService, clusterName: string, u: UpdateResult, w': World, res: EnsureResult)
    requires k.id.Id? && k.id.uuid in w.lbs && AfterUpdate(e, w, k, clusterName, u, w', res)
    ensures Tells(e, u, w', res)
  {
  }

  // How an ensure of a load balancer that it finds ends: it is to be retried while the load balancer does not run,
  // and otherwise as its update says.
  lemma FoundOutcome(e: Env, w: World, k: KubeService, nodes: seq<Node>, given: string, w': World, k': KubeService, res: EnsureResult)
    returns (u: Option<UpdateResult>)
    requires Annotated(w, k) && EnsureRun(e, w, k, nodes, given, w', k', res)
    requires k.id.Id? && k.id.uuid in w.lbs && e.faults(w.calls).Fine? && EnsuredNodes(e, k.spec, nodes).Some?
    ensures u.Some? <==> w.lbs[k.id.uuid].running
    ensures u.None? ==> res == Retry && w' == Called(w)
    ensures u.Some? ==>
              && EnsureUpdated(e, w, w.lbs[k.id.uuid], k, nodes, given, w', res, u.value)
              && Tells(e, u.value, w', res)
              && (res != EnsureFailed ==> BroughtUp(e, Called(w), w', k.id.uuid, k.spec, EnsuredNodes(e, k.spec, nodes).value,
                                                    ClusterName(e.settings, given)))
  {
    LookupWhenAnnotated(e, w, k, ClusterName(e.settings, given));
    var lb := w.lbs[k.id.uuid];
    if lb.running {
      var x := EnsureUpdates(e, w, lb, k, nodes, given, w', k', res);
      u := Some(x);
      TellsAfter(e, w, k, nodes, given, w', res, x);
    } else {
      u := None;
    }
  }

  lemma TellsAfter(e: Env, w: World, k: KubeService, nodes: seq<Node>, given: string, w': World, res: EnsureResult, u: UpdateResult)
    requires Consistent(w) && k.id.Id? && k.id.uuid in w.lbs && EnsureUpdated(e, w, w.lbs[k.id.uuid], k, nodes, given, w', res, u)
    ensures Tells(e, u, w', res)
    ensures res != EnsureFailed ==>
              BroughtUp(e, Called(w), w', k.id.uuid, k.spec, EnsuredNodes(e, k.spec, nodes).value, ClusterName(e.settings, given))
  {
    var id, ns, clusterName := k.id.uuid, EnsuredNodes(e, k.spec, nodes).value, ClusterName(e.settings, given);
    var w1 :| UpdateRun(e, Called(w), w.lbs[id], k.spec, ns, clusterName, w1, u) && AfterUpdate(e, w1, k, clusterName, u, w', res);
    if u == NoChange || u.Changed? {
      UpdateBringsUp(e, Called(w), id, k.spec, ns, clusterName, w1, u);
      RefetchTells(e, w1, k, clusterName, u, w', res);
      assert w'.lbs == w1.lbs;
    }
  }

  // Without an answer to its lookup, or without nodes to choose from, an ensure fails and does nothing else.
  lemma EnsureStops(e: Env, w: World, k: KubeService, nodes: seq<Node>, given: string, w': World, k': KubeService, res: EnsureResult)
    requires Annotated(w, k) && EnsureRun(e, w, k, nodes, given, w', k', res)
    requires !e.faults(w.calls).Fine? || EnsuredNodes(e, k.spec, nodes).None?
    ensures w' == Called(w) && k' == k && res == EnsureFailed
  {
    LookupWhenAnnotated(e, w, k, ClusterName(e.settings, given));
  }

  // ----- what an update of the hosts tells -----

  // It succeeds only if the load balancer is there and has been brought up to date for the selected nodes.
  lemma HostsOutcome(e: Env, w: World, k: KubeService, nodes: seq<Node>, given: string, w': World, ok: bool)
    requires Annotated(w, k) && UpdateHostsRun(e, w, k, nodes, given, w', ok)
    ensures ok ==> && k.id.Id? && k.id.uuid in w.lbs && e.faults(w.calls).Fine? && SelectedNodes(e, k.spec, nodes).Some?
                   && BroughtUp(e, Called(w), w', k.id.uuid, k.spec, SelectedNodes(e, k.spec, nodes).value, ClusterName(e.settings, given))
  {
    LookupWhenAnnotated(e, w, k, ClusterName(e.settings, given));
    if ok {
      var u := HostsUpdate(e, w, w.lbs[k.id.uuid], k, nodes, given, w', ok);
      UpdateBringsUp(e, Called(w), k.id.uuid, k.spec, SelectedNodes(e, k.spec, nodes).value, ClusterName(e.settings, given), w', u);
    }
  }

  // And it succeeds if all calls are answered, the load balancer is there and can be compared, and a request can be derived.
  lemma HostsSucceed(e: Env, w: World, k: KubeService, nodes: seq<Node>, given: string, w': World, ok: bool)
    requires Annotated(w, k) && UpdateHostsRun(e, w, k, nodes, given, w', ok)
    requires forall n :: n >= w.calls ==> e.faults(n).Fine?
    requires k.id.Id? && k.id.uuid in w.lbs && Converted(w.lbs[k.id.uuid]).Some? && SelectedNodes(e, k.spec, nodes).Some?
    requires DesiredWithCertificates(e, Called(w), w.lbs[k.id.uuid], k.spec, SelectedNodes(e, k.spec, nodes).value,
                                     ClusterName(e.settings, given)).1.Some?
    ensures ok
  {
    LookupWhenAnnotated(e, w, k, ClusterName(e.settings, given));
    var ns, clusterName := SelectedNodes(e, k.spec, nodes).value, ClusterName(e.settings, given);
    var u := HostsUpdate(e, w, w.lbs[k.id.uuid], k, nodes, given, w', ok);
    UpdateSucceeds(e, Called(w), k.id.uuid, k.spec, ns, clusterName, w', u);
  }

  // ----- what a delete tells -----

  // Nothing to delete is a success, whatever the annotations say; and it changes nothing.
  lemma NothingToDelete(e: Env, w: World, k: KubeService, given: string)
    requires HasNone(e, w, k, ClusterName(e.settings, given))
    ensures EnsureDeletedRun(e, w, k, given) == (Called(w), e.faults(w.calls).Fine?)
  {
    LookupFinds(e, w, k, ClusterName(e.settings, given));
  }

  // No call fails, and the frontends of the load balancer, if there is one, have distinct names.
  ghost predicate Unhindered(e: Env, w: World, k: KubeService) {
    && (forall n :: n >= w.calls ==> e.faults(n).Fine?)
    && (k.id.Id? && k.id.uuid in w.lbs ==> DistinctKeys(FrontendName, w.lbs[k.id.uuid].frontends))
  }

  // Whoever has annotations as the controller writes them gets the delete through once no call fails, whether or
  // not there is a load balancer left.
  lemma DeleteGoesThrough(e: Env, w: World, k: KubeService, given: string)
    requires Annotated(w, k) && Unhindered(e, w, k)
    ensures EnsureDeletedRun(e, w, k, given).1
    ensures k.id.Id? ==> k.id.uuid !in EnsureDeletedRun(e, w, k, given).0.lbs
  {
    LookupWhenAnnotated(e, w, k, ClusterName(e.settings, given));
    if k.id.Id? && k.id.uuid in w.lbs {
      DeleteRunEffects(e, Called(w), k.id.uuid);
    }
  }
}
