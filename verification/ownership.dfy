// At most one load balancer per service: over every run of the controller, whatever calls
// fail, exactly as long as no run loses the reference to a load balancer it has made.
module Ownership {
  import opened Wrappers
  import opened Ordering
  import opened Sorting
  import opened Config
  import opened Naming
  import opened Nodes
  import opened Services
  import opened DesiredState
  import opened Compare
  import opened Conversion
  import opened Cloud
  import opened Certificates
  import opened Update
  import opened Convergence
  import opened Creation
  import opened Manager

  // The load balancers that were created for a service.
  function Owned(w: World, o: Owner): set<Uuid> {
    set id | id in w.lbs && w.lbs[id].owner == o
  }

  // No load balancer carries an empty generated name, which is what a service without
  // annotations looks for.
  ghost predicate NoneNameless(w: World) {
    forall id :: id in w.lbs ==> !HasLabel(w.lbs[id], GENERATED_NAME_LABEL, "")
  }

  // The annotations are both there or both not, whatever has become of the load balancer.
  ghost predicate Annotated(w: World, k: KubeService) {
    Consistent(w) && NoneNameless(w) && !k.id.BadId? && (k.id.NoId? ==> k.lbName == None)
  }

  // The ID annotation, if any, is an identifier of this service: of a load balancer that it has or that is gone.
  ghost predicate NamesOwn(w: World, k: KubeService) {
    k.id.Id? ==> k.id.uuid < w.issued && (k.id.uuid in w.lbs ==> w.lbs[k.id.uuid].owner == OwnerOf(k.spec))
  }

  // Without annotations the service has no load balancer; an ID annotation names its only one.
  ghost predicate Tracked(w: World, k: KubeService) {
    Annotated(w, k) && Owned(w, OwnerOf(k.spec)) == if k.id.Id? then {k.id.uuid} else {}
  }

  // Load balancers of other services stay as they are, and new ones belong to this service.
  ghost predicate OthersUntouched(w: World, w': World, o: Owner) {
    && (forall id :: id in w.lbs && w.lbs[id].owner != o ==> id in w'.lbs && w'.lbs[id] == w.lbs[id])
    && (forall id :: id in w'.lbs && id !in w.lbs ==> w'.lbs[id].owner == o)
  }

  // ----- labels of a request never have an empty generated name -----

  lemma {:induction false} InOfKey<T>(key: T -> string, s: seq<T>, x: T)
    requires x in s
    ensures x in OfKey(key, s, key(x))
  {
    if s[0] != x {
      InOfKey(key, s[1..], x);
    }
  }

  lemma {:induction false} NamedLabels(labels: seq<Label>, name: string)
    requires OfKey(LabelKey, labels, GENERATED_NAME_LABEL) == [Label(GENERATED_NAME_LABEL, name)] && name != ""
    ensures Label(GENERATED_NAME_LABEL, "") !in labels
  {
    if Label(GENERATED_NAME_LABEL, "") in labels {
      InOfKey(LabelKey, labels, Label(GENERATED_NAME_LABEL, ""));
    }
  }

  lemma DesiredNotNameless(c: Settings, s: Service, nodes: seq<Node>, plans: map<string, Plan>, clusterName: string,
                           privateNetwork: string, zone: string)
    requires Desired(c, s, nodes, plans, clusterName, privateNetwork, zone).Ok?
    ensures Label(GENERATED_NAME_LABEL, "") !in Desired(c, s, nodes, plans, clusterName, privateNetwork, zone).value.labels
  {
    var labels := Desired(c, s, nodes, plans, clusterName, privateNetwork, zone).value.labels;
    assert IsStableSort(ByKey(LabelKey), labels, StableSort(ByKey(LabelKey), labels)) by {
      ByKeyIsPreorder(LabelKey);
      StableSortIsStable(ByKey(LabelKey), labels);
    }
    GeneratedNameSurvives(c, s, nodes, plans, clusterName, privateNetwork, zone, StableSort(ByKey(LabelKey), labels));
    NamedLabels(labels, GeneratedName(c, s, clusterName));
  }

  // ----- an update -----

  lemma BodyNotNameless(early: bool, d: Request, body: Request)
    requires IsBody(early, d, body) && Label(GENERATED_NAME_LABEL, "") !in d.labels
    ensures Label(GENERATED_NAME_LABEL, "") !in body.labels
  {
    if !early {
      ByKeyIsPreorder(LabelKey);
      SameTiesPermutation(ByKey(LabelKey), d.labels, body.labels);
      assert Label(GENERATED_NAME_LABEL, "") !in multiset(d.labels);
    }
  }

  lemma DesireAddsOwnBundle(e: Env, w: World, lb: LoadBalancer, s: Service, nodes: seq<Node>, clusterName: string)
    requires Consistent(w)
    ensures var w1 := DesiredWithCertificates(e, w, lb, s, nodes, clusterName).0;
            Consistent(w1) && w1.lbs == w.lbs && w1.issued >= w.issued && BundleAdded(w.bundles, w1.bundles, BundleNameOf(lb))
  {
    if PrivateNetworkOf(lb).Some? {
      var d := Desired(e.settings, s, nodes, e.plans, clusterName, PrivateNetworkOf(lb).value.uuid, lb.zone);
      if d.Ok? {
        ProvisionStaysConsistent(e, Ask(e, w).0, BundleNameOf(lb), lb.dnsName, d.value.frontends);
        ProvisionSharesOneBundle(e, Ask(e, w).0, BundleNameOf(lb), lb.dnsName, d.value.frontends);
      }
    }
  }

  lemma DesiredLabelsNotNameless(e: Env, w: World, lb: LoadBalancer, s: Service, nodes: seq<Node>, clusterName: string)
    requires DesiredWithCertificates(e, w, lb, s, nodes, clusterName).1.Some?
    ensures Label(GENERATED_NAME_LABEL, "") !in DesiredWithCertificates(e, w, lb, s, nodes, clusterName).1.value.labels
  {
    DesiredNotNameless(e.settings, s, nodes, e.plans, clusterName, PrivateNetworkOf(lb).value.uuid, lb.zone);
  }

  // What any update, successful or not, does: at most it replaces the configuration of this load
  // balancer and adds the bundle of this load balancer.
  ghost predicate OnlyReplaced(w: World, w': World, id: Uuid) {
    && Consistent(w') && id in w.lbs && w'.issued >= w.issued
    && BundleAdded(w.bundles, w'.bundles, BundleNameOf(w.lbs[id]))
    && (|| w'.lbs == w.lbs
        || exists body :: w'.lbs == w.lbs[id := Replaced(w.lbs[id], body)] && Label(GENERATED_NAME_LABEL, "") !in body.labels)
  }

  lemma PutEffects(e: Env, w: World, id: Uuid, body: Request, m: Option<Mismatch>, w': World, res: UpdateResult)
    requires Consistent(w) && id in w.lbs && Label(GENERATED_NAME_LABEL, "") !in body.labels
    requires PutIfNeeded(e, w, w.lbs[id], body, m, w', res)
    ensures OnlyReplaced(w, w', id) && w'.bundles == w.bundles
  {
  }

  lemma ComparedBody(live: Request, d: Request, live': Request, body: Request, m: Option<Mismatch>)
    requires Compared(live, d, live', body, m)
    ensures IsBody(EarlyMismatch(live, d).Some?, d, body)
  {
  }

  lemma ReconciledEffects(e: Env, w: World, id: Uuid, d: Request, w': World, res: UpdateResult)
    requires Consistent(w) && id in w.lbs && Label(GENERATED_NAME_LABEL, "") !in d.labels
    requires Reconciled(e, w, w.lbs[id], d, w', res)
    ensures OnlyReplaced(w, w', id) && w'.bundles == w.bundles
  {
    if Converted(w.lbs[id]).Some? {
      var live := Converted(w.lbs[id]).value;
      var live', body, m := ComparisonOf(e, w, w.lbs[id], d, w', res);
      assert Label(GENERATED_NAME_LABEL, "") !in body.labels by {
        ComparedBody(live, d, live', body, m);
        BodyNotNameless(EarlyMismatch(live, d).Some?, d, body);
      }
      PutEffects(e, w, id, body, m, w', res);
    }
  }

  lemma ReplacedAfterBundle(w: World, w1: World, w': World, id: Uuid)
    requires OnlyReplaced(w1, w', id) && w1.lbs == w.lbs && w1.issued >= w.issued && w'.bundles == w1.bundles
    requires BundleAdded(w.bundles, w1.bundles, BundleNameOf(w1.lbs[id]))
    ensures OnlyReplaced(w, w', id)
  {
  }

  lemma UpdateEffects(e: Env, w: World, id: Uuid, s: Service, nodes: seq<Node>, clusterName: string, w': World, res: UpdateResult)
    requires Consistent(w) && id in w.lbs && UpdateRun(e, w, w.lbs[id], s, nodes, clusterName, w', res)
    ensures OnlyReplaced(w, w', id)
  {
    DesireAddsOwnBundle(e, w, w.lbs[id], s, nodes, clusterName);
    var (w1, desired) := DesiredWithCertificates(e, w, w.lbs[id], s, nodes, clusterName);
    if desired.Some? {
      DesiredLabelsNotNameless(e, w, w.lbs[id], s, nodes, clusterName);
      ReconciledEffects(e, w1, id, desired.value, w', res);
      ReplacedAfterBundle(w, w1, w', id);
    }
  }

  lemma ReplacedKeepsOwned(w: World, w': World, id: Uuid, k: KubeService)
    requires OnlyReplaced(w, w', id) && NoneNameless(w)
    ensures NoneNameless(w') && forall o :: Owned(w', o) == Owned(w, o)
    ensures w.lbs[id].owner == OwnerOf(k.spec) ==> OthersUntouched(w, w', OwnerOf(k.spec))
  {
  }

  // ----- a creation -----

  lemma AddsOneKeepsOthers(w: World, w': World, lb: LoadBalancer)
    requires Consistent(w) && NoneNameless(w) && AddsOne(w, w', lb) && !HasLabel(lb, GENERATED_NAME_LABEL, "")
    ensures NoneNameless(w') && OthersUntouched(w, w', lb.owner)
    ensures w.issued !in w.lbs && w'.lbs.Keys == w.lbs.Keys + {w.issued}
    ensures Owned(w', lb.owner) == Owned(w, lb.owner) + {w.issued}
  {
  }

  lemma RequestNotNameless(e: Env, w: World, s: Service, nodes: seq<Node>, clusterName: string)
    requires RequestFromService(e, w, s, nodes, clusterName).1.Some?
    ensures Label(GENERATED_NAME_LABEL, "") !in RequestFromService(e, w, s, nodes, clusterName).1.value.labels
  {
    DesiredNotNameless(e.settings, s, nodes, e.plans, clusterName, e.site.value.network, e.site.value.zone);
  }

  lemma CreateKeepsOthers(e: Env, w: World, s: Service, nodes: seq<Node>, clusterName: string)
    requires Consistent(w) && NoneNameless(w)
    ensures var (w', outcome) := CreateRun(e, w, s, nodes, clusterName);
            && Consistent(w') && NoneNameless(w') && OthersUntouched(w, w', OwnerOf(s)) && w'.issued >= w.issued
            && (outcome.NothingMade? ==> w'.lbs == w.lbs)
            && (!outcome.NothingMade? ==> && w.issued !in w.lbs && w'.lbs.Keys == w.lbs.Keys + {w.issued} && w'.issued > w.issued
                                          && Owned(w', OwnerOf(s)) == Owned(w, OwnerOf(s)) + {w.issued})
            && (Returned(outcome).0.Some? ==> Returned(outcome).0.value.uuid == w.issued)
  {
    CreateRunEffects(e, w, s, nodes, clusterName);
    var (w', outcome) := CreateRun(e, w, s, nodes, clusterName);
    if !outcome.NothingMade? {
      RequestNotNameless(e, w, s, nodes, clusterName);
      AddsOneKeepsOthers(w, w', Stored(e, w, RequestFromService(e, w, s, nodes, clusterName).1.value, s));
    }
  }

  // ----- one run of ensure -----

  // A lookup is one call, and finds the load balancer of the ID annotation or nothing.
  lemma LookupWhenAnnotated(e: Env, w: World, k: KubeService, clusterName: string)
    requires Annotated(w, k)
    ensures var (w1, found) := Lookup(e, w, k, clusterName);
            && w1 == Called(w)
            && (found.Ok? ==> k.id.Id? && k.id.uuid in w.lbs && found.value == w.lbs[k.id.uuid])
            && (found == Err(Missing) <==> e.faults(w.calls).Fine? && (k.id.Id? ==> k.id.uuid !in w.lbs))
  {
  }

  lemma LookupWhenTracked(e: Env, w: World, k: KubeService, clusterName: string)
    requires Tracked(w, k)
    ensures var (w1, found) := Lookup(e, w, k, clusterName);
            && w1 == Called(w)
            && (found.Ok? ==> k.id.Id? && k.id.uuid in w.lbs && found.value == w.lbs[k.id.uuid])
            && (found == Err(Missing) ==> k.id.NoId?)
  {
    LookupWhenAnnotated(e, w, k, clusterName);
    assert k.id.Id? ==> k.id.uuid in Owned(w, OwnerOf(k.spec));
  }

  // Where a creation loses the reference to the load balancer that it makes, read off the schedule of
  // failures: the response to the create call is lost; or all goes well until the final refresh fails;
  // or, after whatever ended the creation, the patch of the annotations is refused.
  predicate CreationLoses(e: Env, w: World, d: Request, s: Service) {
    match e.faults(w.calls)
    case Refused => false
    case Lost => true
    case Fine =>
      var lb := NewLoadBalancer(e, w.issued, d.(frontends := []), OwnerOf(s));
      var made := CreateLoadBalancer(e, w, d.(frontends := []), OwnerOf(s)).0;
      var (w1, certified) := Provision(e, made, BundleNameOf(lb), lb.dnsName, d.frontends);
      LosesFrom(e, w1.calls, certified.Ok?, |d.frontends|)
  }

  // From call number k on: the calls that add n frontends, if the certificates are there, the refresh and
  // the patch.
  predicate LosesFrom(e: Env, k: nat, certified: bool, n: nat) {
    if !certified then e.faults(k).Refused?
    else
      var i := FineCalls(e, k, n);
      (i == n && !e.faults(k + i).Fine?) || e.faults(k + i + 1).Refused?
  }

  // An ensure loses a reference exactly if it finds no load balancer, can derive a request, and the
  // creation loses it.
  predicate LosesReference(e: Env, w: World, k: KubeService, nodes: seq<Node>, given: string) {
    var clusterName := ClusterName(e.settings, given);
    var (w1, found) := Lookup(e, w, k, clusterName);
    && found == Err(Missing)
    && EnsuredNodes(e, k.spec, nodes).Some?
    && var (w2, d) := RequestFromService(e, w1, k.spec, EnsuredNodes(e, k.spec, nodes).value, clusterName);
       d.Some? && CreationLoses(e, w2, d.value, k.spec)
  }

  // The outcomes that leave the caller without the identifier of what was made.
  predicate LostOutcome(e: Env, w: World, outcome: CreateOutcome) {
    || outcome.MadeButLost? || outcome.MadeButNotRefreshed?
    || (Returned(outcome).0.Some? && e.faults(w.calls).Refused?)
  }

  lemma AfterProvisionLoses(e: Env, w: World, lb: LoadBalancer, fs: Result<seq<Frontend>, ApiError>, n: nat)
    requires fs.Ok? ==> lb.uuid in w.lbs && |fs.value| == n
    ensures var (w', outcome) := AfterProvision(e, w, lb, fs);
            LostOutcome(e, w', outcome) <==> LosesFrom(e, w.calls, fs.Ok?, n)
  {
    if fs.Ok? {
      AddFrontendsByFaults(e, w, lb.uuid, fs.value);
      AddFrontendsEffects(e, w, lb.uuid, fs.value);
    }
  }

  lemma EquipLoses(e: Env, w: World, lb: LoadBalancer, fs: seq<Frontend>)
    requires lb.uuid in w.lbs
    ensures var (w', outcome) := Equip(e, w, lb, fs);
            var (w1, certified) := Provision(e, w, BundleNameOf(lb), lb.dnsName, fs);
            LostOutcome(e, w', outcome) <==> LosesFrom(e, w1.calls, certified.Ok?, |fs|)
  {
    var (w1, certified) := Provision(e, w, BundleNameOf(lb), lb.dnsName, fs);
    assert certified.Ok? ==> lb.uuid in w1.lbs && |certified.value| == |fs| by {
      ProvisionSharesOneBundle(e, w, BundleNameOf(lb), lb.dnsName, fs);
      if certified.Ok? {
        CertifiedFrontends(e, w, BundleNameOf(lb), lb.dnsName, fs, certified.value);
      }
    }
    AfterProvisionLoses(e, w1, lb, certified, |fs|);
  }

  // The schedule decides the outcome.
  lemma MakeLoses(e: Env, w: World, d: Request, s: Service)
    ensures var (w1, outcome) := Make(e, w, d, s);
            LostOutcome(e, w1, outcome) <==> CreationLoses(e, w, d, s)
  {
    var (w1, created) := CreateLoadBalancer(e, w, d.(frontends := []), OwnerOf(s));
    if created.Ok? {
      EquipLoses(e, w1, created.value, d.frontends);
    }
  }

  lemma LosesByOutcome(e: Env, w: World, s: Service, nodes: seq<Node>, clusterName: string)
    ensures var (w1, d) := RequestFromService(e, w, s, nodes, clusterName);
            var (w2, outcome) := CreateRun(e, w, s, nodes, clusterName);
            LostOutcome(e, w2, outcome) <==> d.Some? && CreationLoses(e, w1, d.value, s)
  {
    var (w1, d) := RequestFromService(e, w, s, nodes, clusterName);
    if d.Some? {
      MakeLoses(e, w1, d.value, s);
    }
  }

  lemma CalledStaysTracked(w: World, k: KubeService)
    requires Tracked(w, k)
    ensures Tracked(Called(w), k)
  {
  }

  lemma ReplacedThenCalled(w: World, w1: World, w': World, id: Uuid)
    requires OnlyReplaced(w, w1, id) && (w' == w1 || w' == Called(w1))
    ensures OnlyReplaced(w, w', id)
  {
  }

  // An ensure that finds a load balancer at most replaces its configuration.
  lemma ExistingEffects(e: Env, w: World, lb: LoadBalancer, k: KubeService, nodes: seq<Node>, clusterName: string,
                        w': World, res: EnsureResult)
    requires Consistent(w) && lb.uuid in w.lbs && w.lbs[lb.uuid] == lb && lb.running
    requires EnsureExisting(e, w, lb, k, nodes, clusterName, w', res)
    ensures OnlyReplaced(w, w', lb.uuid)
  {
    var w1, u :| UpdateRun(e, w, lb, k.spec, nodes, clusterName, w1, u) && AfterUpdate(e, w1, k, clusterName, u, w', res);
    UpdateEffects(e, w, lb.uuid, k.spec, nodes, clusterName, w1, u);
    assert Lookup(e, w1, k, clusterName).0 == Called(w1);
    ReplacedThenCalled(w, w1, w', lb.uuid);
  }

  lemma ExistingKeepsOwned(e: Env, w: World, k: KubeService, nodes: seq<Node>, clusterName: string, w': World, res: EnsureResult)
    requires Annotated(w, k) && k.id.Id? && k.id.uuid in w.lbs
    requires EnsureExisting(e, w, w.lbs[k.id.uuid], k, nodes, clusterName, w', res)
    ensures Annotated(w', k) && w'.issued >= w.issued && forall o :: Owned(w', o) == Owned(w, o)
    ensures w.lbs[k.id.uuid].owner == OwnerOf(k.spec) ==> OthersUntouched(w, w', OwnerOf(k.spec))
  {
    var id := k.id.uuid;
    if w.lbs[id].running {
      ExistingEffects(e, w, w.lbs[id], k, nodes, clusterName, w', res);
      ReplacedKeepsOwned(w, w', id, k);
    }
  }

  // Once there is a load balancer, exactly the annotated service tracks it.
  lemma TrackedWhenAnnotated(w: World, w': World, k: KubeService, k': KubeService, id: Uuid)
    requires Consistent(w) && NoneNameless(w) && Owned(w, OwnerOf(k.spec)) == {id}
    requires k.id.NoId? && k'.spec == k.spec && (k' == k || k'.id == Id(id))
    requires w' == w.(calls := w'.calls)
    ensures Tracked(w', k') <==> k' != k
    ensures Owned(w', OwnerOf(k.spec)) == {id}
  {
  }

  lemma NewStaysTracked(e: Env, w: World, k: KubeService, nodes: seq<Node>, clusterName: string)
    requires Tracked(w, k) && k.id.NoId?
    ensures var (w', k', res) := EnsureNew(e, w, k, nodes, clusterName);
            var (w2, outcome) := CreateRun(e, w, k.spec, nodes, clusterName);
            && (Tracked(w', k') <==> !LostOutcome(e, w2, outcome))
            && OthersUntouched(w, w', OwnerOf(k.spec))
            && Owned(w', OwnerOf(k.spec)) <= {w.issued}
            && k'.spec == k.spec
  {
    CreateKeepsOthers(e, w, k.spec, nodes, clusterName);
    var (w2, outcome) := CreateRun(e, w, k.spec, nodes, clusterName);
    var (w', k', res) := EnsureNew(e, w, k, nodes, clusterName);
    if outcome.NothingMade? {
      assert w' == w2 && k' == k;
      assert Owned(w2, OwnerOf(k.spec)) == Owned(w, OwnerOf(k.spec));
    } else {
      assert Owned(w2, OwnerOf(k.spec)) == {w.issued};
      TrackedWhenAnnotated(w2, w', k, k', w.issued);
    }
  }

  // A run of ensure, with any calls failing, keeps the annotations in step with the load balancers
  // exactly when it does not lose a reference; and it never touches a load balancer of another service.
  lemma EnsureStaysTracked(e: Env, w: World, k: KubeService, nodes: seq<Node>, given: string,
                           w': World, k': KubeService, res: EnsureResult)
    requires Tracked(w, k) && EnsureRun(e, w, k, nodes, given, w', k', res)
    ensures Tracked(w', k') <==> !LosesReference(e, w, k, nodes, given)
    ensures OthersUntouched(w, w', OwnerOf(k.spec)) && |Owned(w', OwnerOf(k.spec))| <= 1 && OwnerOf(k'.spec) == OwnerOf(k.spec)
  {
    var clusterName := ClusterName(e.settings, given);
    LookupWhenTracked(e, w, k, clusterName);
    CalledStaysTracked(w, k);
    var (w1, found) := Lookup(e, w, k, clusterName);
    var ns := EnsuredNodes(e, k.spec, nodes);
    if found != Err(LookupFailed) && ns.Some? {
      if found.Ok? {
        assert k.id.uuid in Owned(w1, OwnerOf(k.spec));
        ExistingKeepsOwned(e, w1, k, ns.value, clusterName, w', res);
      } else {
        NewStaysTracked(e, w1, k, ns.value, clusterName);
        LosesByOutcome(e, w1, k.spec, ns.value, clusterName);
        AtMostOneOf(Owned(w', OwnerOf(k.spec)), w1.issued);
      }
    }
    if Tracked(w', k') {
      TrackedAtMostOne(w', k');
    }
  }

  lemma TrackedAtMostOne(w: World, k: KubeService)
    requires Tracked(w, k)
    ensures |Owned(w, OwnerOf(k.spec))| <= 1
  {
  }

  lemma AtMostOneOf(s: set<Uuid>, x: Uuid)
    requires s <= {x}
    ensures |s| <= 1
  {
    assert s == {} || s == {x};
  }
}
