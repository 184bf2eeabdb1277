// What spans the life of a load balancer: its certificate bundle, from creation over updates to deletion.
module Lifecycle {
  import opened Wrappers
  import opened Ordering
  import opened Sorting
  import opened Config
  import opened Naming
  import opened Nodes
  import opened Services
  import opened DesiredState
  import opened Conversion
  import opened Cloud
  import opened Certificates
  import opened Update
  import opened Convergence
  import opened Creation
  import opened Deletion
  import opened Manager
  import opened Ownership
  import opened Runs

  // ----- the name of the bundle -----

  function NameFor(e: Env, k: KubeService, given: string): string {
    GeneratedName(e.settings, k.spec, ClusterName(e.settings, given))
  }

  // The load balancer that the annotation names, if it exists, carries the generated name.
  ghost predicate Identified(e: Env, w: World, k: KubeService, given: string) {
    k.id.Id? && k.id.uuid in w.lbs ==> LoadBalancerGeneratedName(w.lbs[k.id.uuid]) == NameFor(e, k, given)
  }

  lemma CreateNames(e: Env, w: World, s: Service, nodes: seq<Node>, clusterName: string)
    requires Consistent(w) && !CreateRun(e, w, s, nodes, clusterName).1.NothingMade?
    ensures var w' := CreateRun(e, w, s, nodes, clusterName).0;
            w.issued in w'.lbs && LoadBalancerGeneratedName(w'.lbs[w.issued]) == GeneratedName(e.settings, s, clusterName)
  {
    CreateRunEffects(e, w, s, nodes, clusterName);
    var d := RequestFromService(e, w, s, nodes, clusterName).1.value;
    assert IsStableSort(ByKey(LabelKey), d.labels, StableSort(ByKey(LabelKey), d.labels)) by {
      ByKeyIsPreorder(LabelKey);
      StableSortIsStable(ByKey(LabelKey), d.labels);
    }
    GeneratedNameSurvives(e.settings, s, nodes, e.plans, clusterName, e.site.value.network, e.site.value.zone,
                          StableSort(ByKey(LabelKey), d.labels));
  }

  lemma PutKeepsName(lb: LoadBalancer, body: Request, name: string)
    requires GeneratedNameLabelValue(body.labels) == name != ""
    ensures LoadBalancerGeneratedName(Replaced(lb, body)) == name
  {
  }

  // Whatever the user overrides and however an update ends, it does not change the name.
  lemma UpdateKeepsName(e: Env, w: World, id: Uuid, s: Service, nodes: seq<Node>, clusterName: string, w': World, res: UpdateResult)
    requires Consistent(w) && id in w.lbs && w.lbs[id].uuid == id && UpdateRun(e, w, w.lbs[id], s, nodes, clusterName, w', res)
    requires LoadBalancerGeneratedName(w.lbs[id]) == GeneratedName(e.settings, s, clusterName)
    ensures id in w'.lbs && LoadBalancerGeneratedName(w'.lbs[id]) == GeneratedName(e.settings, s, clusterName)
  {
    var lb := w.lbs[id];
    ProvisionOnlyBundles(e, w, lb, s, nodes, clusterName);
    var (w1, d) := DesiredWithCertificates(e, w, lb, s, nodes, clusterName);
    if d.Some? && Converted(lb).Some? {
      var live', body, m := ComparisonOf(e, w1, lb, d.value, w', res);
      ComparedBody(Converted(lb).value, d.value, live', body, m);
      DesiredLabels(e, w, lb, s, nodes, clusterName, StopsEarly(lb, d.value), body);
      PutKeepsName(lb, body, GeneratedName(e.settings, s, clusterName));
    }
  }

  lemma EnsureKeepsName(e: Env, w: World, k: KubeService, nodes: seq<Node>, given: string,
                        w': World, k': KubeService, res: EnsureResult)
    requires Annotated(w, k) && Identified(e, w, k, given) && EnsureRun(e, w, k, nodes, given, w', k', res)
    ensures Identified(e, w', k', given)
  {
    var clusterName := ClusterName(e.settings, given);
    var (w1, found) := Lookup(e, w, k, clusterName);
    var ns := EnsuredNodes(e, k.spec, nodes);
    if found.Ok? && ns.Some? {
      ExistingKeepsName(e, w1, k, ns.value, given, w', res);
    } else if found == Err(Missing) && ns.Some? {
      NewIsNamed(e, w1, k, ns.value, given);
    }
  }

  lemma ExistingKeepsName(e: Env, w: World, k: KubeService, nodes: seq<Node>, given: string, w': World, res: EnsureResult)
    requires Consistent(w) && k.id.Id? && k.id.uuid in w.lbs && Identified(e, w, k, given)
    requires EnsureExisting(e, w, w.lbs[k.id.uuid], k, nodes, ClusterName(e.settings, given), w', res)
    ensures Identified(e, w', k, given)
  {
    var clusterName, lb := ClusterName(e.settings, given), w.lbs[k.id.uuid];
    if lb.running {
      var v, u :| UpdateRun(e, w, lb, k.spec, nodes, clusterName, v, u) && AfterUpdate(e, v, k, clusterName, u, w', res);
      UpdateKeepsName(e, w, k.id.uuid, k.spec, nodes, clusterName, v, u);
    }
  }

  lemma NewIsNamed(e: Env, w: World, k: KubeService, nodes: seq<Node>, given: string)
    requires Consistent(w) && (k.id.Id? ==> k.id.uuid !in w.lbs)
    ensures var (w', k', res) := EnsureNew(e, w, k, nodes, ClusterName(e.settings, given));
            Identified(e, w', k', given)
  {
    var clusterName := ClusterName(e.settings, given);
    CreateRunEffects(e, w, k.spec, nodes, clusterName);
    if !CreateRun(e, w, k.spec, nodes, clusterName).1.NothingMade? {
      CreateNames(e, w, k.spec, nodes, clusterName);
    }
  }

  lemma HostsKeepName(e: Env, w: World, k: KubeService, nodes: seq<Node>, given: string, w': World, ok: bool)
    requires Annotated(w, k) && Identified(e, w, k, given) && UpdateHostsRun(e, w, k, nodes, given, w', ok)
    ensures Identified(e, w', k, given)
  {
    var clusterName := ClusterName(e.settings, given);
    var (w1, found) := Lookup(e, w, k, clusterName);
    var ns := SelectedNodes(e, k.spec, nodes);
    if found.Ok? && ns.Some? {
      var u :| UpdateRun(e, w1, found.value, k.spec, ns.value, clusterName, w', u) && ok == (u.NoChange? || u.Changed?);
      UpdateKeepsName(e, w1, k.id.uuid, k.spec, ns.value, clusterName, w', u);
    }
  }

  lemma DeleteKeepsName(e: Env, w: World, k: KubeService, given: string)
    requires Annotated(w, k) && Identified(e, w, k, given)
    ensures Identified(e, EnsureDeletedRun(e, w, k, given).0, k, given)
  {
    var (w1, found) := Lookup(e, w, k, ClusterName(e.settings, given));
    if found.Ok? {
      DeleteRunEffects(e, w1, k.id.uuid);
    }
  }

  // The load balancer that the annotation names has the generated name, or is not there; however many
  // others there are.
  ghost predicate Named(e: Env, given: string, s: State) {
    Annotated(s.world, s.service) && Identified(e, s.world, s.service, given)
  }

  // Others leave the generated name of this load balancer alone.
  ghost predicate NameRespected(e: Env, given: string, v: Event, s': State) {
    v.Others? ==> Identified(e, s'.world, s'.service, given)
  }

  lemma StepKeepsName(e: Env, given: string, s: State, v: Event, s': State)
    requires Named(e, given, s) && Step(e, given, s, v, s') && NameRespected(e, given, v, s')
    ensures Named(e, given, s') && NameFor(e, s'.service, given) == NameFor(e, s.service, given)
  {
    StepStaysAnnotated(e, given, s, v, s');
    match v
    case Ensure(nodes, result) => EnsureKeepsName(e, s.world, s.service, nodes, given, s'.world, s'.service, result);
    case UpdateHosts(nodes, ok) => HostsKeepName(e, s.world, s.service, nodes, given, s'.world, ok);
    case Delete(ok) => DeleteKeepsName(e, s.world, s.service, given);
    case Edit =>
    case Others =>
  }

  lemma {:induction false} RunKeepsName(e: Env, given: string, states: seq<State>, events: seq<Event>, i: nat)
    requires Run(e, given, states, events) && i <= |events| && Named(e, given, states[0])
    requires forall k :: 0 <= k < |events| ==> NameRespected(e, given, events[k], states[k + 1])
    ensures Named(e, given, states[i]) && NameFor(e, states[i].service, given) == NameFor(e, states[0].service, given)
  {
    if i > 0 {
      RunKeepsName(e, given, states, events, i - 1);
      StepKeepsName(e, given, states[i - 1], events[i - 1], states[i]);
    }
  }

  // ----- the bundle itself -----

  function OwnBundle(e: Env, k: KubeService, given: string): string {
    CertBundleName(NameFor(e, k, given))
  }

  lemma CreateAddsOwnBundle(e: Env, w: World, s: Service, nodes: seq<Node>, clusterName: string)
    requires Consistent(w)
    ensures BundleAdded(w.bundles, CreateRun(e, w, s, nodes, clusterName).0.bundles, CertBundleName(GeneratedName(e.settings, s, clusterName)))
  {
    CreateRunEffects(e, w, s, nodes, clusterName);
    if !CreateRun(e, w, s, nodes, clusterName).1.NothingMade? {
      CreateNames(e, w, s, nodes, clusterName);
    }
  }

  lemma ExistingAddsOwnBundle(e: Env, w: World, k: KubeService, nodes: seq<Node>, given: string,
                              w': World, res: EnsureResult)
    requires Consistent(w) && k.id.Id? && k.id.uuid in w.lbs && Identified(e, w, k, given)
    requires EnsureExisting(e, w, w.lbs[k.id.uuid], k, nodes, ClusterName(e.settings, given), w', res)
    ensures BundleAdded(w.bundles, w'.bundles, OwnBundle(e, k, given))
  {
    var clusterName, lb := ClusterName(e.settings, given), w.lbs[k.id.uuid];
    if lb.running {
      var v, u :| UpdateRun(e, w, lb, k.spec, nodes, clusterName, v, u) && AfterUpdate(e, v, k, clusterName, u, w', res);
      UpdateEffects(e, w, k.id.uuid, k.spec, nodes, clusterName, v, u);
    }
  }

  lemma EnsureAddsOwnBundle(e: Env, w: World, k: KubeService, nodes: seq<Node>, given: string,
                            w': World, k': KubeService, res: EnsureResult)
    requires Annotated(w, k) && Identified(e, w, k, given) && EnsureRun(e, w, k, nodes, given, w', k', res)
    ensures BundleAdded(w.bundles, w'.bundles, OwnBundle(e, k, given))
  {
    var clusterName := ClusterName(e.settings, given);
    var (w1, found) := Lookup(e, w, k, clusterName);
    var ns := EnsuredNodes(e, k.spec, nodes);
    if found.Ok? && ns.Some? {
      ExistingAddsOwnBundle(e, w1, k, ns.value, given, w', res);
    } else if found == Err(Missing) && ns.Some? {
      CreateAddsOwnBundle(e, w1, k.spec, ns.value, clusterName);
    }
  }

  lemma HostsAddOwnBundle(e: Env, w: World, k: KubeService, nodes: seq<Node>, given: string, w': World, ok: bool)
    requires Annotated(w, k) && Identified(e, w, k, given) && UpdateHostsRun(e, w, k, nodes, given, w', ok)
    ensures BundleAdded(w.bundles, w'.bundles, OwnBundle(e, k, given))
  {
    var clusterName := ClusterName(e.settings, given);
    var (w1, found) := Lookup(e, w, k, clusterName);
    var ns := SelectedNodes(e, k.spec, nodes);
    if found.Ok? && ns.Some? {
      var u :| UpdateRun(e, w1, found.value, k.spec, ns.value, clusterName, w', u) && ok == (u.NoChange? || u.Changed?);
      UpdateEffects(e, w1, k.id.uuid, k.spec, ns.value, clusterName, w', u);
    }
  }

  // What a delete does to the bundles.
  ghost predicate BundleDeleted(w: World, bundles: seq<Bundle>, id: Uuid, name: string)
    requires id in w.lbs
  {
    var found := FindBundle(w.bundles, name);
    && (FindBundle(bundles, name).Some? <==> found.Some? && StillNeeded(w, id, found.value.uuid))
    && OnlyDeleted(w.bundles, bundles, name)
  }

  ghost predicate OnlyDeleted(before: seq<Bundle>, after: seq<Bundle>, name: string) {
    var found := FindBundle(before, name);
    after == before || (found.Some? && after == Filter(HasOtherUuid(found.value.uuid), before))
  }

  lemma DeletesOwnBundle(e: Env, given: string, s: State)
    requires Named(e, given, s)
    ensures var (w, ok) := EnsureDeletedRun(e, s.world, s.service, given);
            && OnlyDeleted(s.world.bundles, w.bundles, OwnBundle(e, s.service, given))
            && if s.service.id.Id? && s.service.id.uuid in s.world.lbs then
                 ok ==> s.service.id.uuid !in w.lbs
                        && BundleDeleted(s.world, w.bundles, s.service.id.uuid, OwnBundle(e, s.service, given))
               else w == Called(s.world)
  {
    var (w1, found) := Lookup(e, s.world, s.service, ClusterName(e.settings, given));
    if found.Ok? {
      DeleteRunEffects(e, w1, s.service.id.uuid);
    }
  }

  // Others also leave the certificate bundles alone.
  ghost predicate Undisturbed(e: Env, given: string, s: State, v: Event, s': State) {
    NameRespected(e, given, v, s') && (v.Others? ==> s'.world.bundles == s.world.bundles)
  }

  lemma StepAddsOwnBundle(e: Env, given: string, s: State, v: Event, s': State)
    requires Named(e, given, s) && Step(e, given, s, v, s') && Undisturbed(e, given, s, v, s')
    ensures if v.Delete? then OnlyDeleted(s.world.bundles, s'.world.bundles, OwnBundle(e, s.service, given))
            else BundleAdded(s.world.bundles, s'.world.bundles, OwnBundle(e, s.service, given))
  {
    match v
    case Ensure(nodes, result) => EnsureAddsOwnBundle(e, s.world, s.service, nodes, given, s'.world, s'.service, result);
    case UpdateHosts(nodes, ok) => HostsAddOwnBundle(e, s.world, s.service, nodes, given, s'.world, ok);
    case Delete(ok) => DeletesOwnBundle(e, given, s);
    case Edit =>
    case Others =>
  }

  // A run in which others interfere neither with the bundles nor with the generated name. Any call may fail,
  // and any number of load balancers may be lost.
  ghost predicate UndisturbedRun(e: Env, given: string, states: seq<State>, events: seq<Event>) {
    && Run(e, given, states, events) && Named(e, given, states[0])
    && forall k :: 0 <= k < |events| ==> Undisturbed(e, given, states[k], events[k], states[k + 1])
  }

  lemma UndisturbedRunAt(e: Env, given: string, states: seq<State>, events: seq<Event>, i: nat)
    requires UndisturbedRun(e, given, states, events) && i <= |events|
    ensures Named(e, given, states[i]) && OwnBundle(e, states[i].service, given) == OwnBundle(e, states[0].service, given)
  {
    RunKeepsName(e, given, states, events, i);
  }

  // ----- at most one bundle -----

  function HasOtherBundleName(name: string): Bundle -> bool {
    (b: Bundle) => b.name != name
  }

  // Bundles of other names are as they were.
  predicate SameOthers(before: seq<Bundle>, after: seq<Bundle>, name: string) {
    Filter(HasOtherBundleName(name), after) == Filter(HasOtherBundleName(name), before)
  }

  lemma {:induction false} FilterTwice<T>(p: T -> bool, q: T -> bool, s: seq<T>)
    requires forall x :: x in s && p(x) ==> q(x)
    ensures Filter(p, Filter(q, s)) == Filter(p, s)
  {
    if s != [] {
      FilterTwice(p, q, s[1..]);
      assert Filter(q, s) == if q(s[0]) then [s[0]] + Filter(q, s[1..]) else Filter(q, s[1..]);
    }
  }

  lemma AddedSameOthers(before: seq<Bundle>, after: seq<Bundle>, name: string)
    requires BundleAdded(before, after, name)
    ensures SameOthers(before, after, name)
  {
    if after != before {
      var b: Bundle :| b.name == name && after == before + [b];
      FilterAppend(HasOtherBundleName(name), before, b);
    }
  }

  lemma DeletedSameOthers(w: World, after: seq<Bundle>, name: string)
    requires Consistent(w) && OnlyDeleted(w.bundles, after, name)
    ensures SameOthers(w.bundles, after, name)
  {
    if after != w.bundles {
      var gone := FindBundle(w.bundles, name).value;
      FilterTwice(HasOtherBundleName(name), HasOtherUuid(gone.uuid), w.bundles);
    }
  }

  lemma StepKeepsOtherBundles(e: Env, given: string, s: State, v: Event, s': State)
    requires Named(e, given, s) && Step(e, given, s, v, s') && Undisturbed(e, given, s, v, s')
    ensures SameOthers(s.world.bundles, s'.world.bundles, OwnBundle(e, s.service, given))
  {
    StepAddsOwnBundle(e, given, s, v, s');
    if v.Delete? {
      DeletedSameOthers(s.world, s'.world.bundles, OwnBundle(e, s.service, given));
    } else {
      AddedSameOthers(s.world.bundles, s'.world.bundles, OwnBundle(e, s.service, given));
    }
  }

  ghost predicate AtMostOneNamed(bundles: seq<Bundle>, name: string) {
    forall a, b :: a in bundles && b in bundles && a.name == b.name == name ==> a == b
  }

  lemma ConsistentNamesOne(w: World, name: string)
    requires Consistent(w)
    ensures AtMostOneNamed(w.bundles, name)
  {
  }

  lemma KeepsOtherBundlesAt(e: Env, given: string, states: seq<State>, events: seq<Event>, i: nat)
    requires UndisturbedRun(e, given, states, events) && i < |events|
    ensures SameOthers(states[i].world.bundles, states[i + 1].world.bundles, OwnBundle(e, states[0].service, given))
  {
    UndisturbedRunAt(e, given, states, events, i);
    StepKeepsOtherBundles(e, given, states[i], events[i], states[i + 1]);
  }

  lemma {:induction false} RunKeepsOtherBundles(e: Env, given: string, states: seq<State>, events: seq<Event>, i: nat)
    requires UndisturbedRun(e, given, states, events) && i <= |events|
    ensures SameOthers(states[0].world.bundles, states[i].world.bundles, OwnBundle(e, states[0].service, given))
  {
    if i > 0 {
      RunKeepsOtherBundles(e, given, states, events, i - 1);
      KeepsOtherBundlesAt(e, given, states, events, i - 1);
    }
  }

  // At most one certificate bundle per service: over every such run, deletes included, at every moment there
  // is at most one bundle of the name that belongs to the service, and all other bundles are as at the start.
  lemma OnlyOwnBundle(e: Env, given: string, states: seq<State>, events: seq<Event>, i: nat)
    requires UndisturbedRun(e, given, states, events) && i <= |events|
    ensures SameOthers(states[0].world.bundles, states[i].world.bundles, OwnBundle(e, states[0].service, given))
    ensures AtMostOneNamed(states[i].world.bundles, OwnBundle(e, states[0].service, given))
  {
    RunKeepsOtherBundles(e, given, states, events, i);
    UndisturbedRunAt(e, given, states, events, i);
    ConsistentNamesOne(states[i].world, OwnBundle(e, states[0].service, given));
  }

  // Up to the first delete, the bundles are those of the start and at most that one more.
  lemma {:induction false} AtMostOneBundle(e: Env, given: string, states: seq<State>, events: seq<Event>, i: nat)
    requires UndisturbedRun(e, given, states, events) && i <= |events| && forall k :: 0 <= k < i ==> !events[k].Delete?
    ensures BundleAdded(states[0].world.bundles, states[i].world.bundles, OwnBundle(e, states[0].service, given))
  {
    if i > 0 {
      AtMostOneBundle(e, given, states, events, i - 1);
      UndisturbedRunAt(e, given, states, events, i - 1);
      UndisturbedRunAt(e, given, states, events, i);
      StepAddsOwnBundle(e, given, states[i - 1], events[i - 1], states[i]);
      BundleAddedOnce(states[0].world.bundles, states[i - 1].world.bundles, states[i].world.bundles,
                      OwnBundle(e, states[0].service, given));
    }
  }

  // ----- at the end -----

  // The name under which the bundle was made is the name under which it is deleted: after any run, if the
  // annotated load balancer is in the cloud, a successful delete removes it together with the bundle of the
  // name that the service had at the start; the bundle is left exactly if something still needs it.
  lemma BundleNameOverLife(e: Env, given: string, states: seq<State>, events: seq<Event>)
    requires Run(e, given, states, events) && Named(e, given, states[0])
    requires forall k :: 0 <= k < |events| ==> NameRespected(e, given, events[k], states[k + 1])
    ensures var last := states[|events|];
            var (w, ok) := EnsureDeletedRun(e, last.world, last.service, given);
            if last.service.id.Id? && last.service.id.uuid in last.world.lbs then
              ok ==> last.service.id.uuid !in w.lbs
                     && BundleDeleted(last.world, w.bundles, last.service.id.uuid, OwnBundle(e, states[0].service, given))
            else w == Called(last.world)
  {
    RunKeepsName(e, given, states, events, |events|);
    DeletesOwnBundle(e, given, states[|events|]);
  }

  lemma {:induction false} FindAdded(bundles: seq<Bundle>, b: Bundle)
    requires b.dynamic && forall x :: x in bundles ==> x.name != b.name
    ensures FindBundle(bundles + [b], b.name) == Some(b) && FindBundle(bundles, b.name) == None
  {
  }

  lemma {:induction false} RemoveAdded(bundles: seq<Bundle>, b: Bundle)
    requires forall x :: x in bundles ==> x.uuid != b.uuid
    ensures Filter(HasOtherUuid(b.uuid), bundles + [b]) == bundles
  {
    FilterAppend(HasOtherUuid(b.uuid), bundles, b);
    FilterAll(HasOtherUuid(b.uuid), bundles);
  }

  lemma LastIsFresh(w: World, bundles: seq<Bundle>, b: Bundle)
    requires Consistent(w) && w.bundles == bundles + [b]
    ensures forall x :: x in bundles ==> x.uuid != b.uuid
  {
    forall x | x in bundles ensures x.uuid != b.uuid {
      var i :| 0 <= i < |bundles| && bundles[i] == x;
      assert w.bundles[i] == x && w.bundles[|bundles|] == b;
    }
  }

  // The bundle that a run made goes with the annotated load balancer: if no bundle had the name at the start,
  // a successful delete leaves the bundles as they were then, or, exactly if something still needs the one
  // that was made, with that one added.
  lemma BundleOverLife(e: Env, given: string, states: seq<State>, events: seq<Event>)
    requires UndisturbedRun(e, given, states, events) && forall k :: 0 <= k < |events| ==> !events[k].Delete?
    requires forall b :: b in states[0].world.bundles ==> b.name != OwnBundle(e, states[0].service, given)
    ensures var first, last := states[0].world.bundles, states[|events|];
            var (w, ok) := EnsureDeletedRun(e, last.world, last.service, given);
            ok && last.service.id.Id? && last.service.id.uuid in last.world.lbs ==>
              && last.service.id.uuid !in w.lbs
              && (|| (last.world.bundles == first && w.bundles == first)
                  || exists b: Bundle :: && b.name == OwnBundle(e, states[0].service, given)
                                         && last.world.bundles == first + [b]
                                         && w.bundles == if StillNeeded(last.world, last.service.id.uuid, b.uuid)
                                                         then first + [b] else first)
  {
    var last := states[|events|];
    UndisturbedRunAt(e, given, states, events, |events|);
    AtMostOneBundle(e, given, states, events, |events|);
    DeletesOwnBundle(e, given, last);
    var (w, ok) := EnsureDeletedRun(e, last.world, last.service, given);
    if ok && last.service.id.Id? && last.service.id.uuid in last.world.lbs {
      BundleAfterDelete(last.world, w.bundles, states[0].world.bundles, OwnBundle(e, states[0].service, given), last.service.id.uuid);
    }
  }

  lemma {:induction false} BundleAfterDelete(v: World, bundles: seq<Bundle>, first: seq<Bundle>, name: string, id: Uuid)
    requires Consistent(v) && BundleAdded(first, v.bundles, name) && forall b :: b in first ==> b.name != name
    requires id in v.lbs && BundleDeleted(v, bundles, id, name)
    ensures || (v.bundles == first && bundles == first)
            || exists b: Bundle :: && b.name == name && v.bundles == first + [b]
                                   && bundles == if StillNeeded(v, id, b.uuid) then first + [b] else first
  {
    if v.bundles != first {
      var b: Bundle :| b.name == name && b.dynamic && v.bundles == first + [b];
      FindAdded(first, b);
      LastIsFresh(v, first, b);
      RemoveAdded(first, b);
    }
  }
}
