// Creating a load balancer: without frontends first, then the certificates, then the frontends
// one by one, and a refresh at the end.
module Creation {
  import opened Wrappers
  import opened Config
  import opened Naming
  import opened Nodes
  import opened Services
  import opened Builder
  import opened Overlays
  import opened DesiredState
  import opened DesiredFields
  import opened Compare
  import opened Conversion
  import opened Cloud
  import opened Certificates
  import opened Update
  import opened Convergence
  import Shape

  // How a creation ends. The caller sees a load balancer only in MadePartly and Made: a lost
  // response has none, and a failed refresh overwrites the one that was at hand.
  datatype CreateOutcome = NothingMade | MadeButLost | MadePartly(lb: LoadBalancer) | MadeButNotRefreshed | Made(lb: LoadBalancer)

  function OwnerOf(s: Service): Owner {
    Owner(s.namespace, s.name)
  }

  // createRequestFromService: node validation, server details, zones and plans come first.
  function RequestFromService(e: Env, w: World, s: Service, nodes: seq<Node>, clusterName: string): (World, Option<Request>) {
    if !ValidNodes(nodes) then (w, None)
    else
      var (w1, server) := Ask(e, w);
      if !server || e.site.None? then (w1, None)
      else
        var (w2, zones) := Ask(e, w1);
        if !zones then (w2, None)
        else
          var (w3, listed) := Ask(e, w2);
          if !listed then (w3, None)
          else match Desired(e.settings, s, nodes, e.plans, clusterName, e.site.value.network, e.site.value.zone)
            case Err(_) => (w3, None)
            case Ok(d) => (w3, Some(d))
  }

  function AddFrontends(e: Env, w: World, id: Uuid, fs: seq<Frontend>): (World, bool)
    decreases |fs|
  {
    if fs == [] then (w, true)
    else
      var (w1, r) := CreateFrontend(e, w, id, fs[0]);
      if r.Err? then (w1, false) else AddFrontends(e, w1, id, fs[1..])
  }

  // CreateLoadBalancer of the service
  function CreateRun(e: Env, w: World, s: Service, nodes: seq<Node>, clusterName: string): (World, CreateOutcome) {
    var (w1, desired) := RequestFromService(e, w, s, nodes, clusterName);
    match desired
    case None => (w1, NothingMade)
    case Some(d) => Make(e, w1, d, s)
  }

  // The part of a creation that starts from the request.
  function Make(e: Env, w: World, d: Request, s: Service): (World, CreateOutcome) {
    var (w1, created) := CreateLoadBalancer(e, w, d.(frontends := []), OwnerOf(s));
    match created
    case Err(_) => (w1, if e.faults(w.calls).Lost? then MadeButLost else NothingMade)
    case Ok(lb) => Equip(e, w1, lb, d.frontends)
  }

  // The part of a creation that starts from the stored load balancer.
  function Equip(e: Env, w: World, lb: LoadBalancer, frontends: seq<Frontend>): (World, CreateOutcome) {
    var (w1, fs) := Provision(e, w, CertBundleName(LoadBalancerGeneratedName(lb)), lb.dnsName, frontends);
    AfterProvision(e, w1, lb, fs)
  }

  function AfterProvision(e: Env, w: World, lb: LoadBalancer, fs: Result<seq<Frontend>, ApiError>): (World, CreateOutcome) {
    match fs
    case Err(_) => (w, MadePartly(lb))
    case Ok(certified) => AddAndRefresh(e, w, lb, certified)
  }

  function AddAndRefresh(e: Env, w: World, lb: LoadBalancer, certified: seq<Frontend>): (World, CreateOutcome) {
    var (w1, added) := AddFrontends(e, w, lb.uuid, certified);
    if !added then (w1, MadePartly(lb))
    else
      var (w2, refreshed) := GetLoadBalancer(e, w1, lb.uuid);
      (w2, if refreshed.Ok? then Made(refreshed.value) else MadeButNotRefreshed)
  }

  // What the caller gets: the load balancer, if any, and whether there was no error.
  function Returned(o: CreateOutcome): (Option<LoadBalancer>, bool) {
    match o
    case MadePartly(lb) => (Some(lb), false)
    case Made(lb) => (Some(lb), true)
    case _ => (None, false)
  }

  // ----- the request for a creation -----

  function AnnotatedNetwork(n: Node): string
    requires n.annotations.Some?
  {
    var key := "infrastructure.cluster.x-k8s.io/upcloud-vm-private-nw-uuid";
    if key in n.annotations.value then n.annotations.value[key] else ""
  }

  ghost predicate InOneNetwork(nodes: seq<Node>) {
    && nodes != []
    && (forall n :: n in nodes ==> n.annotations.Some?)
    && (forall m, n :: m in nodes && n in nodes ==> AnnotatedNetwork(m) == AnnotatedNetwork(n))
  }

  // There is a request exactly if the nodes are in one private network, a zone and network are known, the three
  // calls are answered, and the service and its annotation allow it. Without valid nodes no call is made.
  lemma RequestMade(e: Env, w: World, s: Service, nodes: seq<Node>, clusterName: string)
    ensures var (w', d) := RequestFromService(e, w, s, nodes, clusterName);
            && (d.Some? <==> && InOneNetwork(nodes) && e.site.Some? && Derivable(e.settings, s, e.plans)
                             && e.faults(w.calls).Fine? && e.faults(w.calls + 1).Fine? && e.faults(w.calls + 2).Fine?)
            && (d.Some? ==> w' == w.(calls := w.calls + 3))
            && (!InOneNetwork(nodes) ==> w' == w)
  {
    assert forall n :: n in nodes && n.annotations.Some? ==> AnnotatedNetwork(n) == PrivateNetwork(n);
    assert InOneNetwork(nodes) <==> ValidNodes(nodes);
    if e.site.Some? {
      DesiredOutcome(e.settings, s, nodes, e.plans, clusterName, e.site.value.network, e.site.value.zone);
    }
  }

  // It is for the zone of the nodes and their private network, unless the user says otherwise.
  lemma RequestPlaced(e: Env, w: World, s: Service, nodes: seq<Node>, clusterName: string)
    requires RequestFromService(e, w, s, nodes, clusterName).1.Some?
    ensures e.site.Some?
    ensures var d, o := RequestFromService(e, w, s, nodes, clusterName).1.value, UserSet(s);
            && d.zone == Or(o.zone, e.site.value.zone)
            && (o.networks == [] ==> d.networks == [Network("public-IPv4", Public, "IPv4", ""),
                                                    Network("private-IPv4", Private, "IPv4", e.site.value.network)])
            && d.labels == o.labels + ControllerLabels(e.settings, s, clusterName)
  {
    DesiredScalars(e.settings, s, nodes, e.plans, clusterName, e.site.value.network, e.site.value.zone);
  }

  // ----- the imperative form -----

  method CreateRequestFromService(cloud: UpCloud, s: Service, nodes: seq<Node>, clusterName: string)
    returns (r: Option<CreateRequest>)
    modifies cloud
    ensures cloud.world == RequestFromService(cloud.env, old(cloud.world), s, nodes, clusterName).0
    ensures match RequestFromService(cloud.env, old(cloud.world), s, nodes, clusterName).1
            case None => r.None?
            case Some(d) => r.Some? && fresh(r.value) && r.value.Value() == d
    ensures r.Some? <==>
            && InOneNetwork(nodes) && cloud.env.site.Some? && Derivable(cloud.env.settings, s, cloud.env.plans)
            && var n := old(cloud.world).calls;
               cloud.env.faults(n).Fine? && cloud.env.faults(n + 1).Fine? && cloud.env.faults(n + 2).Fine?
    ensures r.Some? ==> r.value.zone == Or(UserSet(s).zone, cloud.env.site.value.zone)
    ensures r.Some? && UserSet(s).networks == [] ==>
              r.value.networks == [Network("public-IPv4", Public, "IPv4", ""),
                                   Network("private-IPv4", Private, "IPv4", cloud.env.site.value.network)]
  {
    RequestMade(cloud.env, cloud.world, s, nodes, clusterName);
    if RequestFromService(cloud.env, cloud.world, s, nodes, clusterName).1.Some? {
      RequestPlaced(cloud.env, cloud.world, s, nodes, clusterName);
    }
    r := RequestOf(cloud, s, nodes, clusterName);
  }

  method RequestOf(cloud: UpCloud, s: Service, nodes: seq<Node>, clusterName: string) returns (r: Option<CreateRequest>)
    modifies cloud
    ensures cloud.world == RequestFromService(cloud.env, old(cloud.world), s, nodes, clusterName).0
    ensures match RequestFromService(cloud.env, old(cloud.world), s, nodes, clusterName).1
            case None => r.None?
            case Some(d) => r.Some? && fresh(r.value) && r.value.Value() == d
  {
    var valid := ValidateLoadBalancerNodes(nodes);
    if !valid {
      return None;
    }
    var server := cloud.AskServer();
    if !server || cloud.env.site.None? {
      return None;
    }
    var zones := cloud.AskServer();
    if !zones {
      return None;
    }
    var listed := cloud.AskServer();
    if !listed {
      return None;
    }
    var built := NewCreateRequest(cloud.env.settings, s, nodes, cloud.env.plans, clusterName,
                                  cloud.env.site.value.network, cloud.env.site.value.zone);
    r := if built.Err? then None else Some(built.value);
  }

  method CreateLoadBalancerRun(cloud: UpCloud, s: Service, nodes: seq<Node>, clusterName: string)
    returns (lb: Option<LoadBalancer>, ok: bool)
    modifies cloud
    ensures var (w, outcome) := CreateRun(cloud.env, old(cloud.world), s, nodes, clusterName);
            cloud.world == w && (lb, ok) == Returned(outcome)
  {
    var config := CreateRequestFromService(cloud, s, nodes, clusterName);
    if config.None? {
      return None, false;
    }
    var request := config.value.Value();
    var created := cloud.Create(request.(frontends := []), OwnerOf(s));
    if created.Err? {
      return None, false;
    }
    lb, ok := EquipLoadBalancer(cloud, created.value, request.frontends);
  }

  method EquipLoadBalancer(cloud: UpCloud, created: LoadBalancer, list: seq<Frontend>)
    returns (lb: Option<LoadBalancer>, ok: bool)
    modifies cloud
    ensures var (w, outcome) := Equip(cloud.env, old(cloud.world), created, list);
            cloud.world == w && (lb, ok) == Returned(outcome)
  {
    var frontends := new Frontend[|list|](i requires 0 <= i < |list| => list[i]);
    assert frontends[..] == list;
    var err := AutoProvisionCertificates(cloud, created, frontends);
    if err.Some? {
      return Some(created), false;
    }
    ghost var goal := AddFrontends(cloud.env, cloud.world, created.uuid, frontends[..]);
    assert frontends[0..] == frontends[..];
    for i := 0 to frontends.Length
      invariant goal == AddFrontends(cloud.env, cloud.world, created.uuid, frontends[i..])
    {
      assert frontends[i..][0] == frontends[i] && frontends[i..][1..] == frontends[i + 1..];
      var added := cloud.AddFrontend(created.uuid, frontends[i]);
      if added.Err? {
        return Some(created), false;
      }
    }
    var refreshed := cloud.Get(created.uuid);
    if refreshed.Err? {
      return None, false;
    }
    return Some(refreshed.value), true;
  }

  // ----- what a creation leaves behind -----

  lemma {:induction false} AddFrontendsEffects(e: Env, w: World, id: Uuid, fs: seq<Frontend>)
    requires id in w.lbs
    ensures var (w', ok) := AddFrontends(e, w, id, fs);
            && id in w'.lbs && w'.lbs == w.lbs[id := w.lbs[id].(frontends := w'.lbs[id].frontends)]
            && w'.bundles == w.bundles && w'.issued == w.issued && w'.calls >= w.calls
            && (ok ==> w'.lbs[id].frontends == w.lbs[id].frontends + fs)
            && ((forall n :: n >= w.calls ==> e.faults(n).Fine?) ==> ok)
    decreases |fs|
  {
    if fs == [] {
      assert w.lbs[id].frontends + fs == w.lbs[id].frontends;
    } else {
      var w1 := CreateFrontend(e, w, id, fs[0]).0;
      AddFrontendsEffects(e, w1, id, fs[1..]);
      assert w.lbs[id].frontends + fs == (w.lbs[id].frontends + [fs[0]]) + fs[1..];
    }
  }

  // How many calls from number k on are fine, up to n.
  function FineCalls(e: Env, k: nat, n: nat): (i: nat)
    ensures i <= n && (i < n ==> !e.faults(k + i).Fine?)
    decreases n
  {
    if n == 0 || !e.faults(k).Fine? then 0 else 1 + FineCalls(e, k + 1, n - 1)
  }

  // Adding frontends stops after the first call that is not fine.
  lemma {:induction false} AddFrontendsByFaults(e: Env, w: World, id: Uuid, fs: seq<Frontend>)
    requires id in w.lbs
    ensures var (w', ok) := AddFrontends(e, w, id, fs);
            var i := FineCalls(e, w.calls, |fs|);
            && (ok <==> i == |fs|)
            && w'.calls == w.calls + if i == |fs| then i else i + 1
    decreases |fs|
  {
    if fs != [] {
      var w1 := CreateFrontend(e, w, id, fs[0]).0;
      if e.faults(w.calls).Fine? {
        AddFrontendsByFaults(e, w1, id, fs[1..]);
      }
    }
  }

  // One load balancer has been added, and at most one bundle: its own.
  ghost predicate AddsOne(w: World, w': World, lb: LoadBalancer) {
    && lb.uuid == w.issued && w'.issued > w.issued
    && (exists fs :: w'.lbs == w.lbs[w.issued := lb.(frontends := fs)])
    && BundleAdded(w.bundles, w'.bundles, BundleNameOf(lb))
  }

  lemma GetOrCreateStaysConsistent(e: Env, w: World, name: string, hostname: string)
    requires Consistent(w)
    ensures Consistent(GetOrCreateBundle(e, w, name, hostname).0)
    ensures GetOrCreateBundle(e, w, name, hostname).0.calls >= w.calls
  {
  }

  lemma {:induction false} ProvisionStaysConsistent(e: Env, w: World, name: string, hostname: string, fs: seq<Frontend>)
    requires Consistent(w)
    ensures Consistent(Provision(e, w, name, hostname, fs).0)
    ensures Provision(e, w, name, hostname, fs).0.calls >= w.calls
    decreases |fs|
  {
    if fs != [] {
      if NeedsCertificate(fs[0]) {
        GetOrCreateStaysConsistent(e, w, name, hostname);
        ProvisionStaysConsistent(e, GetOrCreateBundle(e, w, name, hostname).0, name, hostname, fs[1..]);
      } else {
        ProvisionStaysConsistent(e, w, name, hostname, fs[1..]);
      }
    }
  }

  lemma AddAndRefreshEffects(e: Env, w: World, lb: LoadBalancer, certified: seq<Frontend>)
    requires lb.uuid in w.lbs
    ensures var (w', outcome) := AddAndRefresh(e, w, lb, certified);
            && lb.uuid in w'.lbs && w'.lbs == w.lbs[lb.uuid := w.lbs[lb.uuid].(frontends := w'.lbs[lb.uuid].frontends)]
            && w'.bundles == w.bundles && w'.issued == w.issued && w'.calls >= w.calls
            && (outcome == MadePartly(lb) || outcome == MadeButNotRefreshed || outcome == Made(w'.lbs[lb.uuid]))
            && (outcome.Made? ==> w'.lbs[lb.uuid].frontends == w.lbs[lb.uuid].frontends + certified)
  {
    AddFrontendsEffects(e, w, lb.uuid, certified);
  }

  lemma EquipEffects(e: Env, w: World, lb: LoadBalancer, fs: seq<Frontend>)
    requires Consistent(w) && lb.uuid in w.lbs && w.lbs[lb.uuid] == lb
    ensures var (w', outcome) := Equip(e, w, lb, fs);
            && Consistent(w') && w'.issued >= w.issued
            && (exists gs :: w'.lbs == w.lbs[lb.uuid := lb.(frontends := gs)])
            && BundleAdded(w.bundles, w'.bundles, BundleNameOf(lb))
            && !outcome.NothingMade? && !outcome.MadeButLost?
            && (outcome.MadePartly? ==> outcome.lb == lb)
            && (outcome.Made? ==> outcome.lb == w'.lbs[lb.uuid])
  {
    var name := CertBundleName(LoadBalancerGeneratedName(lb));
    ProvisionSharesOneBundle(e, w, name, lb.dnsName, fs);
    ProvisionStaysConsistent(e, w, name, lb.dnsName, fs);
    var (w1, certified) := Provision(e, w, name, lb.dnsName, fs);
    assert w.lbs == w.lbs[lb.uuid := lb.(frontends := lb.frontends)];
    if certified.Ok? {
      AddAndRefreshEffects(e, w1, lb, certified.value);
    }
  }

  lemma RequestKeepsWorld(e: Env, w: World, s: Service, nodes: seq<Node>, clusterName: string)
    ensures var w1 := RequestFromService(e, w, s, nodes, clusterName).0;
            w1 == w.(calls := w1.calls) && w1.calls >= w.calls
  {
  }

  // The new load balancer, as the create call stores it.
  function Stored(e: Env, w: World, d: Request, s: Service): LoadBalancer {
    NewLoadBalancer(e, w.issued, d.(frontends := []), OwnerOf(s))
  }

  lemma CreateCallEffects(e: Env, w: World, w1: World, d: Request, s: Service)
    requires Consistent(w) && w1 == w.(calls := w1.calls)
    ensures var (w2, created) := CreateLoadBalancer(e, w1, d.(frontends := []), OwnerOf(s));
            && Consistent(w2)
            && (w2.lbs == w1.lbs ==> w2.bundles == w.bundles && w2.issued == w.issued)
            && (w2.lbs != w1.lbs ==> AddsOne(w, w2, Stored(e, w, d, s)))
            && (created.Ok? ==> created.value == Stored(e, w, d, s)
                                && w2.lbs == w.lbs[w.issued := created.value] && w2.bundles == w.bundles && w2.issued > w.issued)
  {
    var lb := Stored(e, w, d, s);
    var w2 := CreateLoadBalancer(e, w1, d.(frontends := []), OwnerOf(s)).0;
    if w2.lbs != w1.lbs {
      assert w2.lbs == w.lbs[w.issued := lb.(frontends := [])];
    }
    assert !e.faults(w1.calls).Refused? ==> w.issued in w2.lbs && w.issued !in w1.lbs;
  }

  lemma EquippedAddsOne(w: World, w2: World, w': World, lb: LoadBalancer)
    requires lb.uuid == w.issued && w2.lbs == w.lbs[w.issued := lb] && w2.bundles == w.bundles && w2.issued > w.issued
    requires w'.issued >= w2.issued
    requires exists gs :: w'.lbs == w2.lbs[lb.uuid := lb.(frontends := gs)]
    requires BundleAdded(w2.bundles, w'.bundles, BundleNameOf(lb))
    ensures AddsOne(w, w', lb)
  {
  }

  lemma CreateRunEffects(e: Env, w: World, s: Service, nodes: seq<Node>, clusterName: string)
    requires Consistent(w)
    ensures var (w', outcome) := CreateRun(e, w, s, nodes, clusterName);
            var desired := RequestFromService(e, w, s, nodes, clusterName).1;
            && Consistent(w')
            && (outcome.NothingMade? ==> w'.lbs == w.lbs && w'.bundles == w.bundles && w'.issued == w.issued)
            && (!outcome.NothingMade? ==> desired.Some? && AddsOne(w, w', Stored(e, w, desired.value, s)))
            && (Returned(outcome).0.Some? ==> Returned(outcome).0.value.uuid == w.issued)
  {
    RequestKeepsWorld(e, w, s, nodes, clusterName);
    var (w1, desired) := RequestFromService(e, w, s, nodes, clusterName);
    if desired.Some? {
      var d := desired.value;
      CreateCallEffects(e, w, w1, d, s);
      var (w2, created) := CreateLoadBalancer(e, w1, d.(frontends := []), OwnerOf(s));
      if created.Ok? {
        EquipEffects(e, w2, created.value, d.frontends);
        EquippedAddsOne(w, w2, Equip(e, w2, created.value, d.frontends).0, created.value);
      }
    }
  }

  // ----- a created load balancer is up to date -----

  lemma DefaultPrivateNetwork(r: Request, network: string)
    requires r.networks == [Network(NETWORK_PUBLIC, Public, FAMILY_IPV4, ""), Network(NETWORK_PRIVATE, Private, FAMILY_IPV4, network)]
    ensures FirstPrivate(r.networks, true) == Some(r.networks[1])
  {
  }

  // Where the overlay leaves networks and zone alone, the defaults agree on them.
  lemma MergedElsewhere(s: Service, o: Overlay, r: Request, q: Request, plans: map<string, Plan>)
    requires q == r.(networks := q.networks, zone := q.zone)
    requires (o.networks == [] ==> q.networks == r.networks) && (o.zone.None? ==> q.zone == r.zone)
    ensures MergedOverlay(s, o, q, plans) == MergedOverlay(s, o, r, plans)
  {
  }

  // Deriving the request again from the zone and private network of the created load balancer
  // gives the request it was created from.
  lemma DesiredFromCreated(c: Settings, s: Service, nodes: seq<Node>, plans: map<string, Plan>, clusterName: string,
                           network: string, zone: string, lb: LoadBalancer)
    requires Desired(c, s, nodes, plans, clusterName, network, zone).Ok?
    requires var d := Desired(c, s, nodes, plans, clusterName, network, zone).value;
             lb.networks == d.networks && lb.zone == d.zone
    requires PrivateNetworkOf(lb).Some?
    ensures Desired(c, s, nodes, plans, clusterName, PrivateNetworkOf(lb).value.uuid, lb.zone) ==
            Desired(c, s, nodes, plans, clusterName, network, zone)
  {
    var r := Defaults(c, s, nodes, plans, clusterName, network, zone);
    DefaultPrivateNetwork(r, network);
    var q := Defaults(c, s, nodes, plans, clusterName, PrivateNetworkOf(lb).value.uuid, lb.zone);
    if s.config.Decoded? {
      MergedElsewhere(s, s.config.overlay, r, q, plans);
    }
  }

  // Certificates change neither the names nor the rules of frontends.
  lemma {:induction false} CertifiedFrontends(e: Env, w: World, name: string, hostname: string, fs: seq<Frontend>, gs: seq<Frontend>)
    requires Provision(e, w, name, hostname, fs).1 == Ok(gs)
    ensures |gs| == |fs| && forall i :: 0 <= i < |fs| ==> gs[i] == fs[i].(tlsConfigs := gs[i].tlsConfigs)
    ensures NoMatchingConditions(gs) <==> NoMatchingConditions(fs)
  {
    ProvisionSharesOneBundle(e, w, name, hostname, fs);
    assert forall i :: 0 <= i < |gs| ==> gs[i].rules == fs[i].rules;
    if NoMatchingConditions(fs) {
      forall g, r | g in gs && r in g.rules ensures r.matchingCondition == "" {
        var i :| 0 <= i < |gs| && gs[i] == g;
        assert fs[i] in fs && r in fs[i].rules;
      }
    }
    if NoMatchingConditions(gs) {
      forall f, r | f in fs && r in f.rules ensures r.matchingCondition == "" {
        var i :| 0 <= i < |fs| && fs[i] == f;
        assert gs[i] in gs && r in gs[i].rules;
      }
    }
  }

  // The created load balancer stores its request with the certificates filled in.
  lemma MadeStoresRequest(e: Env, w: World, s: Service, nodes: seq<Node>, clusterName: string, lb: LoadBalancer)
    returns (w2: World, certified: seq<Frontend>)
    requires Consistent(w) && CreateRun(e, w, s, nodes, clusterName).1 == Made(lb)
    ensures var d := RequestFromService(e, w, s, nodes, clusterName).1;
            && d.Some?
            && lb == NewLoadBalancer(e, w.issued, d.value.(frontends := certified), OwnerOf(s))
            && Provision(e, w2, CertBundleName(LoadBalancerGeneratedName(lb)), lb.dnsName, d.value.frontends).1 == Ok(certified)
            && Provision(e, w2, CertBundleName(LoadBalancerGeneratedName(lb)), lb.dnsName, d.value.frontends).0.bundles
               == CreateRun(e, w, s, nodes, clusterName).0.bundles
  {
    RequestKeepsWorld(e, w, s, nodes, clusterName);
    var (w1, desired) := RequestFromService(e, w, s, nodes, clusterName);
    var d := desired.value;
    var first := Stored(e, w, d, s);
    w2 := CreateLoadBalancer(e, w1, d.(frontends := []), OwnerOf(s)).0;
    var name := CertBundleName(LoadBalancerGeneratedName(first));
    var (w3, fs) := Provision(e, w2, name, first.dnsName, d.frontends);
    ProvisionSharesOneBundle(e, w2, name, first.dnsName, d.frontends);
    certified := fs.value;
    AddAndRefreshEffects(e, w3, first, certified);
    assert [] + certified == certified;
  }

  // A load balancer that was created without an error is up to date at once: an update with the same
  // inputs changes nothing, exactly when it has a private network and the conversion loses nothing.
  lemma CreateThenUpdate(e: Env, w: World, s: Service, nodes: seq<Node>, clusterName: string, lb: LoadBalancer,
                         e2: Env, v: World, v1: World, res: UpdateResult)
    requires Consistent(w) && CreateRun(e, w, s, nodes, clusterName).1 == Made(lb)
    requires e2 == e.(faults := e2.faults) && forall n :: n >= v.calls ==> e2.faults(n).Fine?
    requires v.bundles == CreateRun(e, w, s, nodes, clusterName).0.bundles
    requires UpdateRun(e2, v, lb, s, nodes, clusterName, v1, res)
    requires RequestFromService(e, w, s, nodes, clusterName).1.Some? ==>
               var d := RequestFromService(e, w, s, nodes, clusterName).1.value;
               Shape.Unambiguous(d) && NamedBackendTls(d.backends)
    ensures var d := RequestFromService(e, w, s, nodes, clusterName).1;
            && d.Some?
            && (res == NoChange <==>
                PrivateNetworkOf(lb).Some? && NoMatchingConditions(d.value.frontends) && BackendTlsInPlace(d.value.backends))
            && (res == NoChange ==> v1.lbs == v.lbs && v1.bundles == v.bundles)
  {
    var w2, certified := MadeStoresRequest(e, w, s, nodes, clusterName, lb);
    var d := RequestFromService(e, w, s, nodes, clusterName).1.value;
    if PrivateNetworkOf(lb).Some? {
      var d' := d.(frontends := certified);
      CertifiedFrontends(e, w2, CertBundleName(LoadBalancerGeneratedName(lb)), lb.dnsName, d.frontends, certified);
      ProvisionedUnambiguous(e, w2, CertBundleName(LoadBalancerGeneratedName(lb)), lb.dnsName, d);
      DesiredAgain(e, w, s, nodes, clusterName, lb, w2, certified, e2, v);
      LabelsOfRequest(e, w, s, nodes, clusterName);
      StoredIsReached(lb, d', e2, DesiredWithCertificates(e2, v, lb, s, nodes, clusterName).0, v1, res);
    }
  }

  lemma {:induction false} DesiredAgain(e: Env, w: World, s: Service, nodes: seq<Node>, clusterName: string, lb: LoadBalancer,
                                        w2: World, certified: seq<Frontend>, e2: Env, v: World)
    requires e2 == e.(faults := e2.faults) && forall n :: n >= v.calls ==> e2.faults(n).Fine?
    requires RequestFromService(e, w, s, nodes, clusterName).1.Some? && PrivateNetworkOf(lb).Some?
    requires var d := RequestFromService(e, w, s, nodes, clusterName).1.value;
             && lb.networks == d.networks && lb.zone == d.zone
             && Provision(e, w2, CertBundleName(LoadBalancerGeneratedName(lb)), lb.dnsName, d.frontends).1 == Ok(certified)
             && Provision(e, w2, CertBundleName(LoadBalancerGeneratedName(lb)), lb.dnsName, d.frontends).0.bundles == v.bundles
    ensures var d := RequestFromService(e, w, s, nodes, clusterName).1.value;
            var (v1, again) := DesiredWithCertificates(e2, v, lb, s, nodes, clusterName);
            again == Some(d.(frontends := certified)) && v1.lbs == v.lbs && v1.bundles == v.bundles
  {
    var d := RequestFromService(e, w, s, nodes, clusterName).1.value;
    DesiredFromCreated(e.settings, s, nodes, e.plans, clusterName, e.site.value.network, e.site.value.zone, lb);
    ProvisionSettles(e, w2, LoadBalancerGeneratedName(lb), lb.dnsName, d.frontends, e2, Called(v));
  }

  // A load balancer that stores the desired request needs no PUT, unless the conversion loses something.
  lemma StoredIsReached(lb: LoadBalancer, d: Request, e: Env, w: World, w1: World, res: UpdateResult)
    requires Stores(lb, d) && Shape.Unambiguous(d) && NamedBackendTls(d.backends) && d.labels != []
    requires Reconciled(e, w, lb, d, w1, res)
    ensures res == NoChange <==> NoMatchingConditions(d.frontends) && BackendTlsInPlace(d.backends)
    ensures res == NoChange ==> w1 == w
  {
    assert Replaced(lb, d) == lb;
    NextUpdate(lb, d, true, d, e, w, w1, res);
  }

  lemma LabelsOfRequest(e: Env, w: World, s: Service, nodes: seq<Node>, clusterName: string)
    requires RequestFromService(e, w, s, nodes, clusterName).1.Some?
    ensures RequestFromService(e, w, s, nodes, clusterName).1.value.labels != []
  {
  }
}
