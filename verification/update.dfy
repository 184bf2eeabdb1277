// Bringing an existing load balancer to its desired state: derive the desired request, provide
// certificates, compare with the live configuration, and PUT the difference.
module Update {
  import opened Wrappers
  import opened Config
  import opened Naming
  import opened Nodes
  import opened Services
  import opened DesiredState
  import opened Compare
  import opened Conversion
  import opened Cloud
  import opened Certificates

  // How an update ends: nothing to do, a PUT because of a mismatch, an error, or the panic of
  // the conversion.
  datatype UpdateResult = NoChange | Changed(mismatch: Mismatch) | Failed | Crashed

  // The desired request with its certificates, or why there is none; and the calls made for it.
  function DesiredWithCertificates(e: Env, w: World, lb: LoadBalancer, s: Service, nodes: seq<Node>, clusterName: string)
    : (World, Option<Request>)
  {
    match PrivateNetworkOf(lb)
    case None => (w, None)
    case Some(network) =>
      var (w1, listed) := Ask(e, w);
      if !listed then (w1, None)
      else
        match Desired(e.settings, s, nodes, e.plans, clusterName, network.uuid, lb.zone)
        case Err(_) => (w1, None)
        case Ok(d) =>
          var (w2, fs) := Provision(e, w1, CertBundleName(LoadBalancerGeneratedName(lb)), lb.dnsName, d.frontends);
          (w2, if fs.Ok? then Some(d.(frontends := fs.value)) else None)
  }

  // One possible run of UpdateLoadBalancer on a fetched load balancer.
  ghost predicate UpdateRun(e: Env, w: World, lb: LoadBalancer, s: Service, nodes: seq<Node>, clusterName: string,
                            w': World, res: UpdateResult)
  {
    var (w1, desired) := DesiredWithCertificates(e, w, lb, s, nodes, clusterName);
    match desired
    case None => w' == w1 && res == Failed
    case Some(d) => Reconciled(e, w1, lb, d, w', res)
  }

  // Its second half. The rearranged request is the PUT body; with repeated names it is not unique.
  ghost predicate Reconciled(e: Env, w: World, lb: LoadBalancer, d: Request, w': World, res: UpdateResult) {
    match Converted(lb)
    case None => w' == w && res == Crashed
    case Some(live) => exists live', body, m :: Compared(live, d, live', body, m) && PutIfNeeded(e, w, lb, body, m, w', res)
  }

  ghost predicate PutIfNeeded(e: Env, w: World, lb: LoadBalancer, body: Request, m: Option<Mismatch>, w': World, res: UpdateResult) {
    if m.None? then w' == w && res == NoChange
    else w' == Put(e, w, lb.uuid, body).0 && res == if Put(e, w, lb.uuid, body).1.Ok? then Changed(m.value) else Failed
  }

  // The first half of UpdateLoadBalancer.
  method DesireWithCertificates(cloud: UpCloud, lb: LoadBalancer, s: Service, nodes: seq<Node>, clusterName: string)
    returns (r: Option<CreateRequest>)
    modifies cloud
    ensures cloud.world == DesiredWithCertificates(cloud.env, old(cloud.world), lb, s, nodes, clusterName).0
    ensures match DesiredWithCertificates(cloud.env, old(cloud.world), lb, s, nodes, clusterName).1
            case None => r.None?
            case Some(d) => r.Some? && fresh(r.value) && r.value.Value() == d
  {
    var network := PrivateNetworkOf(lb);
    if network.None? {
      return None;
    }
    var listed := cloud.AskServer();
    if !listed {
      return None;
    }
    var built := NewCreateRequest(cloud.env.settings, s, nodes, cloud.env.plans, clusterName, network.value.uuid, lb.zone);
    if built.Err? {
      return None;
    }
    var config := built.value;
    var provided := ProvideCertificates(cloud, lb, config);
    r := if provided then Some(config) else None;
  }

  method ProvideCertificates(cloud: UpCloud, lb: LoadBalancer, config: CreateRequest) returns (ok: bool)
    modifies cloud, config`frontends
    ensures var (w, r) := Provision(cloud.env, old(cloud.world), CertBundleName(LoadBalancerGeneratedName(lb)), lb.dnsName,
                                    old(config.frontends));
            && cloud.world == w && (ok <==> r.Ok?)
            && (ok ==> config.frontends == r.value && config.Value() == old(config.Value()).(frontends := r.value))
  {
    var list := config.frontends;
    var frontends := new Frontend[|list|](i requires 0 <= i < |list| => list[i]);
    assert frontends[..] == list;
    var err := AutoProvisionCertificates(cloud, lb, frontends);
    if err.Some? {
      return false;
    }
    config.frontends := frontends[..];
    ok := true;
  }

  // UpdateLoadBalancer of the service
  method UpdateLoadBalancer(cloud: UpCloud, lb: LoadBalancer, s: Service, nodes: seq<Node>, clusterName: string)
    returns (res: UpdateResult)
    modifies cloud
    ensures UpdateRun(cloud.env, old(cloud.world), lb, s, nodes, clusterName, cloud.world, res)
  {
    var config := DesireWithCertificates(cloud, lb, s, nodes, clusterName);
    if config.None? {
      return Failed;
    }
    var converted := LoadBalancerToCreateRequest(lb);
    if converted.None? {
      return Crashed;
    }
    res := ReplaceIfDifferent(cloud, lb, converted.value, config.value);
  }

  method ReplaceIfDifferent(cloud: UpCloud, lb: LoadBalancer, live: Request, config: CreateRequest) returns (res: UpdateResult)
    modifies cloud, config
    ensures exists live', m ::
              && Compared(live, old(config.Value()), live', config.Value(), m)
              && PutIfNeeded(cloud.env, old(cloud.world), lb, config.Value(), m, cloud.world, res)
  {
    var current := new CreateRequest(live);
    var notEqual := CreateRequestsEqual(current, config);
    assert Compared(live, old(config.Value()), current.Value(), config.Value(), notEqual);
    if notEqual.None? {
      res := NoChange;
    } else {
      var put := cloud.Replace(lb.uuid, config.Value());
      res := if put.Ok? then Changed(notEqual.value) else Failed;
    }
    assert PutIfNeeded(cloud.env, old(cloud.world), lb, config.Value(), notEqual, cloud.world, res);
  }
}
