// What the controller's entry points do, ensure, update and delete, on a service object whose
// annotations say which load balancer is its own.
module Manager {
  import opened Wrappers
  import opened Sorting
  import opened Config
  import opened Nodes
  import opened Services
  import opened DesiredState
  import opened Conversion
  import opened Cloud
  import opened Update
  import opened Creation
  import opened Deletion

  // The annotation with the load balancer ID: absent, not an ID (or the all-zero one), or one.
  datatype IdAnnotation = NoId | BadId | Id(uuid: Uuid)

  // A service with the two annotations that the controller writes.
  datatype KubeService = KubeService(spec: Service, id: IdAnnotation, lbName: Option<string>)

  // configuredClusterName
  function ClusterName(c: Settings, given: string): string {
    if c.clusterName != "" then c.clusterName else given
  }

  datatype LookupError = Missing | LookupFailed

  function TheOnly(ids: set<Uuid>): (id: Uuid)
    requires |ids| == 1
    ensures ids == {id}
  {
    OnlyOne(ids);
    var id :| id in ids;
    id
  }

  lemma OnlyOne(ids: set<Uuid>)
    requires |ids| == 1
    ensures forall x, y :: x in ids && y in ids ==> x == y
    ensures forall x :: x in ids ==> ids == {x}
  {
    forall x, y | x in ids && y in ids ensures x == y {
      assert |ids - {x}| == 0;
      assert ids - {x} == {};
      assert y == x || y in ids - {x};
    }
  }

  // GetLoadBalancer of the service: by ID, or else by labels with the name annotation.
  function Lookup(e: Env, w: World, k: KubeService, clusterName: string): (World, Result<LoadBalancer, LookupError>) {
    if k.id.Id? then
      var (w1, r) := GetLoadBalancer(e, w, k.id.uuid);
      (w1, if r.Ok? then Ok(r.value) else Err(if r.error.NotFound? then Missing else LookupFailed))
    else
      var name := if k.lbName.Some? then k.lbName.value else "";
      var (w1, r) := ListLoadBalancers(e, w, e.settings.clusterId, clusterName, name);
      (w1, if r.Err? then Err(LookupFailed)
           else if |r.value| == 0 then Err(Missing)
           else if |r.value| > 1 then Err(LookupFailed)
           else Ok(w.lbs[TheOnly(r.value)]))
  }

  // The nodes in scope: selected by the controller, then by the service; None for a selector that
  // cannot be parsed.
  function SelectedNodes(e: Env, s: Service, nodes: seq<Node>): Option<seq<Node>> {
    var selected := Filter(Matches(e.nodeSelector), nodes);
    if selected == [] then Some([])
    else if s.selector.BadSelector? then None
    else Some(Filter(Matches(Some(s.selector.matches)), selected))
  }

  // Ensure applies the limit, if any nodes are left; update does not.
  function EnsuredNodes(e: Env, s: Service, nodes: seq<Node>): Option<seq<Node>> {
    match SelectedNodes(e, s, nodes)
    case None => None
    case Some(selected) => if selected == [] then Some([]) else LimitResult(e.settings.maxBackendMembers, selected)
  }

  // How an ensure or update ends: with a status, with a request to come back later, or with an error.
  datatype EnsureResult = Ready | Retry | EnsureFailed

  // Recording the load balancer in the annotations; a lost patch has taken effect.
  function PatchService(e: Env, w: World, k: KubeService, lb: LoadBalancer): (World, KubeService, bool) {
    (Called(w),
     if e.faults(w.calls).Refused? then k else k.(id := Id(lb.uuid), lbName := Some(lb.name)),
     e.faults(w.calls).Fine?)
  }

  // ensureExistingLoadBalancer
  ghost predicate EnsureExisting(e: Env, w: World, lb: LoadBalancer, k: KubeService, nodes: seq<Node>, clusterName: string,
                                 w': World, res: EnsureResult)
  {
    if !lb.running then w' == w && res == Retry
    else exists w1, u :: UpdateRun(e, w, lb, k.spec, nodes, clusterName, w1, u) && AfterUpdate(e, w1, k, clusterName, u, w', res)
  }

  // After a PUT the load balancer is fetched again for its status.
  ghost predicate AfterUpdate(e: Env, w: World, k: KubeService, clusterName: string, u: UpdateResult, w': World, res: EnsureResult) {
    match u
    case NoChange => w' == w && res == Ready
    case Changed(_) => w' == Lookup(e, w, k, clusterName).0
                       && res == if Lookup(e, w, k, clusterName).1.Ok? then Ready else Retry
    case _ => w' == w && res == EnsureFailed
  }

  // ensureNewLoadBalancer
  function EnsureNew(e: Env, w: World, k: KubeService, nodes: seq<Node>, clusterName: string): (World, KubeService, EnsureResult) {
    var (w1, outcome) := CreateRun(e, w, k.spec, nodes, clusterName);
    var (lb, ok) := Returned(outcome);
    var (w2, k2, patched) := if lb.Some? && k.id.NoId? then PatchService(e, w1, k, lb.value) else (w1, k, true);
    (w2, k2, if !ok || !patched then EnsureFailed else if lb.value.running then Ready else Retry)
  }

  // EnsureLoadBalancer
  ghost predicate EnsureRun(e: Env, w: World, k: KubeService, nodes: seq<Node>, given: string,
                            w': World, k': KubeService, res: EnsureResult)
  {
    var clusterName := ClusterName(e.settings, given);
    var (w1, found) := Lookup(e, w, k, clusterName);
    if found == Err(LookupFailed) then w' == w1 && k' == k && res == EnsureFailed
    else match EnsuredNodes(e, k.spec, nodes)
      case None => w' == w1 && k' == k && res == EnsureFailed
      case Some(ns) =>
        if found.Ok? then k' == k && EnsureExisting(e, w1, found.value, k, ns, clusterName, w', res)
        else (w', k', res) == EnsureNew(e, w1, k, ns, clusterName)
  }

  // UpdateLoadBalancer of the manager
  ghost predicate UpdateHostsRun(e: Env, w: World, k: KubeService, nodes: seq<Node>, given: string, w': World, ok: bool) {
    var clusterName := ClusterName(e.settings, given);
    var (w1, found) := Lookup(e, w, k, clusterName);
    if found.Err? then w' == w1 && !ok
    else match SelectedNodes(e, k.spec, nodes)
      case None => w' == w1 && !ok
      case Some(ns) => exists u :: UpdateRun(e, w1, found.value, k.spec, ns, clusterName, w', u) && ok == (u.NoChange? || u.Changed?)
  }

  // EnsureLoadBalancerDeleted
  function EnsureDeletedRun(e: Env, w: World, k: KubeService, given: string): (World, bool) {
    var (w1, found) := Lookup(e, w, k, ClusterName(e.settings, given));
    match found
    case Err(x) => (w1, x.Missing?)
    case Ok(lb) => DeleteRun(e, w1, lb)
  }

  // ----- what a lookup tells -----

  function NameAnnotation(k: KubeService): string {
    if k.lbName.Some? then k.lbName.value else ""
  }

  // The load balancer is there, and it is the one of that ID; without an ID, the only one with the labels.
  ghost predicate IsOwn(e: Env, w: World, k: KubeService, clusterName: string, lb: LoadBalancer) {
    exists id :: && id in w.lbs && w.lbs[id] == lb
                 && if k.id.Id? then id == k.id.uuid
                    else Matching(w, e.settings.clusterId, clusterName, NameAnnotation(k)) == {id}
  }

  ghost predicate HasNone(e: Env, w: World, k: KubeService, clusterName: string) {
    if k.id.Id? then k.id.uuid !in w.lbs
    else Matching(w, e.settings.clusterId, clusterName, NameAnnotation(k)) == {}
  }

  lemma LookupFinds(e: Env, w: World, k: KubeService, clusterName: string)
    ensures var (w1, r) := Lookup(e, w, k, clusterName);
            && w1 == Called(w)
            && (r.Ok? ==> IsOwn(e, w, k, clusterName, r.value))
            && (r == Err(Missing) ==> HasNone(e, w, k, clusterName))
            && (e.faults(w.calls).Fine? && HasNone(e, w, k, clusterName) ==> r == Err(Missing))
  {
  }
}
