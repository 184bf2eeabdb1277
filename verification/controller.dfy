// The controller as it runs: the entry points, with what their callers can rely on.
module Controllers {
  import opened Wrappers
  import opened Sorting
  import opened Nodes
  import opened Services
  import opened Conversion
  import opened Cloud
  import opened Update
  import opened Creation
  import opened Deletion
  import opened Manager
  import opened Ownership
  import opened Counting
  import opened Runs
  import opened Outcomes

  // ----- what the handlers promise -----

  // A node is in scope if both selectors match.
  ghost predicate InScope(e: Env, s: Service, n: Node) {
    (e.nodeSelector.Some? ==> (e.nodeSelector.value)(n.labels)) && (s.selector.NodeSelector? ==> (s.selector.matches)(n.labels))
  }

  lemma SelectedAreInScope(e: Env, s: Service, nodes: seq<Node>)
    ensures var r := SelectedNodes(e, s, nodes);
            && (r.None? <==> s.selector.BadSelector? && exists n :: n in nodes && Matches(e.nodeSelector)(n))
            && (r.Some? ==> forall n :: n in r.value <==> n in nodes && InScope(e, s, n))
  {
    var selected := Filter(Matches(e.nodeSelector), nodes);
    forall n ensures n in selected <==> n in nodes && Matches(e.nodeSelector)(n) {
      FilterMember(Matches(e.nodeSelector), nodes, n);
    }
    if selected != [] {
      assert selected[0] in selected;
      if s.selector.NodeSelector? {
        var p := Matches(Some(s.selector.matches));
        forall n ensures n in Filter(p, selected) <==> n in selected && p(n) {
          FilterMember(p, selected, n);
        }
      }
    }
  }

  // ----- the handlers -----

  // The controller; the service object is the one that the Kubernetes API stores.
  class Controller {
    const cloud: UpCloud
    var service: KubeService

    constructor (cloud: UpCloud, service: KubeService)
      ensures this.cloud == cloud && this.service == service
    {
      this.cloud, this.service := cloud, service;
    }

    method GetLoadBalancer(clusterName: string) returns (r: Result<LoadBalancer, LookupError>)
      modifies cloud
      ensures (cloud.world, r) == Lookup(cloud.env, old(cloud.world), service, clusterName)
      ensures cloud.world == Called(old(cloud.world))
      ensures r.Ok? ==> IsOwn(cloud.env, cloud.world, service, clusterName, r.value)
      ensures r == Err(Missing) ==> HasNone(cloud.env, cloud.world, service, clusterName)
    {
      LookupFinds(cloud.env, cloud.world, service, clusterName);
      if service.id.Id? {
        var byId := cloud.Get(service.id.uuid);
        if byId.Err? {
          return Err(if byId.error.NotFound? then Missing else LookupFailed);
        }
        return Ok(byId.value);
      }
      var name := if service.lbName.Some? then service.lbName.value else "";
      var ids := cloud.List(cloud.env.settings.clusterId, clusterName, name);
      if ids.Err? {
        return Err(LookupFailed);
      }
      if |ids.value| == 0 {
        return Err(Missing);
      }
      if |ids.value| > 1 {
        return Err(LookupFailed);
      }
      return Ok(cloud.world.lbs[TheOnly(ids.value)]);
    }

    method SelectNodes(nodes: seq<Node>) returns (r: Option<seq<Node>>)
      ensures r == SelectedNodes(cloud.env, service.spec, nodes)
      ensures r.None? <==> service.spec.selector.BadSelector? && exists n :: n in nodes && Matches(cloud.env.nodeSelector)(n)
      ensures r.Some? ==> forall n :: n in r.value <==> n in nodes && InScope(cloud.env, service.spec, n)
    {
      SelectedAreInScope(cloud.env, service.spec, nodes);
      var selected := SelectNodesByLabels(nodes, cloud.env.nodeSelector);
      if |selected| == 0 {
        return Some([]);
      }
      if service.spec.selector.BadSelector? {
        return None;
      }
      selected := SelectNodesByLabels(selected, Some(service.spec.selector.matches));
      return Some(selected);
    }

    method EnsureLoadBalancer(given: string, nodes: seq<Node>) returns (res: EnsureResult)
      modifies this, cloud
      ensures EnsureRun(cloud.env, old(cloud.world), old(service), nodes, given, cloud.world, service, res)
      ensures old(Tracked(cloud.world, service)) ==>
                && (Tracked(cloud.world, service) <==> !LosesReference(cloud.env, old(cloud.world), old(service), nodes, given))
                && OthersUntouched(old(cloud.world), cloud.world, OwnerOf(service.spec))
                && |Owned(cloud.world, OwnerOf(service.spec))| <= 1
                && (res != EnsureFailed ==> Tracked(cloud.world, service))
    {
      res := RunEnsure(given, nodes);
      if old(Tracked(cloud.world, service)) {
        if res != EnsureFailed {
          NotFailedIsTracked(cloud.env, old(cloud.world), old(service), nodes, given, cloud.world, service, res);
        }
        EnsureStaysTracked(cloud.env, old(cloud.world), old(service), nodes, given, cloud.world, service, res);
      }
    }

    method RunEnsure(given: string, nodes: seq<Node>) returns (res: EnsureResult)
      modifies this, cloud
      ensures EnsureRun(cloud.env, old(cloud.world), old(service), nodes, given, cloud.world, service, res)
    {
      var clusterName := if cloud.env.settings.clusterName != "" then cloud.env.settings.clusterName else given;
      var found := GetLoadBalancer(clusterName);
      if found.Err? && found.error.LookupFailed? {
        return EnsureFailed;
      }
      var selected := SelectNodes(nodes);
      if selected.None? {
        return EnsureFailed;
      }
      var ns := selected.value;
      if |ns| > 0 {
        var limited := LimitNodes(cloud.env.settings.maxBackendMembers, ns);
        if limited.None? {
          return EnsureFailed;
        }
        ns := limited.value;
      }
      if found.Ok? {
        res := EnsureExistingLoadBalancer(clusterName, ns, found.value);
      } else {
        res := EnsureNewLoadBalancer(clusterName, ns);
      }
    }

    method EnsureExistingLoadBalancer(clusterName: string, nodes: seq<Node>, lb: LoadBalancer) returns (res: EnsureResult)
      modifies cloud
      ensures EnsureExisting(cloud.env, old(cloud.world), lb, service, nodes, clusterName, cloud.world, res)
      ensures !lb.running ==> res == Retry && cloud.world == old(cloud.world)
      ensures lb.running && Consistent(old(cloud.world)) && lb.uuid in old(cloud.world).lbs && old(cloud.world).lbs[lb.uuid] == lb ==>
                OnlyReplaced(old(cloud.world), cloud.world, lb.uuid)
    {
      if !lb.running {
        return Retry;
      }
      res := UpdateRunning(clusterName, nodes, lb);
      if Consistent(old(cloud.world)) && lb.uuid in old(cloud.world).lbs && old(cloud.world).lbs[lb.uuid] == lb {
        ExistingEffects(cloud.env, old(cloud.world), lb, service, nodes, clusterName, cloud.world, res);
      }
    }

    method UpdateRunning(clusterName: string, nodes: seq<Node>, lb: LoadBalancer) returns (res: EnsureResult)
      requires lb.running
      modifies cloud
      ensures EnsureExisting(cloud.env, old(cloud.world), lb, service, nodes, clusterName, cloud.world, res)
    {
      var u := UpdateLoadBalancer(cloud, lb, service.spec, nodes, clusterName);
      ghost var w1 := cloud.world;
      match u {
        case NoChange => res := Ready;
        case Changed(_) =>
          var refreshed := GetLoadBalancer(clusterName);
          res := if refreshed.Ok? then Ready else Retry;
        case Failed => res := EnsureFailed;
        case Crashed => res := EnsureFailed;
      }
      assert AfterUpdate(cloud.env, w1, service, clusterName, u, cloud.world, res);
    }

    method EnsureNewLoadBalancer(clusterName: string, nodes: seq<Node>) returns (res: EnsureResult)
      modifies this, cloud
      ensures (cloud.world, service, res) == EnsureNew(cloud.env, old(cloud.world), old(service), nodes, clusterName)
      ensures !old(service).id.NoId? ==> service == old(service)
      ensures var (w, outcome) := CreateRun(cloud.env, old(cloud.world), old(service).spec, nodes, clusterName);
              && (res != EnsureFailed <==> outcome.Made? && (old(service).id.NoId? ==> cloud.env.faults(w.calls).Fine?))
              && (res == Ready <==> res != EnsureFailed && outcome.lb.running)
              && (res != EnsureFailed && old(service).id.NoId? ==> service.id == Id(outcome.lb.uuid))
      ensures Consistent(old(cloud.world)) && NoneNameless(old(cloud.world)) ==>
                && OthersUntouched(old(cloud.world), cloud.world, OwnerOf(service.spec))
                && cloud.world.lbs.Keys <= old(cloud.world).lbs.Keys + {old(cloud.world).issued}
                && (service != old(service) ==> service.id == Id(old(cloud.world).issued) && old(cloud.world).issued in cloud.world.lbs)
    {
      NewOutcome(cloud.env, cloud.world, service, nodes, clusterName);
      res := CreateAndPatch(clusterName, nodes);
      if Consistent(old(cloud.world)) && NoneNameless(old(cloud.world)) {
        CreateKeepsOthers(cloud.env, old(cloud.world), old(service).spec, nodes, clusterName);
      }
    }

    method CreateAndPatch(clusterName: string, nodes: seq<Node>) returns (res: EnsureResult)
      modifies this, cloud
      ensures (cloud.world, service, res) == EnsureNew(cloud.env, old(cloud.world), old(service), nodes, clusterName)
    {
      var lb, ok := CreateLoadBalancerRun(cloud, service.spec, nodes, clusterName);
      if lb.Some? && service.id.NoId? {
        var patched := Patch(lb.value);
        ok := ok && patched;
      }
      res := if !ok then EnsureFailed else if lb.value.running then Ready else Retry;
    }

    // Both annotations are written, or none; the caller is told for sure only if the call was fine.
    method Patch(lb: LoadBalancer) returns (ok: bool)
      modifies this, cloud
      ensures cloud.world == old(cloud.world).(calls := old(cloud.world).calls + 1)
      ensures cloud.env.faults(old(cloud.world).calls).Refused? ==> service == old(service)
      ensures !cloud.env.faults(old(cloud.world).calls).Refused? ==>
                service.spec == old(service).spec && service.id == Id(lb.uuid) && service.lbName == Some(lb.name)
      ensures ok <==> cloud.env.faults(old(cloud.world).calls).Fine?
    {
      var p := PatchService(cloud.env, cloud.world, service, lb);
      cloud.world, service, ok := p.0, p.1, p.2;
    }

    method UpdateHosts(given: string, nodes: seq<Node>) returns (ok: bool)
      modifies cloud
      ensures UpdateHostsRun(cloud.env, old(cloud.world), service, nodes, given, cloud.world, ok)
      ensures old(Tracked(cloud.world, service)) ==>
                Tracked(cloud.world, service) && OthersUntouched(old(cloud.world), cloud.world, OwnerOf(service.spec))
      ensures old(Annotated(cloud.world, service)) && ok ==>
                && service.id.Id? && SelectedNodes(cloud.env, service.spec, nodes).Some?
                && BroughtUp(cloud.env, Called(old(cloud.world)), cloud.world, service.id.uuid, service.spec,
                             SelectedNodes(cloud.env, service.spec, nodes).value, ClusterName(cloud.env.settings, given))
    {
      ok := RunUpdateHosts(given, nodes);
      if old(Annotated(cloud.world, service)) {
        HostsOutcome(cloud.env, old(cloud.world), service, nodes, given, cloud.world, ok);
      }
      if old(Tracked(cloud.world, service)) {
        TrackedIsOwn(State(old(cloud.world), service));
        HostsCount(cloud.env, old(cloud.world), service, nodes, given, cloud.world, ok);
      }
    }

    method RunUpdateHosts(given: string, nodes: seq<Node>) returns (ok: bool)
      modifies cloud
      ensures UpdateHostsRun(cloud.env, old(cloud.world), service, nodes, given, cloud.world, ok)
    {
      var clusterName := if cloud.env.settings.clusterName != "" then cloud.env.settings.clusterName else given;
      var found := GetLoadBalancer(clusterName);
      if found.Err? {
        return false;
      }
      var selected := SelectNodes(nodes);
      if selected.None? {
        return false;
      }
      var u := UpdateLoadBalancer(cloud, found.value, service.spec, selected.value, clusterName);
      ok := u.NoChange? || u.Changed?;
    }

    method EnsureLoadBalancerDeleted(given: string) returns (ok: bool)
      modifies cloud
      ensures (cloud.world, ok) == EnsureDeletedRun(cloud.env, old(cloud.world), service, given)
      ensures old(Tracked(cloud.world, service)) ==>
                && OthersUntouched(old(cloud.world), cloud.world, OwnerOf(service.spec))
                && (ok ==> Owned(cloud.world, OwnerOf(service.spec)) == {})
      ensures HasNone(cloud.env, old(cloud.world), service, ClusterName(cloud.env.settings, given)) ==>
                cloud.world == Called(old(cloud.world)) && (ok <==> cloud.env.faults(old(cloud.world).calls).Fine?)
      ensures old(Annotated(cloud.world, service)) && Unhindered(cloud.env, old(cloud.world), service) ==> ok
    {
      if HasNone(cloud.env, cloud.world, service, ClusterName(cloud.env.settings, given)) {
        NothingToDelete(cloud.env, cloud.world, service, given);
      }
      if Annotated(cloud.world, service) && Unhindered(cloud.env, cloud.world, service) {
        DeleteGoesThrough(cloud.env, cloud.world, service, given);
      }
      if Tracked(cloud.world, service) {
        TrackedIsOwn(State(cloud.world, service));
        DeleteKeepsAnnotated(cloud.env, cloud.world, service, given);
        DeleteCounts(cloud.env, cloud.world, service, given);
      }
      ok := RunDelete(given);
    }

    method RunDelete(given: string) returns (ok: bool)
      modifies cloud
      ensures (cloud.world, ok) == EnsureDeletedRun(cloud.env, old(cloud.world), service, given)
    {
      var clusterName := if cloud.env.settings.clusterName != "" then cloud.env.settings.clusterName else given;
      var found := GetLoadBalancer(clusterName);
      if found.Err? {
        return found.error.Missing?;
      }
      ok := DeleteLoadBalancerRun(cloud, found.value);
    }
  }
}
