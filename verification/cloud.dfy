// The cloud API as an explicit state. Any call may fail: a refused call changes nothing, and
// a lost one takes effect although its caller sees an error.
//
// Which calls fail is fixed by a fault schedule, indexed by the number of the call. Statements
// about all schedules are therefore statements about failures at every step.
module Cloud {
  import opened Wrappers
  import opened Sorting
  import opened Config
  import opened Naming
  import opened Nodes
  import opened Services
  import opened DesiredState
  import opened Conversion

  datatype Bundle = Bundle(uuid: Uuid, name: string, dynamic: bool, hostnames: seq<string>)

  datatype Fault = Fine | Refused | Lost

  // What the controller can tell apart in an error: 404, 409, and everything else.
  datatype ApiError = NotFound | Conflict | OtherError

  // What does not change while the controller runs.
  datatype Env = Env(settings: Settings, nodeSelector: Selector, plans: map<string, Plan>, site: Option<Site>,
                     dnsName: Uuid -> string, startsRunning: Uuid -> bool, faults: nat -> Fault)

  // Zone and private network of the nodes, as server and zone details resolve them; without one
  // the node has no private interface.
  datatype Site = Site(zone: string, network: string)

  // Load balancers by identifier, certificate bundles as listed, the next unused identifier
  // and the number of calls made so far.
  datatype World = World(lbs: map<Uuid, LoadBalancer>, bundles: seq<Bundle>, issued: Uuid, calls: nat)

  // Identifiers are in use at most once and never reused, and names of bundles are unique.
  ghost predicate Consistent(w: World) {
    && w.issued > 0
    && (forall id :: id in w.lbs ==> 0 < id < w.issued && w.lbs[id].uuid == id)
    && (forall b :: b in w.bundles ==> 0 < b.uuid < w.issued)
    && (forall i, j :: 0 <= i < j < |w.bundles| ==> w.bundles[i].uuid != w.bundles[j].uuid)
    && (forall i, j :: 0 <= i < j < |w.bundles| ==> w.bundles[i].name != w.bundles[j].name)
  }

  function Called(w: World): World {
    w.(calls := w.calls + 1)
  }

  // A call whose only effect is to answer.
  function Ask(e: Env, w: World): (World, bool) {
    (Called(w), e.faults(w.calls).Fine?)
  }

  function GetLoadBalancer(e: Env, w: World, id: Uuid): (World, Result<LoadBalancer, ApiError>) {
    (Called(w), if !e.faults(w.calls).Fine? then Err(OtherError)
                else if id in w.lbs then Ok(w.lbs[id]) else Err(NotFound))
  }

  predicate HasLabel(lb: LoadBalancer, key: string, value: string) {
    Label(key, value) in lb.labels
  }

  // The label filter that identifies the load balancer of a service.
  predicate MatchesLabels(lb: LoadBalancer, clusterId: string, clusterName: string, generatedName: string) {
    && HasLabel(lb, CLUSTER_ID_LABEL, clusterId)
    && HasLabel(lb, CLUSTER_NAME_LABEL, clusterName)
    && HasLabel(lb, GENERATED_NAME_LABEL, generatedName)
  }

  function Matching(w: World, clusterId: string, clusterName: string, generatedName: string): set<Uuid> {
    set id | id in w.lbs && MatchesLabels(w.lbs[id], clusterId, clusterName, generatedName)
  }

  function ListLoadBalancers(e: Env, w: World, clusterId: string, clusterName: string, generatedName: string)
    : (World, Result<set<Uuid>, ApiError>)
  {
    (Called(w), if !e.faults(w.calls).Fine? then Err(OtherError)
                else Ok(Matching(w, clusterId, clusterName, generatedName)))
  }

  function NewLoadBalancer(e: Env, id: Uuid, r: Request, owner: Owner): LoadBalancer {
    LoadBalancer(id, r.name, r.plan, r.zone, r.networkUuid, r.configuredStatus, r.maintenanceDow, r.maintenanceTime,
                 r.networks, r.resolvers, r.labels, r.frontends, r.backends, r.ipAddresses,
                 e.dnsName(id), e.startsRunning(id), owner)
  }

  function CreateLoadBalancer(e: Env, w: World, r: Request, owner: Owner): (World, Result<LoadBalancer, ApiError>) {
    if e.faults(w.calls).Refused? then (Called(w), Err(OtherError))
    else
      var lb := NewLoadBalancer(e, w.issued, r, owner);
      (Called(w).(lbs := w.lbs[w.issued := lb], issued := w.issued + 1),
       if e.faults(w.calls).Lost? then Err(OtherError) else Ok(lb))
  }

  function CreateFrontend(e: Env, w: World, id: Uuid, f: Frontend): (World, Result<(), ApiError>) {
    if e.faults(w.calls).Refused? then (Called(w), Err(OtherError))
    else if id !in w.lbs then (Called(w), Err(NotFound))
    else
      (Called(w).(lbs := w.lbs[id := w.lbs[id].(frontends := w.lbs[id].frontends + [f])]),
       if e.faults(w.calls).Lost? then Err(OtherError) else Ok(()))
  }

  function HasOtherName(name: string): Frontend -> bool {
    (f: Frontend) => f.name != name
  }

  function DeleteFrontend(e: Env, w: World, id: Uuid, name: string): (World, Result<(), ApiError>) {
    if e.faults(w.calls).Refused? then (Called(w), Err(OtherError))
    else if id !in w.lbs || (forall f :: f in w.lbs[id].frontends ==> f.name != name) then (Called(w), Err(NotFound))
    else
      (Called(w).(lbs := w.lbs[id := w.lbs[id].(frontends := Filter(HasOtherName(name), w.lbs[id].frontends))]),
       if e.faults(w.calls).Lost? then Err(OtherError) else Ok(()))
  }

  function DeleteLoadBalancer(e: Env, w: World, id: Uuid): (World, Result<(), ApiError>) {
    if e.faults(w.calls).Refused? then (Called(w), Err(OtherError))
    else if id !in w.lbs then (Called(w), Err(NotFound))
    else
      (Called(w).(lbs := w.lbs - {id}), if e.faults(w.calls).Lost? then Err(OtherError) else Ok(()))
  }

  function ListBundles(e: Env, w: World): (World, Result<seq<Bundle>, ApiError>) {
    (Called(w), if e.faults(w.calls).Fine? then Ok(w.bundles) else Err(OtherError))
  }

  // Names of bundles are unique, whatever their type.
  function CreateBundle(e: Env, w: World, name: string, hostnames: seq<string>): (World, Result<Bundle, ApiError>) {
    if e.faults(w.calls).Refused? then (Called(w), Err(OtherError))
    else if exists b :: b in w.bundles && b.name == name then (Called(w), Err(OtherError))
    else
      var b := Bundle(w.issued, name, true, hostnames);
      (Called(w).(bundles := w.bundles + [b], issued := w.issued + 1),
       if e.faults(w.calls).Lost? then Err(OtherError) else Ok(b))
  }

  predicate FrontendUses(f: Frontend, bundle: Uuid) {
    exists t :: t in f.tlsConfigs && t.bundle == bundle
  }

  predicate BackendUses(b: Backend, bundle: Uuid) {
    exists t :: t in b.tlsConfigs && t.bundle == bundle
  }

  predicate Uses(lb: LoadBalancer, bundle: Uuid) {
    || (exists f :: f in lb.frontends && FrontendUses(f, bundle))
    || (exists b :: b in lb.backends && BackendUses(b, bundle))
  }

  predicate InUse(w: World, bundle: Uuid) {
    exists id :: id in w.lbs && Uses(w.lbs[id], bundle)
  }

  function HasOtherUuid(uuid: Uuid): Bundle -> bool {
    (b: Bundle) => b.uuid != uuid
  }

  // A bundle that a frontend or backend refers to cannot be deleted.
  function DeleteBundle(e: Env, w: World, uuid: Uuid): (World, Result<(), ApiError>) {
    if e.faults(w.calls).Refused? then (Called(w), Err(OtherError))
    else if forall b :: b in w.bundles ==> b.uuid != uuid then (Called(w), Err(NotFound))
    else if InUse(w, uuid) then (Called(w), Err(Conflict))
    else
      (Called(w).(bundles := Filter(HasOtherUuid(uuid), w.bundles)),
       if e.faults(w.calls).Lost? then Err(OtherError) else Ok(()))
  }

  function Kept(x: string, stored: string): string {
    if x == "" then stored else x
  }

  // The PUT body has no zone, network UUID or networks; empty values that are marked omitempty are
  // not sent and leave the stored ones alone.
  function Replaced(lb: LoadBalancer, body: Request): LoadBalancer {
    lb.(name := Kept(body.name, lb.name), plan := Kept(body.plan, lb.plan),
        configuredStatus := Kept(body.configuredStatus, lb.configuredStatus),
        maintenanceDow := Kept(body.maintenanceDow, lb.maintenanceDow),
        maintenanceTime := Kept(body.maintenanceTime, lb.maintenanceTime),
        resolvers := body.resolvers, labels := if body.labels == [] then lb.labels else body.labels,
        frontends := body.frontends, backends := body.backends, ipAddresses := body.ipAddresses)
  }

  function Put(e: Env, w: World, id: Uuid, body: Request): (World, Result<(), ApiError>) {
    if e.faults(w.calls).Refused? then (Called(w), Err(OtherError))
    else if id !in w.lbs then (Called(w), Err(NotFound))
    else
      (Called(w).(lbs := w.lbs[id := Replaced(w.lbs[id], body)]),
       if e.faults(w.calls).Lost? then Err(OtherError) else Ok(()))
  }

  // The API as the controller holds it.
  class UpCloud {
    const env: Env
    var world: World

    constructor (env: Env, world: World)
      ensures this.env == env && this.world == world
    {
      this.env, this.world := env, world;
    }

    method AskServer() returns (ok: bool)
      modifies this
      ensures (world, ok) == Ask(env, old(world))
    {
      var r := Ask(env, world);
      world, ok := r.0, r.1;
    }

    method Get(id: Uuid) returns (r: Result<LoadBalancer, ApiError>)
      modifies this
      ensures (world, r) == GetLoadBalancer(env, old(world), id)
    {
      var x := GetLoadBalancer(env, world, id);
      world, r := x.0, x.1;
    }

    method List(clusterId: string, clusterName: string, generatedName: string) returns (r: Result<set<Uuid>, ApiError>)
      modifies this
      ensures (world, r) == ListLoadBalancers(env, old(world), clusterId, clusterName, generatedName)
    {
      var x := ListLoadBalancers(env, world, clusterId, clusterName, generatedName);
      world, r := x.0, x.1;
    }

    method Create(q: Request, owner: Owner) returns (r: Result<LoadBalancer, ApiError>)
      modifies this
      ensures (world, r) == CreateLoadBalancer(env, old(world), q, owner)
    {
      var x := CreateLoadBalancer(env, world, q, owner);
      world, r := x.0, x.1;
    }

    method Delete(id: Uuid) returns (r: Result<(), ApiError>)
      modifies this
      ensures (world, r) == DeleteLoadBalancer(env, old(world), id)
    {
      var x := DeleteLoadBalancer(env, world, id);
      world, r := x.0, x.1;
    }

    method AddFrontend(id: Uuid, f: Frontend) returns (r: Result<(), ApiError>)
      modifies this
      ensures (world, r) == CreateFrontend(env, old(world), id, f)
    {
      var x := CreateFrontend(env, world, id, f);
      world, r := x.0, x.1;
    }

    method RemoveFrontend(id: Uuid, name: string) returns (r: Result<(), ApiError>)
      modifies this
      ensures (world, r) == DeleteFrontend(env, old(world), id, name)
    {
      var x := DeleteFrontend(env, world, id, name);
      world, r := x.0, x.1;
    }

    method Bundles() returns (r: Result<seq<Bundle>, ApiError>)
      modifies this
      ensures (world, r) == ListBundles(env, old(world))
    {
      var x := ListBundles(env, world);
      world, r := x.0, x.1;
    }

    method AddBundle(name: string, hostnames: seq<string>) returns (r: Result<Bundle, ApiError>)
      modifies this
      ensures (world, r) == CreateBundle(env, old(world), name, hostnames)
    {
      var x := CreateBundle(env, world, name, hostnames);
      world, r := x.0, x.1;
    }

    method RemoveBundle(uuid: Uuid) returns (r: Result<(), ApiError>)
      modifies this
      ensures (world, r) == DeleteBundle(env, old(world), uuid)
    {
      var x := DeleteBundle(env, world, uuid);
      world, r := x.0, x.1;
    }

    method Replace(id: Uuid, body: Request) returns (r: Result<(), ApiError>)
      modifies this
      ensures (world, r) == Put(env, old(world), id, body)
    {
      var x := Put(env, world, id, body);
      world, r := x.0, x.1;
    }
  }
}
