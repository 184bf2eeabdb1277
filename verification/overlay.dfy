// Merging the configuration annotation of a service into the defaults derived from it.
module Overlays {
  import opened Wrappers
  import opened Sorting
  import opened Config
  import opened Naming
  import opened Services
  import opened Compare
  import Builder
  import Nodes

  const ACTION_USE_BACKEND := "use_backend"

  // The first item that has the name, as the merge loops find it.
  function FirstNamed<T>(key: T -> string, s: seq<T>, name: string): (r: Option<T>)
    ensures r.Some? ==> r.value in s && key(r.value) == name
    ensures r.None? ==> forall x :: x in s ==> key(x) != name
  {
    if s == [] then None
    else if key(s[0]) == name then Some(s[0])
    else FirstNamed(key, s[1..], name)
  }

  method FindNamed<T>(key: T -> string, s: seq<T>, name: string) returns (r: Option<T>)
    ensures r == FirstNamed(key, s, name)
  {
    for j := 0 to |s|
      invariant FirstNamed(key, s, name) == FirstNamed(key, s[j..], name)
    {
      if key(s[j]) == name {
        return Some(s[j]);
      }
    }
    return None;
  }

  function Filled(x: string, default: string): string {
    if x == "" then default else x
  }

  function FilledList<T>(s: seq<T>, default: seq<T>): seq<T> {
    if |s| == 0 then default else s
  }

  function FilledOption<T>(x: Option<T>, default: Option<T>): Option<T> {
    if x.None? then default else x
  }

  // ----- backends -----

  // sanitizeBackendProperties
  function Sanitized(s: Service, p: BackendProperties): BackendProperties {
    if s.policy.Local? && p.healthCheckUrl == "" && p.healthCheckType == "" then
      p.(healthCheckType := Builder.HEALTH_CHECK_HTTP, healthCheckUrl := Builder.HealthCheckUrl(s))
    else p
  }

  function SanitizedBackend(s: Service, b: Backend): Backend {
    if b.properties.Some? then b.(properties := Some(Sanitized(s, b.properties.value))) else b
  }

  function FilledBackend(b: Backend, defaults: seq<Backend>): Backend {
    match FirstNamed(BackendName, defaults, b.name)
    case None => b
    case Some(d) => Backend(b.name, Filled(b.resolver, d.resolver), FilledList(b.members, d.members),
                            FilledOption(b.properties, d.properties), FilledList(b.tlsConfigs, d.tlsConfigs))
  }

  function MergeOneBackend(s: Service, defaults: seq<Backend>, b: Backend): Backend {
    SanitizedBackend(s, FilledBackend(b, defaults))
  }

  function MergedBackend(s: Service, defaults: seq<Backend>): Backend -> Backend {
    (b: Backend) => MergeOneBackend(s, defaults, b)
  }

  // A single backend without a name stands for the single default.
  function NamedBackends(backends: seq<Backend>, defaults: seq<Backend>): seq<Backend> {
    if |backends| == 1 && |defaults| == 1 && backends[0].name == "" then
      [backends[0].(name := defaults[0].name)]
    else backends
  }

  function MergedBackends(s: Service, backends: seq<Backend>, defaults: seq<Backend>): seq<Backend> {
    if backends == [] then defaults
    else Map(MergedBackend(s, defaults), NamedBackends(backends, defaults))
  }

  method MergeBackend(backend: Backend, defaults: seq<Backend>, s: Service) returns (b: Backend)
    ensures b == MergeOneBackend(s, defaults, backend)
  {
    b := backend;
    var found := FindNamed(BackendName, defaults, backend.name);
    if found.Some? {
      var d := found.value;
      if backend.resolver == "" { b := b.(resolver := d.resolver); }
      if |backend.members| == 0 { b := b.(members := d.members); }
      if backend.properties.None? { b := b.(properties := d.properties); }
      if |backend.tlsConfigs| == 0 { b := b.(tlsConfigs := d.tlsConfigs); }
    }
    if b.properties.Some? {
      b := b.(properties := Some(Sanitized(s, b.properties.value)));
    }
  }

  // mergeLoadBalancerBackends
  method MergeLoadBalancerBackends(backends: seq<Backend>, defaults: seq<Backend>, s: Service)
    returns (r: seq<Backend>)
    ensures r == MergedBackends(s, backends, defaults)
  {
    if |backends| == 0 {
      return defaults;
    }
    r := backends;
    if |r| == 1 && |defaults| == 1 && r[0].name == "" {
      r := r[0 := r[0].(name := defaults[0].name)];
    }
    assert r == NamedBackends(backends, defaults);
    r := MergeEach(r, defaults, s);
  }

  method MergeEach(named: seq<Backend>, defaults: seq<Backend>, s: Service) returns (r: seq<Backend>)
    ensures r == Map(MergedBackend(s, defaults), named)
  {
    r := named;
    for i := 0 to |r|
      invariant |r| == |named|
      invariant forall k :: 0 <= k < i ==> r[k] == MergeOneBackend(s, defaults, named[k])
      invariant forall k :: i <= k < |r| ==> r[k] == named[k]
    {
      var merged := MergeBackend(r[i], defaults, s);
      r := r[i := merged];
    }
  }

  // ----- frontends -----

  function FilledFrontend(f: Frontend, defaults: seq<Frontend>): Frontend {
    match FirstNamed(FrontendName, defaults, f.name)
    case None => f
    case Some(d) => Frontend(f.name, Filled(f.mode, d.mode), if f.port == 0 then d.port else f.port,
                             Filled(f.defaultBackend, d.defaultBackend), FilledList(f.rules, d.rules),
                             FilledList(f.tlsConfigs, d.tlsConfigs), FilledOption(f.properties, d.properties),
                             FilledList(f.networks, d.networks))
  }

  function MergedFrontend(defaults: seq<Frontend>): Frontend -> Frontend {
    (f: Frontend) => FilledFrontend(f, defaults)
  }

  predicate UsesBackendAction(f: Frontend) {
    exists r, a :: r in f.rules && a in r.actions && a.kind == ACTION_USE_BACKEND
  }

  function NamedFrontends(frontends: seq<Frontend>, defaults: seq<Frontend>): seq<Frontend> {
    if |frontends| == 1 && |defaults| == 1 && frontends[0].name == "" then
      [frontends[0].(name := defaults[0].name)]
    else frontends
  }

  function MergedFrontends(frontends: seq<Frontend>, defaults: seq<Frontend>): Result<seq<Frontend>, BuildError> {
    if frontends == [] then Ok(defaults)
    else if exists f :: f in frontends && UsesBackendAction(f) then Err(UnsupportedConfiguration)
    else Ok(Map(MergedFrontend(defaults), NamedFrontends(frontends, defaults)))
  }

  method FillFrontend(frontend: Frontend, defaults: seq<Frontend>) returns (f: Frontend)
    ensures f == FilledFrontend(frontend, defaults)
  {
    f := frontend;
    var found := FindNamed(FrontendName, defaults, frontend.name);
    if found.Some? {
      var d := found.value;
      if frontend.mode == "" { f := f.(mode := d.mode); }
      if frontend.port == 0 { f := f.(port := d.port); }
      if frontend.defaultBackend == "" { f := f.(defaultBackend := d.defaultBackend); }
      if |frontend.rules| == 0 { f := f.(rules := d.rules); }
      if |frontend.tlsConfigs| == 0 { f := f.(tlsConfigs := d.tlsConfigs); }
      if frontend.properties.None? { f := f.(properties := d.properties); }
      if |frontend.networks| == 0 && |d.networks| > 0 { f := f.(networks := d.networks); }
    }
  }

  // mergeLoadBalancerFrontends
  method MergeLoadBalancerFrontends(frontends: seq<Frontend>, defaults: seq<Frontend>)
    returns (res: Result<seq<Frontend>, BuildError>)
    ensures res == MergedFrontends(frontends, defaults)
  {
    if |frontends| == 0 {
      return Ok(defaults);
    }
    var r := frontends;
    if |r| == 1 && |defaults| == 1 && r[0].name == "" {
      r := r[0 := r[0].(name := defaults[0].name)];
    }
    ghost var named := r;
    for i := 0 to |r|
      invariant |r| == |named| == |frontends|
      invariant forall k :: 0 <= k < i ==> r[k] == MergedFrontend(defaults)(named[k])
      invariant forall k :: i <= k < |r| ==> r[k] == named[k]
      invariant forall k :: 0 <= k < i ==> !UsesBackendAction(frontends[k])
    {
      var frontend := r[i];
      assert frontend.rules == frontends[i].rules;
      var filled := FillFrontend(frontend, defaults);
      r := r[i := filled];
      var found := HasBackendAction(frontend.rules);
      if found {
        assert frontends[i] in frontends && UsesBackendAction(frontends[i]);
        return Err(UnsupportedConfiguration);
      }
    }
    assert r == Map(MergedFrontend(defaults), named);
    res := Ok(r);
  }

  method HasBackendAction(rules: seq<Rule>) returns (found: bool)
    ensures found <==> exists r, a :: r in rules && a in r.actions && a.kind == ACTION_USE_BACKEND
  {
    for j := 0 to |rules|
      invariant forall k, l :: 0 <= k < j && 0 <= l < |rules[k].actions| ==> rules[k].actions[l].kind != ACTION_USE_BACKEND
    {
      for l := 0 to |rules[j].actions|
        invariant forall m :: 0 <= m < l ==> rules[j].actions[m].kind != ACTION_USE_BACKEND
      {
        if rules[j].actions[l].kind == ACTION_USE_BACKEND {
          assert rules[j] in rules && rules[j].actions[l] in rules[j].actions;
          return true;
        }
      }
    }
    return false;
  }

  // ----- the whole annotation -----

  function WithSessions(sessions: int): Member -> Member {
    (m: Member) => m.(maxSessions := sessions)
  }

  function BackendWithSessions(sessions: int): Backend -> Backend {
    (b: Backend) => b.(members := Map(WithSessions(sessions), b.members))
  }

  // updateCreateLoadBalancerRequestPlan
  method UpdatePlan(r: CreateRequest, plan: Plan)
    modifies r`backends
    ensures r.backends == Map(BackendWithSessions(plan.maxSessions), old(r.backends))
  {
    for i := 0 to |r.backends|
      invariant |r.backends| == |old(r.backends)|
      invariant forall k :: 0 <= k < i ==> r.backends[k] == BackendWithSessions(plan.maxSessions)(old(r.backends)[k])
      invariant forall k :: i <= k < |r.backends| ==> r.backends[k] == old(r.backends)[k]
    {
      ghost var members := r.backends[i].members;
      for y := 0 to |r.backends[i].members|
        invariant |r.backends| == |old(r.backends)|
        invariant r.backends[i] == old(r.backends)[i].(members := r.backends[i].members)
        invariant |r.backends[i].members| == |members|
        invariant forall k :: 0 <= k < y ==> r.backends[i].members[k] == WithSessions(plan.maxSessions)(members[k])
        invariant forall k :: y <= k < |members| ==> r.backends[i].members[k] == members[k]
        invariant forall k :: 0 <= k < i ==> r.backends[k] == BackendWithSessions(plan.maxSessions)(old(r.backends)[k])
        invariant forall k :: i < k < |r.backends| ==> r.backends[k] == old(r.backends)[k]
      {
        var b := r.backends[i];
        r.backends := r.backends[i := b.(members := b.members[y := b.members[y].(maxSessions := plan.maxSessions)])];
      }
      assert r.backends[i].members == Map(WithSessions(plan.maxSessions), members);
    }
  }

  function Overridden<T>(x: Option<T>, default: T): T {
    if x.Some? then x.value else default
  }

  // Decoding the annotation into a request whose lists have been emptied.
  function Decode(o: Overlay, r: Request): Request {
    Request(Overridden(o.name, r.name), Overridden(o.plan, r.plan), Overridden(o.zone, r.zone),
            Overridden(o.networkUuid, r.networkUuid), Overridden(o.configuredStatus, r.configuredStatus),
            Overridden(o.maintenanceDow, r.maintenanceDow), Overridden(o.maintenanceTime, r.maintenanceTime),
            o.networks, Overridden(o.resolvers, r.resolvers), o.labels, o.frontends, o.backends, o.ipAddresses)
  }

  predicate HasReservedLabel(labels: seq<Label>) {
    exists l :: l in labels && Reserved(l.key)
  }

  // The default backends under the plan that the decoded request names.
  function PlannedDefaults(r: Request, d: Request, plans: map<string, Plan>): Result<seq<Backend>, BuildError> {
    if d.plan == r.plan then Ok(r.backends)
    else if d.plan !in plans then Err(UnknownPlan)
    else Ok(Map(BackendWithSessions(plans[d.plan].maxSessions), r.backends))
  }

  function MergedOverlay(s: Service, o: Overlay, r: Request, plans: map<string, Plan>): Result<Request, BuildError> {
    var d := Decode(o, r);
    match PlannedDefaults(r, d, plans)
    case Err(e) => Err(e)
    case Ok(backends) =>
      match MergedFrontends(d.frontends, r.frontends)
      case Err(e) => Err(e)
      case Ok(frontends) =>
        if HasReservedLabel(d.labels) then Err(ForbiddenLabel)
        else Ok(d.(backends := MergedBackends(s, d.backends, backends), frontends := frontends,
                   labels := d.labels + r.labels, networks := FilledList(d.networks, r.networks)))
  }

  function Merged(s: Service, r: Request, plans: map<string, Plan>): Result<Request, BuildError> {
    match s.config
    case NoConfig => Ok(r)
    case Malformed => Err(UnsupportedConfiguration)
    case Null => Err(NilRequest)
    case Decoded(o) => MergedOverlay(s, o, r, plans)
  }

  // mergeLoadBalancerConfigFromServiceAnnotations; on an error the request is abandoned.
  method MergeConfig(s: Service, r: CreateRequest, plans: map<string, Plan>) returns (e: Option<BuildError>)
    modifies r
    ensures match Merged(s, old(r.Value()), plans)
            case Ok(merged) => e == None && r.Value() == merged
            case Err(error) => e == Some(error)
  {
    if s.config.NoConfig? {
      return None;
    }
    var defaults := new CreateRequest(r.Value());
    if s.config.Malformed? {
      return Some(UnsupportedConfiguration);
    }
    if s.config.Null? {
      return Some(NilRequest);
    }
    var d := Decode(s.config.overlay, r.Value());
    if d.plan != defaults.plan {
      if d.plan !in plans {
        return Some(UnknownPlan);
      }
      UpdatePlan(defaults, plans[d.plan]);
    }
    var backends := MergeLoadBalancerBackends(d.backends, defaults.backends, s);
    var frontends := MergeLoadBalancerFrontends(d.frontends, defaults.frontends);
    if frontends.Err? {
      return Some(frontends.error);
    }
    var valid := ValidateUserDefinedLabels(d.labels);
    if !valid {
      return Some(ForbiddenLabel);
    }
    r.Assign(d.(backends := backends, frontends := frontends.value, labels := d.labels + defaults.labels,
                networks := if |d.networks| == 0 then defaults.networks else d.networks));
    e := None;
  }

  // ----- properties of the merge -----

  lemma {:induction false} FirstNamedDistinct<T>(key: T -> string, s: seq<T>, x: T)
    requires DistinctKeys(key, s) && x in s
    ensures FirstNamed(key, s, key(x)) == Some(x)
  {
  }

  // The defaults of a service are already sanitised. The merge may let several backends share
  // the properties of one default, and sanitising writes through that sharing; so what it
  // writes never changes a default.
  lemma DefaultsAreSanitized(s: Service, nodes: seq<Nodes.Node>, sessions: int, p: Port)
    ensures var b := Builder.BackendFor(s, nodes, sessions)(p);
            b.properties.Some? && Sanitized(s, b.properties.value) == b.properties.value
  {
  }

  // Merging the merged backends with the same defaults again changes nothing.
  lemma BackendMergeIdempotent(s: Service, backends: seq<Backend>, defaults: seq<Backend>)
    requires DistinctKeys(BackendName, defaults)
    requires forall d :: d in defaults ==> SanitizedBackend(s, d) == d
    ensures MergedBackends(s, MergedBackends(s, backends, defaults), defaults) == MergedBackends(s, backends, defaults)
  {
    var once := MergedBackends(s, backends, defaults);
    if once != [] {
      var merge := MergedBackend(s, defaults);
      forall i | 0 <= i < |once| ensures merge(once[i]) == once[i] {
        if backends == [] {
          FirstNamedDistinct(BackendName, defaults, once[i]);
        }
      }
      assert Map(merge, once) == once;
      assert NamedBackends(once, defaults) == once;
    }
  }

  // The same for frontends; and no use_backend action survives a successful merge.
  lemma FrontendMergeIdempotent(frontends: seq<Frontend>, defaults: seq<Frontend>)
    requires DistinctKeys(FrontendName, defaults)
    requires forall d :: d in defaults ==> !UsesBackendAction(d)
    requires MergedFrontends(frontends, defaults).Ok?
    ensures var once := MergedFrontends(frontends, defaults);
            && MergedFrontends(once.value, defaults) == once
            && forall f :: f in once.value ==> !UsesBackendAction(f)
  {
    var once := MergedFrontends(frontends, defaults).value;
    var merge := MergedFrontend(defaults);
    var named := NamedFrontends(frontends, defaults);
    forall i | 0 <= i < |once| ensures merge(once[i]) == once[i] && !UsesBackendAction(once[i]) {
      if frontends == [] {
        FirstNamedDistinct(FrontendName, defaults, once[i]);
      } else {
        assert frontends[i] in frontends && named[i].rules == frontends[i].rules;
      }
    }
    assert Map(merge, once) == once;
    assert NamedFrontends(once, defaults) == once;
  }

  // ----- whose value wins -----

  // Position j holds the first item of that name.
  ghost predicate FirstAt<T>(key: T -> string, s: seq<T>, j: nat, name: string) {
    j < |s| && key(s[j]) == name && forall k :: 0 <= k < j ==> key(s[k]) != name
  }

  lemma {:induction false} FirstNamedAt<T>(key: T -> string, s: seq<T>, j: nat, name: string)
    requires FirstAt(key, s, j, name)
    ensures FirstNamed(key, s, name) == Some(s[j])
  {
    if j > 0 {
      assert key(s[0]) != name;
      assert forall k :: 0 <= k < |s[1..]| ==> s[1..][k] == s[k + 1];
      FirstNamedAt(key, s[1..], j - 1, name);
    }
  }

  // What the merge does to a name.
  function NameAfterMerge(name: string, count: nat, defaults: seq<string>): string {
    if name == "" && count == 1 && |defaults| == 1 then defaults[0] else name
  }

  // What the user sets stays, up to the health check that local traffic policy needs; what is empty
  // comes from the first default of that name, at position j.
  ghost predicate BackendRightBiased(s: Service, u: Backend, m: Backend, defaults: seq<Backend>, j: nat) {
    && (u.resolver != "" ==> m.resolver == u.resolver)
    && (u.members != [] ==> m.members == u.members)
    && (u.tlsConfigs != [] ==> m.tlsConfigs == u.tlsConfigs)
    && (u.properties.Some? ==> m.properties == Some(Sanitized(s, u.properties.value)))
    && (FirstAt(BackendName, defaults, j, m.name) ==>
          && (u.resolver == "" ==> m.resolver == defaults[j].resolver)
          && (u.members == [] ==> m.members == defaults[j].members)
          && (u.tlsConfigs == [] ==> m.tlsConfigs == defaults[j].tlsConfigs)
          && (u.properties.None? ==> m.properties == SanitizedBackend(s, defaults[j]).properties))
    && ((forall d :: d in defaults ==> d.name != m.name) ==> m == SanitizedBackend(s, u.(name := m.name)))
  }

  lemma MergeOneIsRightBiased(s: Service, u: Backend, defaults: seq<Backend>, j: nat)
    ensures BackendRightBiased(s, u, MergeOneBackend(s, defaults, u), defaults, j)
  {
    if FirstAt(BackendName, defaults, j, u.name) {
      FirstNamedAt(BackendName, defaults, j, u.name);
    }
  }

  // Backend by backend, in the order of the annotation.
  lemma {:induction false} BackendMergeIsRightBiased(s: Service, backends: seq<Backend>, defaults: seq<Backend>, i: nat, j: nat)
    requires i < |backends|
    ensures var merged := MergedBackends(s, backends, defaults);
            && |merged| == |backends|
            && merged[i].name == NameAfterMerge(backends[i].name, |backends|, Map(BackendName, defaults))
            && BackendRightBiased(s, backends[i], merged[i], defaults, j)
  {
    var named := NamedBackends(backends, defaults);
    MergeOneIsRightBiased(s, named[i], defaults, j);
    assert MergedBackends(s, backends, defaults)[i] == MergeOneBackend(s, defaults, named[i]);
  }

  ghost predicate FrontendRightBiased(u: Frontend, m: Frontend, defaults: seq<Frontend>, j: nat) {
    && (u.mode != "" ==> m.mode == u.mode)
    && (u.port != 0 ==> m.port == u.port)
    && (u.defaultBackend != "" ==> m.defaultBackend == u.defaultBackend)
    && (u.rules != [] ==> m.rules == u.rules)
    && (u.tlsConfigs != [] ==> m.tlsConfigs == u.tlsConfigs)
    && (u.properties.Some? ==> m.properties == u.properties)
    && (u.networks != [] ==> m.networks == u.networks)
    && (FirstAt(FrontendName, defaults, j, m.name) ==>
          && (u.mode == "" ==> m.mode == defaults[j].mode)
          && (u.port == 0 ==> m.port == defaults[j].port)
          && (u.defaultBackend == "" ==> m.defaultBackend == defaults[j].defaultBackend)
          && (u.rules == [] ==> m.rules == defaults[j].rules)
          && (u.tlsConfigs == [] ==> m.tlsConfigs == defaults[j].tlsConfigs)
          && (u.properties.None? ==> m.properties == defaults[j].properties)
          && (u.networks == [] ==> m.networks == defaults[j].networks))
    && ((forall d :: d in defaults ==> d.name != m.name) ==> m == u.(name := m.name))
  }

  lemma FillIsRightBiased(u: Frontend, defaults: seq<Frontend>, j: nat)
    ensures FrontendRightBiased(u, FilledFrontend(u, defaults), defaults, j)
  {
    if FirstAt(FrontendName, defaults, j, u.name) {
      FirstNamedAt(FrontendName, defaults, j, u.name);
    }
  }

  // The name that was given does not matter.
  lemma FrontendOwnName(u: Frontend, v: Frontend, m: Frontend, defaults: seq<Frontend>, j: nat)
    requires u == v.(name := u.name) && FrontendRightBiased(v, m, defaults, j)
    ensures FrontendRightBiased(u, m, defaults, j)
  {
  }

  // Frontend by frontend, in the order of the annotation.
  lemma {:induction false} FrontendMergeIsRightBiased(frontends: seq<Frontend>, defaults: seq<Frontend>, i: nat, j: nat)
    requires i < |frontends| && MergedFrontends(frontends, defaults).Ok?
    ensures var merged := MergedFrontends(frontends, defaults).value;
            && |merged| == |frontends|
            && merged[i].name == NameAfterMerge(frontends[i].name, |frontends|, Map(FrontendName, defaults))
            && FrontendRightBiased(frontends[i], merged[i], defaults, j)
  {
    var named := NamedFrontends(frontends, defaults);
    var m := FilledFrontend(named[i], defaults);
    assert MergedFrontends(frontends, defaults).value[i] == m;
    assert FrontendRightBiased(frontends[i], m, defaults, j) by {
      FillIsRightBiased(named[i], defaults, j);
      FrontendOwnName(frontends[i], named[i], m, defaults, j);
    }
  }
}
