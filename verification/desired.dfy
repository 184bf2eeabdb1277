// The desired configuration of a service as a whole: defaults, labels and overlay.
module DesiredState {
  import opened Wrappers
  import opened Ordering
  import opened Sorting
  import opened Config
  import opened Naming
  import opened Nodes
  import opened Services
  import opened Builder
  import opened Overlays
  import opened Compare

  // The configuration of the controller.
  datatype Settings = Settings(clusterId: string, clusterName: string, plan: string, maxBackendMembers: int)

  // A lookup in a Go map: the zero plan when the name is missing.
  function PlanNamed(plans: map<string, Plan>, name: string): Plan {
    if name in plans then plans[name] else Plan("", 0)
  }

  function GeneratedName(c: Settings, s: Service, clusterName: string): string {
    LoadBalancerName(s.namespace, s.name, if c.clusterId != "" then c.clusterId else clusterName)
  }

  // The defaults with their labels, before the overlay.
  function Defaults(c: Settings, s: Service, nodes: seq<Node>, plans: map<string, Plan>, clusterName: string,
                    privateNetwork: string, zone: string): Request
  {
    var name := GeneratedName(c, s, clusterName);
    DefaultRequest(s, nodes, PlanNamed(plans, c.plan), privateNetwork, name, zone).(
      labels := RequestLabels(s, c.clusterId, clusterName, name))
  }

  function Desired(c: Settings, s: Service, nodes: seq<Node>, plans: map<string, Plan>, clusterName: string,
                   privateNetwork: string, zone: string): Result<Request, BuildError>
  {
    if s.policy.Local? && s.healthCheckNodePort == 0 then Err(UnsupportedConfiguration)
    else Merged(s, Defaults(c, s, nodes, plans, clusterName, privateNetwork, zone), plans)
  }

  // newCreateRequest, once the plans have been listed.
  method NewCreateRequest(c: Settings, s: Service, nodes: seq<Node>, plans: map<string, Plan>, clusterName: string,
                          privateNetwork: string, zone: string)
    returns (r: Result<CreateRequest, BuildError>)
    ensures match Desired(c, s, nodes, plans, clusterName, privateNetwork, zone)
            case Ok(d) => r.Ok? && fresh(r.value) && r.value.Value() == d
            case Err(e) => r == Err(e)
  {
    var name := LoadBalancerName(s.namespace, s.name, if c.clusterId != "" then c.clusterId else clusterName);
    var built := CreateLoadBalancerRequest(s, nodes, PlanNamed(plans, c.plan), privateNetwork, name, zone);
    if built.Err? {
      return Err(built.error);
    }
    var config := new CreateRequest(built.value.(labels := RequestLabels(s, c.clusterId, clusterName, name)));
    var e := MergeConfig(s, config, plans);
    if e.Some? {
      return Err(e.value);
    }
    r := Ok(config);
  }

  // ----- the generated name -----

  lemma {:induction false} GeneratedNameIsFirst(labels: seq<Label>)
    ensures var own := OfKey(LabelKey, labels, GENERATED_NAME_LABEL);
            GeneratedNameLabelValue(labels) == if own == [] then "" else own[0].value
  {
    if labels != [] {
      GeneratedNameIsFirst(labels[1..]);
    }
  }

  lemma {:induction false} OfKeyAppend<T>(key: T -> string, s: seq<T>, t: seq<T>, k: string)
    ensures OfKey(key, s + t, k) == OfKey(key, s, k) + OfKey(key, t, k)
  {
    if s == [] {
      assert s + t == t;
    } else {
      OfKeyAppend(key, s[1..], t, k);
      assert (s + t)[1..] == s[1..] + t;
    }
  }

  lemma OwnLabel(s: Service, clusterId: string, clusterName: string, name: string)
    ensures OfKey(LabelKey, RequestLabels(s, clusterId, clusterName, name), GENERATED_NAME_LABEL)
            == [Label(GENERATED_NAME_LABEL, name)]
  {
    var l := RequestLabels(s, clusterId, clusterName, name);
    assert CLUSTER_ID_LABEL[4] == 'c' && CLUSTER_NAME_LABEL[4] == 'c' && TRAFFIC_POLICY_LABEL[4] == 'e';
    assert GENERATED_NAME_LABEL[4] == 'g';
    assert l[1..][1..][1..][1..] == [];
    assert OfKey(LabelKey, l[1..][1..][1..], GENERATED_NAME_LABEL) == [];
    assert OfKey(LabelKey, l[1..][1..], GENERATED_NAME_LABEL) == [Label(GENERATED_NAME_LABEL, name)];
  }

  // The label with the generated name survives the merge exactly once, and it is the label
  // that is found again after the labels have been sorted: the certificate bundle of the load
  // balancer keeps its name whatever the user overrides.
  lemma {:induction false} GeneratedNameSurvives(c: Settings, s: Service, nodes: seq<Node>, plans: map<string, Plan>, clusterName: string,
                                                 privateNetwork: string, zone: string, sorted: seq<Label>)
    requires var d := Desired(c, s, nodes, plans, clusterName, privateNetwork, zone);
             d.Ok? && IsStableSort(ByKey(LabelKey), d.value.labels, sorted)
    ensures var d := Desired(c, s, nodes, plans, clusterName, privateNetwork, zone).value;
            var name := GeneratedName(c, s, clusterName);
            && OfKey(LabelKey, d.labels, GENERATED_NAME_LABEL) == [Label(GENERATED_NAME_LABEL, name)]
            && GeneratedNameLabelValue(d.labels) == GeneratedNameLabelValue(sorted) == name != ""
  {
    var d := Desired(c, s, nodes, plans, clusterName, privateNetwork, zone).value;
    var name := GeneratedName(c, s, clusterName);
    LoadBalancerNameBounds(s.namespace, s.name, if c.clusterId != "" then c.clusterId else clusterName);
    OwnLabel(s, c.clusterId, clusterName, name);
    if s.config.Decoded? {
      var user := s.config.overlay.labels;
      OfKeyAppend(LabelKey, user, RequestLabels(s, c.clusterId, clusterName, name), GENERATED_NAME_LABEL);
      NoneReserved(user);
    }
    GeneratedNameIsFirst(d.labels);
    GeneratedNameIsFirst(sorted);
    TiesAreOfKey(LabelKey, d.labels, Label(GENERATED_NAME_LABEL, name));
    TiesAreOfKey(LabelKey, sorted, Label(GENERATED_NAME_LABEL, name));
  }

  lemma {:induction false} NoneReserved(labels: seq<Label>)
    requires !HasReservedLabel(labels)
    ensures OfKey(LabelKey, labels, GENERATED_NAME_LABEL) == []
  {
    OfKeyMember(LabelKey, labels, GENERATED_NAME_LABEL);
    if OfKey(LabelKey, labels, GENERATED_NAME_LABEL) != [] {
      var l := OfKey(LabelKey, labels, GENERATED_NAME_LABEL)[0];
      assert l in labels && Reserved(l.key);
      assert false;
    }
  }

  // ----- plan propagation -----

  ghost predicate AllSessions(members: seq<Member>, sessions: int) {
    forall m :: m in members ==> m.maxSessions == sessions
  }

  lemma {:induction false} MembersHaveSessions(nodes: seq<Node>, port: int, sessions: int)
    ensures AllSessions(MembersOf(nodes, port, sessions), sessions)
  {
    forall m | m in MembersOf(nodes, port, sessions) ensures m.maxSessions == sessions {
      MembersAreAddresses(nodes, port, sessions, m);
    }
  }

  // Every member derived from a node carries the session limit of the plan that the final
  // request names, wherever that plan came from. Only members that the user lists keep theirs.
  lemma PlanPropagates(c: Settings, s: Service, nodes: seq<Node>, plans: map<string, Plan>, clusterName: string,
                       privateNetwork: string, zone: string)
    requires c.plan in plans && forall k :: k in plans ==> plans[k].name == k
    requires Desired(c, s, nodes, plans, clusterName, privateNetwork, zone).Ok?
    ensures var d := Desired(c, s, nodes, plans, clusterName, privateNetwork, zone).value;
            && d.plan in plans
            && forall b :: b in d.backends ==>
                 || (s.config.Decoded? && b.members != [] && exists u :: u in s.config.overlay.backends && u.members == b.members)
                 || AllSessions(b.members, plans[d.plan].maxSessions)
  {
    var r := Defaults(c, s, nodes, plans, clusterName, privateNetwork, zone);
    var d := Desired(c, s, nodes, plans, clusterName, privateNetwork, zone).value;
    forall b | b in r.backends ensures AllSessions(b.members, plans[r.plan].maxSessions) {
      var i :| 0 <= i < |s.ports| && b == BackendFor(s, nodes, plans[c.plan].maxSessions)(s.ports[i]);
      MembersHaveSessions(nodes, s.ports[i].nodePort, plans[c.plan].maxSessions);
    }
    if s.config.Decoded? {
      var o := s.config.overlay;
      var defaults := PlannedDefaults(r, Decode(o, r), plans).value;
      forall b | b in defaults ensures AllSessions(b.members, plans[d.plan].maxSessions) {
      }
      MergedMembers(s, o.backends, defaults, plans[d.plan].maxSessions);
    }
  }

  lemma MergedMembers(s: Service, backends: seq<Backend>, defaults: seq<Backend>, sessions: int)
    requires forall b :: b in defaults ==> AllSessions(b.members, sessions)
    ensures forall b :: b in MergedBackends(s, backends, defaults) ==>
              || (b.members != [] && exists u :: u in backends && u.members == b.members)
              || AllSessions(b.members, sessions)
  {
  }
}
