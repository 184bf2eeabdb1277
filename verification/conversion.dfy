// The live load balancer, and its conversion back into a request for the comparison.
//
// Timestamps and other fields that only the API writes are not part of the model: the
// parts of a live load balancer therefore have the types of the parts of a request.
module Conversion {
  import opened Wrappers
  import opened Sorting
  import opened Config
  import opened Naming
  import Shape

  // The service that a load balancer was created for. No operation reads it: it is the
  // history that "at most one load balancer per service" is about.
  datatype Owner = Owner(namespace: string, name: string)

  datatype LoadBalancer = LoadBalancer(
    uuid: Uuid, name: string, plan: string, zone: string, networkUuid: string, configuredStatus: string,
    maintenanceDow: string, maintenanceTime: string,
    networks: seq<Network>, resolvers: seq<Resolver>, labels: seq<Label>,
    frontends: seq<Frontend>, backends: seq<Backend>, ipAddresses: seq<IpAddress>,
    dnsName: string, running: bool, owner: Owner)

  // loadBalancerGeneratedName
  function LoadBalancerGeneratedName(lb: LoadBalancer): string {
    var n := GeneratedNameLabelValue(lb.labels);
    if n != "" then n else lb.name
  }

  // loadBalancerPrivateNetwork
  function PrivateNetworkOf(lb: LoadBalancer): Option<Network> {
    match FirstPrivate(lb.networks, true)
    case Some(n) => Some(n)
    case None => FirstPrivate(lb.networks, false)
  }

  function FirstPrivate(networks: seq<Network>, byName: bool): Option<Network> {
    if networks == [] then None
    else if networks[0].kind.Private? && (byName ==> networks[0].name == NETWORK_PRIVATE) then Some(networks[0])
    else FirstPrivate(networks[1..], byName)
  }

  // The first network that is private, or private and of that name.
  ghost predicate FirstPrivateAt(networks: seq<Network>, byName: bool, i: nat) {
    && i < |networks| && IsPrivate(networks[i], byName)
    && forall k :: 0 <= k < i ==> !IsPrivate(networks[k], byName)
  }

  predicate IsPrivate(n: Network, byName: bool) {
    n.kind == Private && (byName ==> n.name == "private-IPv4")
  }

  lemma {:induction false} FirstPrivateFound(networks: seq<Network>, byName: bool, i: nat)
    ensures FirstPrivateAt(networks, byName, i) ==> FirstPrivate(networks, byName) == Some(networks[i])
    ensures (forall n :: n in networks ==> !IsPrivate(n, byName)) ==> FirstPrivate(networks, byName) == None
  {
    if networks != [] {
      assert networks[0] in networks;
      var rest := networks[1..];
      assert forall k :: 0 <= k < |rest| ==> rest[k] == networks[k + 1];
      FirstPrivateFound(rest, byName, if i == 0 then |networks| else i - 1);
      if i > 0 && FirstPrivateAt(networks, byName, i) {
        assert rest[i - 1] == networks[i] && !IsPrivate(networks[0], byName);
        forall k | 0 <= k < i - 1 ensures !IsPrivate(rest[k], byName) {
          assert !IsPrivate(networks[k + 1], byName);
        }
      }
    }
  }

  // The private network of the reserved name, or else the first private one, or none.
  lemma PrivateNetworkReads(lb: LoadBalancer, i: nat)
    ensures FirstPrivateAt(lb.networks, true, i) ==> PrivateNetworkOf(lb) == Some(lb.networks[i])
    ensures (forall n :: n in lb.networks ==> !IsPrivate(n, true)) && FirstPrivateAt(lb.networks, false, i) ==>
              PrivateNetworkOf(lb) == Some(lb.networks[i])
    ensures (forall n :: n in lb.networks ==> n.kind != Private) ==> PrivateNetworkOf(lb) == None
  {
    FirstPrivateFound(lb.networks, true, i);
    FirstPrivateFound(lb.networks, false, i);
  }

  // ----- the conversion -----

  // The matching condition of a rule is not carried over.
  function ConvertedRule(r: Rule): Rule {
    Rule(r.name, r.priority, "", r.matchers, r.actions)
  }

  function ConvertedFrontend(f: Frontend): Frontend {
    f.(rules := Map(ConvertedRule, f.rules))
  }

  // The inner loop of backend i writes every TLS config to position i instead of its own: the
  // last one ends up there, all other positions stay empty, and the write is out of range
  // when there are no more than i of them.
  function ConvertedBackendTls(i: nat, tls: seq<BackendTls>): Option<seq<BackendTls>> {
    if tls == [] then Some([])
    else if i < |tls| then Some(seq(|tls|, _ => BackendTls("", 0))[i := tls[|tls| - 1]])
    else None
  }

  function ConvertedBackend(i: nat, b: Backend): Option<Backend> {
    match ConvertedBackendTls(i, b.tlsConfigs)
    case None => None
    case Some(tls) => Some(b.(tlsConfigs := tls))
  }

  // Backends from position i on; None is the index-out-of-range panic.
  function ConvertedBackends(bs: seq<Backend>, i: nat): Option<seq<Backend>>
    requires i <= |bs|
    decreases |bs| - i
  {
    if i == |bs| then Some([])
    else match (ConvertedBackend(i, bs[i]), ConvertedBackends(bs, i + 1))
      case (Some(b), Some(rest)) => Some([b] + rest)
      case _ => None
  }

  function Converted(lb: LoadBalancer): Option<Request> {
    match ConvertedBackends(lb.backends, 0)
    case None => None
    case Some(backends) =>
      Some(Request(lb.name, lb.plan, lb.zone, lb.networkUuid, lb.configuredStatus, lb.maintenanceDow,
                   lb.maintenanceTime, lb.networks, lb.resolvers, lb.labels, Map(ConvertedFrontend, lb.frontends),
                   backends, lb.ipAddresses))
  }

  lemma {:induction false} ConvertedBackendsAt(bs: seq<Backend>, i: nat)
    requires i <= |bs|
    ensures ConvertedBackends(bs, i).None? <==> exists k :: i <= k < |bs| && ConvertedBackend(k, bs[k]).None?
    ensures ConvertedBackends(bs, i).Some? ==>
              && |ConvertedBackends(bs, i).value| == |bs| - i
              && forall k :: i <= k < |bs| ==> ConvertedBackend(k, bs[k]) == Some(ConvertedBackends(bs, i).value[k - i])
    decreases |bs| - i
  {
    if i < |bs| {
      ConvertedBackendsAt(bs, i + 1);
    }
  }

  method ConvertBackendTls(i: nat, tls: seq<BackendTls>) returns (r: Option<seq<BackendTls>>)
    ensures r == ConvertedBackendTls(i, tls)
  {
    var tlsConfigs := new BackendTls[|tls|](_ => BackendTls("", 0));
    for j := 0 to |tls|
      invariant j > 0 ==> i < |tls|
      invariant tlsConfigs[..] == if j == 0 then seq(|tls|, _ => BackendTls("", 0))
                                  else seq(|tls|, _ => BackendTls("", 0))[i := tls[j - 1]]
    {
      if i >= tlsConfigs.Length {
        return None;
      }
      tlsConfigs[i] := BackendTls(tls[j].name, tls[j].bundle);
    }
    r := Some(tlsConfigs[..]);
  }

  // loadBalancerToCreateRequest; None is an index-out-of-range panic.
  method LoadBalancerToCreateRequest(lb: LoadBalancer) returns (r: Option<Request>)
    ensures r == Converted(lb)
  {
    var frontends: seq<Frontend> := [];
    for i := 0 to |lb.frontends|
      invariant |frontends| == i
      invariant forall k :: 0 <= k < i ==> frontends[k] == ConvertedFrontend(lb.frontends[k])
    {
      var rules: seq<Rule> := [];
      for j := 0 to |lb.frontends[i].rules|
        invariant |rules| == j
        invariant forall k :: 0 <= k < j ==> rules[k] == ConvertedRule(lb.frontends[i].rules[k])
      {
        var rule := lb.frontends[i].rules[j];
        rules := rules + [Rule(rule.name, rule.priority, "", rule.matchers, rule.actions)];
      }
      assert rules == Map(ConvertedRule, lb.frontends[i].rules);
      frontends := frontends + [lb.frontends[i].(rules := rules)];
    }
    assert frontends == Map(ConvertedFrontend, lb.frontends);
    ConvertedBackendsAt(lb.backends, 0);
    var backends: seq<Backend> := [];
    for i := 0 to |lb.backends|
      invariant |backends| == i
      invariant forall k :: 0 <= k < i ==> ConvertedBackend(k, lb.backends[k]) == Some(backends[k])
    {
      var tlsConfigs := ConvertBackendTls(i, lb.backends[i].tlsConfigs);
      if tlsConfigs.None? {
        return None;
      }
      backends := backends + [lb.backends[i].(tlsConfigs := tlsConfigs.value)];
    }
    assert ConvertedBackends(lb.backends, 0).Some?;
    assert backends == ConvertedBackends(lb.backends, 0).value;
    r := Some(Request(lb.name, lb.plan, lb.zone, lb.networkUuid, lb.configuredStatus, lb.maintenanceDow,
                      lb.maintenanceTime, lb.networks, lb.resolvers, lb.labels, frontends, backends, lb.ipAddresses));
  }

  // ----- conversion against creation -----

  // A faithful API stores exactly what the request says.
  predicate Stores(lb: LoadBalancer, r: Request) {
    && lb.name == r.name && lb.plan == r.plan && lb.zone == r.zone && lb.networkUuid == r.networkUuid
    && lb.configuredStatus == r.configuredStatus
    && lb.maintenanceDow == r.maintenanceDow && lb.maintenanceTime == r.maintenanceTime
    && lb.networks == r.networks && lb.resolvers == r.resolvers && lb.labels == r.labels
    && lb.frontends == r.frontends && lb.backends == r.backends && lb.ipAddresses == r.ipAddresses
  }

  ghost predicate NoMatchingConditions(fs: seq<Frontend>) {
    forall f, r :: f in fs && r in f.rules ==> r.matchingCondition == ""
  }

  // The API does not accept TLS configs without a name.
  ghost predicate NamedBackendTls(bs: seq<Backend>) {
    forall b, t :: b in bs && t in b.tlsConfigs ==> t.name != ""
  }

  // The TLS configs that the misplaced index happens to leave alone: at most one, in the first backend.
  ghost predicate BackendTlsInPlace(bs: seq<Backend>) {
    forall i :: 0 <= i < |bs| ==> |bs[i].tlsConfigs| == 0 || (i == 0 && |bs[i].tlsConfigs| == 1)
  }

  lemma BackendTlsSurvives(i: nat, tls: seq<BackendTls>)
    requires forall t :: t in tls ==> t.name != ""
    ensures var c := ConvertedBackendTls(i, tls);
            && (c == Some(tls) <==> |tls| == 0 || (i == 0 && |tls| == 1))
            && (c.Some? && multiset(c.value) == multiset(tls) <==> |tls| == 0 || (i == 0 && |tls| == 1))
  {
    var c := ConvertedBackendTls(i, tls);
    if i == 0 && |tls| == 1 {
      assert c.value == tls;
    }
    if c.Some? && |tls| >= 2 {
      var k := if i == 0 then 1 else 0;
      assert c.value[k] == BackendTls("", 0);
      assert c.value[k] in multiset(c.value);
      assert c.value[k] !in tls;
      assert c.value[k] !in multiset(tls);
    }
  }

  // Converting what a faithful API stores gives back the request exactly when no rule has a
  // matching condition and no backend TLS config is misplaced.
  lemma ConversionInvertsCreation(lb: LoadBalancer, r: Request)
    requires Stores(lb, r) && NamedBackendTls(r.backends)
    ensures Converted(lb) == Some(r) <==> NoMatchingConditions(r.frontends) && BackendTlsInPlace(r.backends)
  {
    FrontendsConverted(r.frontends);
    BackendsConverted(r.backends);
  }

  lemma {:induction false} FrontendsConverted(fs: seq<Frontend>)
    ensures Map(ConvertedFrontend, fs) == fs <==> NoMatchingConditions(fs)
  {
    var cs := Map(ConvertedFrontend, fs);
    if cs == fs {
      forall f, r | f in fs && r in f.rules ensures r.matchingCondition == "" {
        var i :| 0 <= i < |fs| && fs[i] == f;
        var j :| 0 <= j < |f.rules| && f.rules[j] == r;
        assert cs[i].rules == fs[i].rules;
        assert cs[i].rules[j] == ConvertedRule(r);
      }
    }
    if NoMatchingConditions(fs) {
      forall i | 0 <= i < |fs| ensures cs[i] == fs[i] {
        forall j | 0 <= j < |fs[i].rules| ensures ConvertedRule(fs[i].rules[j]) == fs[i].rules[j] {
          assert fs[i] in fs && fs[i].rules[j] in fs[i].rules;
        }
        assert Map(ConvertedRule, fs[i].rules) == fs[i].rules;
      }
    }
  }

  lemma {:induction false} BackendsConverted(bs: seq<Backend>)
    requires NamedBackendTls(bs)
    ensures ConvertedBackends(bs, 0) == Some(bs) <==> BackendTlsInPlace(bs)
  {
    ConvertedBackendsAt(bs, 0);
    forall i | 0 <= i < |bs|
      ensures ConvertedBackend(i, bs[i]) == Some(bs[i]) <==> |bs[i].tlsConfigs| == 0 || (i == 0 && |bs[i].tlsConfigs| == 1)
    {
      assert bs[i] in bs;
      BackendTlsSurvives(i, bs[i].tlsConfigs);
    }
    if BackendTlsInPlace(bs) {
      var c := ConvertedBackends(bs, 0);
      assert c.Some?;
      assert c.value == bs;
    }
  }

  // ----- the same, up to order -----

  lemma {:induction false} FrontendShapesConverted(fs: seq<Frontend>)
    ensures Permutation(Map(Shape.OfFrontend, Map(ConvertedFrontend, fs)), Map(Shape.OfFrontend, fs))
            <==> NoMatchingConditions(fs)
  {
    var cs := Map(ConvertedFrontend, fs);
    FrontendsConverted(fs);
    if Permutation(Map(Shape.OfFrontend, cs), Map(Shape.OfFrontend, fs)) {
      forall f, r | f in fs && r in f.rules ensures r.matchingCondition == "" {
        var c := Preimage(Shape.OfFrontend, cs, fs, f);
        var q := Preimage(Shape.OfRule, c.rules, f.rules, r);
        ConvertedHasNoCondition(fs, c, q);
      }
    }
  }

  lemma {:induction false} ConvertedHasNoCondition(fs: seq<Frontend>, c: Frontend, q: Rule)
    requires c in Map(ConvertedFrontend, fs) && q in c.rules
    ensures q.matchingCondition == ""
  {
  }

  // A misplaced index leaves an empty TLS config behind, unless it panics.
  lemma BlankLeft(i: nat, tls: seq<BackendTls>)
    requires |tls| > 0 && (i > 0 || |tls| > 1) && ConvertedBackendTls(i, tls).Some?
    ensures BackendTls("", 0) in ConvertedBackendTls(i, tls).value
  {
    var k := if i == 0 then 1 else 0;
    assert ConvertedBackendTls(i, tls).value[k] == BackendTls("", 0);
  }

  lemma {:induction false} BackendShapesConverted(bs: seq<Backend>)
    requires NamedBackendTls(bs)
    ensures var c := ConvertedBackends(bs, 0);
            c.Some? && Permutation(Map(Shape.OfBackend, c.value), Map(Shape.OfBackend, bs)) <==> BackendTlsInPlace(bs)
  {
    BackendsConverted(bs);
    var c := ConvertedBackends(bs, 0);
    if c.Some? && Permutation(Map(Shape.OfBackend, c.value), Map(Shape.OfBackend, bs)) {
      BackendsInPlace(bs, c.value);
    }
  }

  lemma {:induction false} NoBlank(bs: seq<Backend>, cs: seq<Backend>, c: Backend)
    requires NamedBackendTls(bs) && c in cs && Permutation(Map(Shape.OfBackend, bs), Map(Shape.OfBackend, cs))
    ensures BackendTls("", 0) !in c.tlsConfigs
  {
    var b := Preimage(Shape.OfBackend, bs, cs, c);
    assert BackendTls("", 0) !in b.tlsConfigs;
    assert BackendTls("", 0) !in multiset(b.tlsConfigs);
  }

  lemma {:induction false} BackendInPlace(bs: seq<Backend>, cs: seq<Backend>, i: nat)
    requires NamedBackendTls(bs) && i < |bs| == |cs| && Permutation(Map(Shape.OfBackend, bs), Map(Shape.OfBackend, cs))
    requires ConvertedBackend(i, bs[i]) == Some(cs[i])
    ensures |bs[i].tlsConfigs| == 0 || (i == 0 && |bs[i].tlsConfigs| == 1)
  {
    NoBlank(bs, cs, cs[i]);
    if |bs[i].tlsConfigs| > 0 && (i > 0 || |bs[i].tlsConfigs| > 1) {
      BlankLeft(i, bs[i].tlsConfigs);
    }
  }

  lemma {:induction false} BackendsInPlace(bs: seq<Backend>, cs: seq<Backend>)
    requires NamedBackendTls(bs) && ConvertedBackends(bs, 0) == Some(cs)
    requires Permutation(Map(Shape.OfBackend, cs), Map(Shape.OfBackend, bs))
    ensures BackendTlsInPlace(bs)
  {
    ConvertedBackendsAt(bs, 0);
    forall i | 0 <= i < |bs| ensures |bs[i].tlsConfigs| == 0 || (i == 0 && |bs[i].tlsConfigs| == 1) {
      BackendInPlace(bs, cs, i);
    }
  }
}
