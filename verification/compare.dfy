// The comparison of the live configuration with the desired one: both requests are
// sorted in place and then tested for equality field by field.
module Compare {
  import opened Wrappers
  import opened Ordering
  import opened Sorting
  import opened Config
  import opened CanonicalForm
  import Shape

  // The two error constructors; every value wraps "configs are not equal".
  datatype Mismatch = LengthDiffers(field: string) | ValueDiffers(field: string)

  // A request that the comparison rearranges in place.
  class CreateRequest {
    var name: string
    var plan: string
    var zone: string
    var networkUuid: string
    var configuredStatus: string
    var maintenanceDow: string
    var maintenanceTime: string
    var networks: seq<Network>
    var resolvers: seq<Resolver>
    var labels: seq<Label>
    var frontends: seq<Frontend>
    var backends: seq<Backend>
    var ipAddresses: seq<IpAddress>

    function Value(): Request
      reads this
    {
      Request(name, plan, zone, networkUuid, configuredStatus, maintenanceDow, maintenanceTime,
              networks, resolvers, labels, frontends, backends, ipAddresses)
    }

    constructor (r: Request)
      ensures Value() == r
    {
      name, plan, zone, networkUuid := r.name, r.plan, r.zone, r.networkUuid;
      configuredStatus, maintenanceDow, maintenanceTime := r.configuredStatus, r.maintenanceDow, r.maintenanceTime;
      networks, resolvers, labels := r.networks, r.resolvers, r.labels;
      frontends, backends, ipAddresses := r.frontends, r.backends, r.ipAddresses;
    }

    // Decoding into an existing request.
    method Assign(r: Request)
      modifies this
      ensures Value() == r
    {
      name, plan, zone, networkUuid := r.name, r.plan, r.zone, r.networkUuid;
      configuredStatus, maintenanceDow, maintenanceTime := r.configuredStatus, r.maintenanceDow, r.maintenanceTime;
      AssignLists(r);
    }

    method AssignLists(r: Request)
      modifies `networks, `resolvers, `labels, `frontends, `backends, `ipAddresses
      ensures networks == r.networks && resolvers == r.resolvers && labels == r.labels
      ensures frontends == r.frontends && backends == r.backends && ipAddresses == r.ipAddresses
    {
      networks, resolvers, labels := r.networks, r.resolvers, r.labels;
      frontends, backends, ipAddresses := r.frontends, r.backends, r.ipAddresses;
    }

    method SortBackends()
      modifies `backends
      ensures exists mid :: CanonicalBackends(old(backends), mid, backends)
    {
      for i := 0 to |backends|
        invariant |backends| == |old(backends)|
        invariant forall k :: 0 <= k < i ==> CanonicalBackend(old(backends)[k], backends[k])
        invariant forall k :: i <= k < |backends| ==> backends[k] == old(backends)[k]
      {
        var members := SortByKey(MemberName, backends[i].members);
        backends := backends[i := backends[i].(members := members)];
        var tlsConfigs := SortByKey(BackendTlsName, backends[i].tlsConfigs);
        backends := backends[i := backends[i].(tlsConfigs := tlsConfigs)];
      }
      ghost var mid := backends;
      backends := SortByKey(BackendName, backends);
      assert CanonicalBackends(old(backends), mid, backends);
    }

    // The rules of frontend i, and the actions and matchers in each of them.
    method SortRules(i: nat)
      requires i < |frontends|
      modifies `frontends
      ensures |frontends| == |old(frontends)|
      ensures frontends == old(frontends)[i := old(frontends)[i].(rules := frontends[i].rules)]
      ensures exists mid :: CanonicalRules(old(frontends)[i].rules, mid, frontends[i].rules)
    {
      var rules := SortByKey(RuleName, frontends[i].rules);
      ghost var mid := rules;
      for y := 0 to |rules|
        invariant frontends == old(frontends) && |rules| == |mid|
        invariant forall k :: 0 <= k < y ==> CanonicalRule(mid[k], rules[k])
        invariant forall k :: y <= k < |rules| ==> rules[k] == mid[k]
      {
        var actions := SortStableByKey(ActionKind, rules[y].actions);
        rules := rules[y := rules[y].(actions := actions)];
        var matchers := SortStableByKey(MatcherKind, rules[y].matchers);
        rules := rules[y := rules[y].(matchers := matchers)];
      }
      frontends := frontends[i := frontends[i].(rules := rules)];
      assert CanonicalRules(old(frontends)[i].rules, mid, frontends[i].rules);
    }

    method SortFrontends()
      modifies `frontends
      ensures exists mid :: CanonicalFrontends(old(frontends), mid, frontends)
    {
      for i := 0 to |frontends|
        invariant |frontends| == |old(frontends)|
        invariant forall k :: 0 <= k < i ==> CanonicalFrontend(old(frontends)[k], frontends[k])
        invariant forall k :: i <= k < |frontends| ==> frontends[k] == old(frontends)[k]
      {
        SortRules(i);
        var tlsConfigs := SortByKey(FrontendTlsName, frontends[i].tlsConfigs);
        frontends := frontends[i := frontends[i].(tlsConfigs := tlsConfigs)];
        var nets := SortByKey(FrontendNetworkName, frontends[i].networks);
        frontends := frontends[i := frontends[i].(networks := nets)];
      }
      ghost var mid := frontends;
      frontends := SortByKey(FrontendName, frontends);
      assert CanonicalFrontends(old(frontends), mid, frontends);
    }

    method SortFlatLists()
      modifies `networks, `resolvers, `labels
      ensures IsStableSort(ByKey(NetworkName), old(networks), networks)
      ensures IsStableSort(ByKey(ResolverName), old(resolvers), resolvers)
      ensures IsStableSort(ByKey(LabelKey), old(labels), labels)
    {
      networks := SortStableByKey(NetworkName, networks);
      resolvers := SortStableByKey(ResolverName, resolvers);
      labels := SortStableByKey(LabelKey, labels);
    }

    // sortCreateLoadBalancerRequestSlices
    method SortSlices()
      modifies `networks, `resolvers, `labels, `backends, `frontends, `ipAddresses
      ensures Canonical(old(Value()), Value())
    {
      SortFlatLists();
      SortBackends();
      SortFrontends();
      ipAddresses := SortByKey(IpNetworkName, ipAddresses);
      CanonicalParts(old(Value()), Value());
    }
  }

  lemma CanonicalParts(a: Request, c: Request)
    requires SameScalars(a, c)
    requires IsStableSort(ByKey(NetworkName), a.networks, c.networks)
    requires IsStableSort(ByKey(ResolverName), a.resolvers, c.resolvers)
    requires IsStableSort(ByKey(LabelKey), a.labels, c.labels)
    requires exists mid :: CanonicalFrontends(a.frontends, mid, c.frontends)
    requires exists mid :: CanonicalBackends(a.backends, mid, c.backends)
    requires IsSort(ByKey(IpNetworkName), a.ipAddresses, c.ipAddresses)
    ensures Canonical(a, c)
  {
  }

  // The fields compared before anything is sorted, in the order they are compared.
  function EarlyMismatch(a: Request, b: Request): Option<Mismatch> {
    if a.name != b.name then Some(ValueDiffers("name"))
    else if a.plan != b.plan then Some(ValueDiffers("plan"))
    else if a.zone != b.zone then Some(ValueDiffers("zone"))
    else if a.networkUuid != b.networkUuid then Some(ValueDiffers("network UUID"))
    else if a.configuredStatus != b.configuredStatus then Some(ValueDiffers("configured status"))
    else if a.maintenanceDow != "" && b.maintenanceDow != "" && a.maintenanceDow != b.maintenanceDow then
      Some(ValueDiffers("maintenance DOW"))
    else if a.maintenanceTime != "" && b.maintenanceTime != "" && a.maintenanceTime != b.maintenanceTime then
      Some(ValueDiffers("maintenance time"))
    else if |a.networks| != |b.networks| then Some(LengthDiffers("network"))
    else if |a.resolvers| != |b.resolvers| then Some(LengthDiffers("resolvers"))
    else if |a.labels| != |b.labels| then Some(LengthDiffers("labels"))
    else if |a.frontends| != |b.frontends| then Some(LengthDiffers("frontends"))
    else if |a.backends| != |b.backends| then Some(LengthDiffers("backends"))
    else None
  }

  // The lists, compared after sorting.
  function ListMismatch(a: Request, b: Request): Option<Mismatch> {
    if a.networks != b.networks then Some(ValueDiffers("networks"))
    else if a.resolvers != b.resolvers then Some(ValueDiffers("resolvers"))
    else if a.labels != b.labels then Some(ValueDiffers("labels"))
    else if a.frontends != b.frontends then Some(ValueDiffers("frontends"))
    else if a.backends != b.backends then Some(ValueDiffers("backends"))
    else if a.ipAddresses != b.ipAddresses then Some(ValueDiffers("IP addresses"))
    else None
  }

  // One possible run of the comparison: from a and b it leaves a' and b' and reports e.
  ghost predicate Compared(a: Request, b: Request, a': Request, b': Request, e: Option<Mismatch>) {
    if EarlyMismatch(a, b).Some? then
      a' == a && b' == b && e == EarlyMismatch(a, b)
    else
      Canonical(a, a') && Canonical(b, b') && e == ListMismatch(a', b')
  }

  // createLoadBalancerRequestsEqual; None is the nil error.
  method CreateRequestsEqual(r1: CreateRequest, r2: CreateRequest) returns (e: Option<Mismatch>)
    requires r1 != r2
    modifies r1, r2
    ensures Compared(old(r1.Value()), old(r2.Value()), r1.Value(), r2.Value(), e)
    ensures e.None? ==> Shape.SameConfiguration(old(r1.Value()), old(r2.Value()))
    ensures Shape.Unambiguous(old(r1.Value())) || Shape.Unambiguous(old(r2.Value())) ==>
              (e.None? <==> Shape.SameConfiguration(old(r1.Value()), old(r2.Value())))
  {
    e := EarlyMismatch(r1.Value(), r2.Value());
    if e.None? {
      r1.SortSlices();
      r2.SortSlices();
      e := ListMismatch(r1.Value(), r2.Value());
    }
    assert Compared(old(r1.Value()), old(r2.Value()), r1.Value(), r2.Value(), e);
    ComparisonSound(old(r1.Value()), old(r2.Value()), r1.Value(), r2.Value(), e);
    if Shape.Unambiguous(old(r1.Value())) || Shape.Unambiguous(old(r2.Value())) {
      ComparisonDecides(old(r1.Value()), old(r2.Value()), r1.Value(), r2.Value(), e);
    }
  }

  // ----- the comparison decides "same configuration" -----

  // Whatever it reports, the comparison only reorders both requests.
  lemma ComparisonOnlyReorders(a: Request, b: Request, a': Request, b': Request, e: Option<Mismatch>)
    requires Compared(a, b, a', b', e)
    ensures SameScalars(a, a') && Shape.OfRequest(a) == Shape.OfRequest(a')
    ensures SameScalars(b, b') && Shape.OfRequest(b) == Shape.OfRequest(b')
  {
    if EarlyMismatch(a, b).None? {
      CanonicalKeepsShape(a, a');
      CanonicalKeepsShape(b, b');
    }
  }

  lemma EarlyMatch(a: Request, b: Request)
    ensures EarlyMismatch(a, b).None? <==>
            && Shape.ScalarsAgree(a, b)
            && |a.networks| == |b.networks| && |a.resolvers| == |b.resolvers| && |a.labels| == |b.labels|
            && |a.frontends| == |b.frontends| && |a.backends| == |b.backends|
  {
  }

  lemma ListMatch(a: Request, b: Request)
    requires ListMismatch(a, b).None?
    ensures Shape.OfRequest(a) == Shape.OfRequest(b)
  {
  }

  lemma ComparisonSound(a: Request, b: Request, a': Request, b': Request, e: Option<Mismatch>)
    requires Compared(a, b, a', b', e)
    ensures e.None? ==> Shape.SameConfiguration(a, b)
  {
    if e.None? {
      EarlyMatch(a, b);
      CanonicalKeepsShape(a, a');
      CanonicalKeepsShape(b, b');
      ListMatch(a', b');
    }
  }

  lemma ComparisonDecides(a: Request, b: Request, a': Request, b': Request, e: Option<Mismatch>)
    requires Compared(a, b, a', b', e)
    requires Shape.Unambiguous(a) || Shape.Unambiguous(b)
    ensures e.None? <==> Shape.SameConfiguration(a, b)
  {
    ComparisonSound(a, b, a', b', e);
    if Shape.SameConfiguration(a, b) {
      Shape.SameShapeSameLengths(a, b);
      EarlyMatch(a, b);
      CanonicalKeepsShape(a, a');
      CanonicalKeepsShape(b, b');
      CanonicalSorted(a, a');
      CanonicalSorted(b, b');
      SortedRequestDetermined(a', b');
    }
  }

  // When the names tell items apart, the comparison is reflexive and symmetric.
  lemma ComparisonSymmetric(a: Request, b: Request, a1: Request, b1: Request, e: Option<Mismatch>,
                            b2: Request, a2: Request, e': Option<Mismatch>)
    requires Compared(a, b, a1, b1, e) && Compared(b, a, b2, a2, e')
    requires Shape.Unambiguous(a) || Shape.Unambiguous(b)
    ensures e.None? <==> e'.None?
    ensures a == b ==> e.None?
  {
    assert e.None? <==> Shape.SameConfiguration(a, b) by {
      ComparisonDecides(a, b, a1, b1, e);
    }
    assert e'.None? <==> Shape.SameConfiguration(b, a) by {
      ComparisonDecides(b, a, b2, a2, e');
    }
    Shape.SameConfigurationSymmetric(a, b);
    Shape.SameConfigurationSymmetric(b, a);
  }

  // It is transitive exactly when the middle request does not hide a maintenance field
  // on which the outer two differ; in particular when it defines both fields.
  lemma ComparisonTransitive(a: Request, b: Request, c: Request,
                             a1: Request, b1: Request, b2: Request, c2: Request, a3: Request, c3: Request,
                             e: Option<Mismatch>)
    requires Compared(a, b, a1, b1, None) && Compared(b, c, b2, c2, None) && Compared(a, c, a3, c3, e)
    requires Shape.Unambiguous(a) || Shape.Unambiguous(c)
    ensures e.None? <==>
            && (b.maintenanceDow == "" ==> Shape.OptionalAgrees(a.maintenanceDow, c.maintenanceDow))
            && (b.maintenanceTime == "" ==> Shape.OptionalAgrees(a.maintenanceTime, c.maintenanceTime))
  {
    assert Shape.SameConfiguration(a, b) by {
      ComparisonSound(a, b, a1, b1, None);
    }
    assert Shape.SameConfiguration(b, c) by {
      ComparisonSound(b, c, b2, c2, None);
    }
    assert e.None? <==> Shape.SameConfiguration(a, c) by {
      ComparisonDecides(a, c, a3, c3, e);
    }
    Shape.SameConfigurationTransitive(a, b, c);
  }

  // It is not transitive in general: a request without a maintenance day is equal to two requests with
  // different days.
  lemma ComparisonNotTransitive(r: Request, x: string, y: string,
                                a1: Request, b1: Request, e1: Option<Mismatch>, b2: Request, c2: Request, e2: Option<Mismatch>,
                                a3: Request, c3: Request, e3: Option<Mismatch>)
    requires Shape.Unambiguous(r) && x != y && x != "" && y != ""
    requires Compared(r.(maintenanceDow := x), r.(maintenanceDow := ""), a1, b1, e1)
    requires Compared(r.(maintenanceDow := ""), r.(maintenanceDow := y), b2, c2, e2)
    requires Compared(r.(maintenanceDow := x), r.(maintenanceDow := y), a3, c3, e3)
    ensures e1.None? && e2.None? && e3.Some?
  {
    ComparisonDecides(r.(maintenanceDow := x), r.(maintenanceDow := ""), a1, b1, e1);
    ComparisonDecides(r.(maintenanceDow := ""), r.(maintenanceDow := y), b2, c2, e2);
    ComparisonSound(r.(maintenanceDow := x), r.(maintenanceDow := y), a3, c3, e3);
  }
}
