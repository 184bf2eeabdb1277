// What a configuration says once the order of its lists is forgotten: the reference that
// the comparison is measured against. Nothing here sorts.
//
// Lists that are sorted stably keep the order within a key (Groups); all others are
// multisets, at every level of nesting.
module Shape {
  import opened Wrappers
  import opened Ordering
  import opened Sorting
  import opened Config

  datatype RuleShape = RuleShape(name: string, priority: int, matchingCondition: string,
                                 matchers: map<string, seq<Matcher>>, actions: map<string, seq<Action>>)

  datatype FrontendShape = FrontendShape(name: string, mode: string, port: int, defaultBackend: string,
                                         rules: multiset<RuleShape>, tlsConfigs: multiset<FrontendTls>,
                                         properties: Option<string>, networks: multiset<FrontendNetwork>)

  datatype BackendShape = BackendShape(name: string, resolver: string, members: multiset<Member>,
                                       properties: Option<BackendProperties>, tlsConfigs: multiset<BackendTls>)

  datatype RequestShape = RequestShape(
    networks: map<string, seq<Network>>, resolvers: map<string, seq<Resolver>>, labels: map<string, seq<Label>>,
    frontends: multiset<FrontendShape>, backends: multiset<BackendShape>, ipAddresses: multiset<IpAddress>)

  function OfRule(r: Rule): RuleShape {
    RuleShape(r.name, r.priority, r.matchingCondition, Groups(MatcherKind, r.matchers), Groups(ActionKind, r.actions))
  }

  function OfFrontend(f: Frontend): FrontendShape {
    FrontendShape(f.name, f.mode, f.port, f.defaultBackend, multiset(Map(OfRule, f.rules)), multiset(f.tlsConfigs),
                  f.properties, multiset(f.networks))
  }

  function OfBackend(b: Backend): BackendShape {
    BackendShape(b.name, b.resolver, multiset(b.members), b.properties, multiset(b.tlsConfigs))
  }

  function OfRequest(r: Request): RequestShape {
    RequestShape(Groups(NetworkName, r.networks), Groups(ResolverName, r.resolvers), Groups(LabelKey, r.labels),
                 multiset(Map(OfFrontend, r.frontends)), multiset(Map(OfBackend, r.backends)),
                 multiset(r.ipAddresses))
  }

  function RuleShapeName(s: RuleShape): string { s.name }
  function FrontendShapeName(s: FrontendShape): string { s.name }
  function BackendShapeName(s: BackendShape): string { s.name }

  // Optional fields are compared only when both sides define them.
  predicate OptionalAgrees(x: string, y: string) {
    x != "" && y != "" ==> x == y
  }

  predicate ScalarsAgree(a: Request, b: Request) {
    && a.name == b.name && a.plan == b.plan && a.zone == b.zone && a.networkUuid == b.networkUuid
    && a.configuredStatus == b.configuredStatus
    && OptionalAgrees(a.maintenanceDow, b.maintenanceDow)
    && OptionalAgrees(a.maintenanceTime, b.maintenanceTime)
  }

  // The two requests describe the same load balancer up to the order of their lists.
  ghost predicate SameConfiguration(a: Request, b: Request) {
    ScalarsAgree(a, b) && OfRequest(a) == OfRequest(b)
  }

  // ----- what that means, field by field -----

  ghost predicate RuleCounterpart(r: Rule, q: Rule) {
    && r.name == q.name && r.priority == q.priority && r.matchingCondition == q.matchingCondition
    && multiset(r.matchers) == multiset(q.matchers) && multiset(r.actions) == multiset(q.actions)
  }

  ghost predicate FrontendCounterpart(f: Frontend, g: Frontend) {
    && f.name == g.name && f.mode == g.mode && f.port == g.port && f.defaultBackend == g.defaultBackend
    && f.properties == g.properties && multiset(f.tlsConfigs) == multiset(g.tlsConfigs)
    && multiset(f.networks) == multiset(g.networks)
    && |f.rules| == |g.rules| && forall r :: r in f.rules ==> exists q :: q in g.rules && RuleCounterpart(r, q)
  }

  ghost predicate BackendCounterpart(b: Backend, c: Backend) {
    && b.name == c.name && b.resolver == c.resolver && b.properties == c.properties
    && multiset(b.members) == multiset(c.members) && multiset(b.tlsConfigs) == multiset(c.tlsConfigs)
  }

  lemma FrontendShapeReads(f: Frontend, g: Frontend)
    requires OfFrontend(f) == OfFrontend(g)
    ensures FrontendCounterpart(f, g)
  {
    PermutationLength(Map(OfRule, f.rules), Map(OfRule, g.rules));
    forall r | r in f.rules ensures exists q :: q in g.rules && RuleCounterpart(r, q) {
      var q := Preimage(OfRule, g.rules, f.rules, r);
      SameGroupsPermutation(MatcherKind, r.matchers, q.matchers);
      SameGroupsPermutation(ActionKind, r.actions, q.actions);
    }
  }

  // The same configuration: every item of every list has its counterpart.
  lemma SameConfigurationReads(a: Request, b: Request)
    requires SameConfiguration(a, b)
    ensures a.name == b.name && a.plan == b.plan && a.zone == b.zone && a.networkUuid == b.networkUuid
    ensures a.configuredStatus == b.configuredStatus
    ensures multiset(a.networks) == multiset(b.networks) && multiset(a.resolvers) == multiset(b.resolvers)
    ensures multiset(a.labels) == multiset(b.labels) && multiset(a.ipAddresses) == multiset(b.ipAddresses)
    ensures |a.frontends| == |b.frontends| && forall f :: f in a.frontends ==> exists g :: g in b.frontends && FrontendCounterpart(f, g)
    ensures |a.backends| == |b.backends| && forall x :: x in a.backends ==> exists y :: y in b.backends && BackendCounterpart(x, y)
  {
    SameShapeSameLengths(a, b);
    SameGroupsPermutation(NetworkName, a.networks, b.networks);
    SameGroupsPermutation(ResolverName, a.resolvers, b.resolvers);
    SameGroupsPermutation(LabelKey, a.labels, b.labels);
    forall f | f in a.frontends ensures exists g :: g in b.frontends && FrontendCounterpart(f, g) {
      var g := Preimage(OfFrontend, b.frontends, a.frontends, f);
      FrontendShapeReads(f, g);
    }
    forall x | x in a.backends ensures exists y :: y in b.backends && BackendCounterpart(x, y) {
      var y := Preimage(OfBackend, b.backends, a.backends, x);
      assert BackendCounterpart(x, y);
    }
  }

  // ----- distinct keys in the lists that are sorted without a promise on ties -----

  ghost predicate DistinctInFrontend(f: Frontend) {
    && DistinctKeys(RuleName, f.rules)
    && DistinctKeys(FrontendTlsName, f.tlsConfigs)
    && DistinctKeys(FrontendNetworkName, f.networks)
  }

  ghost predicate DistinctInBackend(b: Backend) {
    DistinctKeys(MemberName, b.members) && DistinctKeys(BackendTlsName, b.tlsConfigs)
  }

  ghost predicate Distinct(r: Request) {
    && DistinctKeys(FrontendName, r.frontends)
    && DistinctKeys(BackendName, r.backends)
    && DistinctKeys(IpNetworkName, r.ipAddresses)
    && (forall f :: f in r.frontends ==> DistinctInFrontend(f))
    && (forall b :: b in r.backends ==> DistinctInBackend(b))
  }

  // ----- when a key tells items apart -----

  // In the lists that are sorted without a promise on ties, items of one name are the same, up to the
  // order of their own lists. (The networks of a frontend are nothing but their names.)
  ghost predicate UnambiguousFrontend(f: FrontendShape) {
    KeyDetermines(RuleShapeName, f.rules) && KeyDetermines(FrontendTlsName, f.tlsConfigs)
  }

  ghost predicate UnambiguousBackend(b: BackendShape) {
    KeyDetermines(MemberName, b.members) && KeyDetermines(BackendTlsName, b.tlsConfigs)
  }

  ghost predicate UnambiguousShape(q: RequestShape) {
    && KeyDetermines(FrontendShapeName, q.frontends)
    && KeyDetermines(BackendShapeName, q.backends)
    && KeyDetermines(IpNetworkName, q.ipAddresses)
    && (forall f :: f in q.frontends ==> UnambiguousFrontend(f))
    && (forall b :: b in q.backends ==> UnambiguousBackend(b))
  }

  ghost predicate Unambiguous(r: Request) {
    UnambiguousShape(OfRequest(r))
  }

  lemma {:induction false} DistinctShapes<T, S(!new)>(key: T -> string, shape: T -> S, shapeKey: S -> string, s: seq<T>)
    requires DistinctKeys(key, s) && forall x :: x in s ==> shapeKey(shape(x)) == key(x)
    ensures KeyDetermines(shapeKey, multiset(Map(shape, s)))
  {
  }

  lemma DistinctFrontendUnambiguous(f: Frontend)
    requires DistinctInFrontend(f)
    ensures UnambiguousFrontend(OfFrontend(f))
  {
  }

  lemma DistinctBackendUnambiguous(b: Backend)
    requires DistinctInBackend(b)
    ensures UnambiguousBackend(OfBackend(b))
  {
  }

  // Distinct names in the outer lists, and no ambiguity inside.
  ghost predicate ClearFrontends(fs: seq<Frontend>) {
    DistinctKeys(FrontendName, fs) && forall f :: f in fs ==> UnambiguousFrontend(OfFrontend(f))
  }

  ghost predicate ClearBackends(bs: seq<Backend>) {
    DistinctKeys(BackendName, bs) && forall b :: b in bs ==> UnambiguousBackend(OfBackend(b))
  }

  lemma {:induction false} ClearFrontendsUnambiguous(fs: seq<Frontend>)
    requires ClearFrontends(fs)
    ensures KeyDetermines(FrontendShapeName, multiset(Map(OfFrontend, fs)))
    ensures forall x :: x in multiset(Map(OfFrontend, fs)) ==> UnambiguousFrontend(x)
  {
    DistinctShapes(FrontendName, OfFrontend, FrontendShapeName, fs);
    forall x | x in multiset(Map(OfFrontend, fs)) ensures UnambiguousFrontend(x) {
      var i :| 0 <= i < |fs| && Map(OfFrontend, fs)[i] == x;
    }
  }

  lemma {:induction false} ClearBackendsUnambiguous(bs: seq<Backend>)
    requires ClearBackends(bs)
    ensures KeyDetermines(BackendShapeName, multiset(Map(OfBackend, bs)))
    ensures forall x :: x in multiset(Map(OfBackend, bs)) ==> UnambiguousBackend(x)
  {
    DistinctShapes(BackendName, OfBackend, BackendShapeName, bs);
    forall x | x in multiset(Map(OfBackend, bs)) ensures UnambiguousBackend(x) {
      var i :| 0 <= i < |bs| && Map(OfBackend, bs)[i] == x;
    }
  }

  lemma ClearIsUnambiguous(r: Request)
    requires ClearFrontends(r.frontends) && ClearBackends(r.backends) && KeyDetermines(IpNetworkName, multiset(r.ipAddresses))
    ensures Unambiguous(r)
  {
    ClearFrontendsUnambiguous(r.frontends);
    ClearBackendsUnambiguous(r.backends);
  }

  // Distinct names suffice.
  lemma DistinctIsUnambiguous(r: Request)
    requires Distinct(r)
    ensures Unambiguous(r)
  {
    forall f | f in r.frontends ensures UnambiguousFrontend(OfFrontend(f)) {
      DistinctFrontendUnambiguous(f);
    }
    forall b | b in r.backends ensures UnambiguousBackend(OfBackend(b)) {
      DistinctBackendUnambiguous(b);
    }
    DistinctKeysDetermine(IpNetworkName, r.ipAddresses);
    ClearIsUnambiguous(r);
  }

  // Requests of the same shape have lists of the same lengths.
  lemma SameShapeSameLengths(a: Request, b: Request)
    requires OfRequest(a) == OfRequest(b)
    ensures |a.networks| == |b.networks| && |a.resolvers| == |b.resolvers| && |a.labels| == |b.labels|
    ensures |a.frontends| == |b.frontends| && |a.backends| == |b.backends| && |a.ipAddresses| == |b.ipAddresses|
  {
    SameGroupsPermutation(NetworkName, a.networks, b.networks);
    SameGroupsPermutation(ResolverName, a.resolvers, b.resolvers);
    SameGroupsPermutation(LabelKey, a.labels, b.labels);
    PermutationLength(a.networks, b.networks);
    PermutationLength(a.resolvers, b.resolvers);
    PermutationLength(a.labels, b.labels);
    PermutationLength(Map(OfFrontend, a.frontends), Map(OfFrontend, b.frontends));
    PermutationLength(Map(OfBackend, a.backends), Map(OfBackend, b.backends));
    PermutationLength(a.ipAddresses, b.ipAddresses);
  }

  lemma SameGroupsPermutation<T(!new)>(key: T -> string, s: seq<T>, t: seq<T>)
    requires Groups(key, s) == Groups(key, t)
    ensures Permutation(s, t)
  {
    ByKeyIsPreorder(key);
    GroupsAreTies(key, s, t);
    SameTiesPermutation(ByKey(key), s, t);
  }

  // ----- SameConfiguration as a relation -----

  lemma SameConfigurationSymmetric(a: Request, b: Request)
    ensures SameConfiguration(a, a)
    ensures SameConfiguration(a, b) ==> SameConfiguration(b, a)
  {
  }

  lemma SameConfigurationTransitive(a: Request, b: Request, c: Request)
    requires SameConfiguration(a, b) && SameConfiguration(b, c)
    ensures SameConfiguration(a, c) <==>
            && (b.maintenanceDow == "" ==> OptionalAgrees(a.maintenanceDow, c.maintenanceDow))
            && (b.maintenanceTime == "" ==> OptionalAgrees(a.maintenanceTime, c.maintenanceTime))
  {
  }

}
