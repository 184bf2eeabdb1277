// The sorted forms of a configuration, and what they preserve and determine.
//
// Canonical(a, c) says that c is an outcome of sorting every list of a. Lists sorted with
// slices.SortFunc may have several outcomes, so this is a relation and not a function.
module CanonicalForm {
  import opened Ordering
  import opened Sorting
  import opened Config
  import Shape

  ghost predicate CanonicalRule(r: Rule, c: Rule) {
    && c == r.(matchers := c.matchers, actions := c.actions)
    && IsStableSort(ByKey(ActionKind), r.actions, c.actions)
    && IsStableSort(ByKey(MatcherKind), r.matchers, c.matchers)
  }

  // The rules are sorted first and rewritten in place afterwards.
  ghost predicate CanonicalRules(rs: seq<Rule>, mid: seq<Rule>, cs: seq<Rule>) {
    && IsSort(ByKey(RuleName), rs, mid)
    && |cs| == |mid|
    && forall i :: 0 <= i < |mid| ==> CanonicalRule(mid[i], cs[i])
  }

  ghost predicate CanonicalFrontend(f: Frontend, c: Frontend) {
    && c == f.(rules := c.rules, tlsConfigs := c.tlsConfigs, networks := c.networks)
    && (exists mid :: CanonicalRules(f.rules, mid, c.rules))
    && IsSort(ByKey(FrontendTlsName), f.tlsConfigs, c.tlsConfigs)
    && IsSort(ByKey(FrontendNetworkName), f.networks, c.networks)
  }

  // Frontends and backends are rewritten in place first and sorted afterwards.
  ghost predicate CanonicalFrontends(fs: seq<Frontend>, mid: seq<Frontend>, cs: seq<Frontend>) {
    && |mid| == |fs|
    && (forall i :: 0 <= i < |fs| ==> CanonicalFrontend(fs[i], mid[i]))
    && IsSort(ByKey(FrontendName), mid, cs)
  }

  ghost predicate CanonicalBackend(b: Backend, c: Backend) {
    && c == b.(members := c.members, tlsConfigs := c.tlsConfigs)
    && IsSort(ByKey(MemberName), b.members, c.members)
    && IsSort(ByKey(BackendTlsName), b.tlsConfigs, c.tlsConfigs)
  }

  ghost predicate CanonicalBackends(bs: seq<Backend>, mid: seq<Backend>, cs: seq<Backend>) {
    && |mid| == |bs|
    && (forall i :: 0 <= i < |bs| ==> CanonicalBackend(bs[i], mid[i]))
    && IsSort(ByKey(BackendName), mid, cs)
  }

  ghost predicate SameScalars(a: Request, c: Request) {
    && c.name == a.name && c.plan == a.plan && c.zone == a.zone && c.networkUuid == a.networkUuid
    && c.configuredStatus == a.configuredStatus
    && c.maintenanceDow == a.maintenanceDow && c.maintenanceTime == a.maintenanceTime
  }

  ghost predicate Canonical(a: Request, c: Request) {
    && SameScalars(a, c)
    && IsStableSort(ByKey(NetworkName), a.networks, c.networks)
    && IsStableSort(ByKey(ResolverName), a.resolvers, c.resolvers)
    && IsStableSort(ByKey(LabelKey), a.labels, c.labels)
    && (exists mid :: CanonicalFrontends(a.frontends, mid, c.frontends))
    && (exists mid :: CanonicalBackends(a.backends, mid, c.backends))
    && IsSort(ByKey(IpNetworkName), a.ipAddresses, c.ipAddresses)
  }

  // ----- sorting only reorders -----

  lemma StableSortKeepsGroups<T(!new)>(key: T -> string, s: seq<T>, t: seq<T>)
    requires IsStableSort(ByKey(key), s, t)
    ensures Groups(key, s) == Groups(key, t)
  {
    GroupsAreTies(key, s, t);
  }

  lemma RuleKeepsShape(r: Rule, c: Rule)
    requires CanonicalRule(r, c)
    ensures Shape.OfRule(r) == Shape.OfRule(c)
  {
    StableSortKeepsGroups(ActionKind, r.actions, c.actions);
    StableSortKeepsGroups(MatcherKind, r.matchers, c.matchers);
  }

  lemma {:induction false} RulesKeepShape(rs: seq<Rule>, mid: seq<Rule>, cs: seq<Rule>)
    requires CanonicalRules(rs, mid, cs)
    ensures multiset(Map(Shape.OfRule, rs)) == multiset(Map(Shape.OfRule, cs))
  {
    MapPermutation(Shape.OfRule, rs, mid);
    forall i | 0 <= i < |mid| ensures Shape.OfRule(mid[i]) == Shape.OfRule(cs[i]) {
      RuleKeepsShape(mid[i], cs[i]);
    }
    assert Map(Shape.OfRule, mid) == Map(Shape.OfRule, cs);
  }

  lemma FrontendKeepsShape(f: Frontend, c: Frontend)
    requires CanonicalFrontend(f, c)
    ensures Shape.OfFrontend(f) == Shape.OfFrontend(c)
  {
    var mid :| CanonicalRules(f.rules, mid, c.rules);
    RulesKeepShape(f.rules, mid, c.rules);
  }

  lemma {:induction false} FrontendsKeepShape(fs: seq<Frontend>, mid: seq<Frontend>, cs: seq<Frontend>)
    requires CanonicalFrontends(fs, mid, cs)
    ensures multiset(Map(Shape.OfFrontend, fs)) == multiset(Map(Shape.OfFrontend, cs))
  {
    forall i | 0 <= i < |fs| ensures Shape.OfFrontend(fs[i]) == Shape.OfFrontend(mid[i]) {
      FrontendKeepsShape(fs[i], mid[i]);
    }
    assert Map(Shape.OfFrontend, fs) == Map(Shape.OfFrontend, mid);
    MapPermutation(Shape.OfFrontend, mid, cs);
  }

  lemma {:induction false} BackendsKeepShape(bs: seq<Backend>, mid: seq<Backend>, cs: seq<Backend>)
    requires CanonicalBackends(bs, mid, cs)
    ensures multiset(Map(Shape.OfBackend, bs)) == multiset(Map(Shape.OfBackend, cs))
  {
    forall i | 0 <= i < |bs| ensures Shape.OfBackend(bs[i]) == Shape.OfBackend(mid[i]) {
      assert CanonicalBackend(bs[i], mid[i]);
    }
    assert Map(Shape.OfBackend, bs) == Map(Shape.OfBackend, mid);
    MapPermutation(Shape.OfBackend, mid, cs);
  }

  // Comparison only reorders: a sorted form carries exactly the items of the original, at
  // every level, and its scalars.
  lemma CanonicalKeepsShape(a: Request, c: Request)
    requires Canonical(a, c)
    ensures SameScalars(a, c) && Shape.OfRequest(a) == Shape.OfRequest(c)
  {
    StableSortKeepsGroups(NetworkName, a.networks, c.networks);
    StableSortKeepsGroups(ResolverName, a.resolvers, c.resolvers);
    StableSortKeepsGroups(LabelKey, a.labels, c.labels);
    var fs :| CanonicalFrontends(a.frontends, fs, c.frontends);
    FrontendsKeepShape(a.frontends, fs, c.frontends);
    var bs :| CanonicalBackends(a.backends, bs, c.backends);
    BackendsKeepShape(a.backends, bs, c.backends);
  }

  // ----- what is sorted -----

  ghost predicate SortedRule(r: Rule) {
    Sorted(ByKey(ActionKind), r.actions) && Sorted(ByKey(MatcherKind), r.matchers)
  }

  ghost predicate SortedFrontend(f: Frontend) {
    && Sorted(ByKey(RuleName), f.rules) && (forall r :: r in f.rules ==> SortedRule(r))
    && Sorted(ByKey(FrontendTlsName), f.tlsConfigs)
    && Sorted(ByKey(FrontendNetworkName), f.networks)
  }

  ghost predicate SortedBackend(b: Backend) {
    Sorted(ByKey(MemberName), b.members) && Sorted(ByKey(BackendTlsName), b.tlsConfigs)
  }

  ghost predicate SortedRequest(c: Request) {
    && Sorted(ByKey(NetworkName), c.networks)
    && Sorted(ByKey(ResolverName), c.resolvers)
    && Sorted(ByKey(LabelKey), c.labels)
    && Sorted(ByKey(FrontendName), c.frontends)
    && Sorted(ByKey(BackendName), c.backends)
    && Sorted(ByKey(IpNetworkName), c.ipAddresses)
    && (forall f :: f in c.frontends ==> SortedFrontend(f))
    && (forall b :: b in c.backends ==> SortedBackend(b))
  }

  // Only the keys matter to being sorted.
  lemma SortedByCmp<T(!new)>(key: T -> string, s: seq<T>, t: seq<T>)
    requires |s| == |t| && forall i :: 0 <= i < |s| ==> key(s[i]) == key(t[i])
    ensures Sorted(ByKey(key), s) ==> Sorted(ByKey(key), t)
  {
  }

  lemma CanonicalFrontendSorted(f: Frontend, c: Frontend)
    requires CanonicalFrontend(f, c)
    ensures SortedFrontend(c)
  {
    var mid :| CanonicalRules(f.rules, mid, c.rules);
    SortedByCmp(RuleName, mid, c.rules);
  }

  lemma CanonicalFrontendsSorted(fs: seq<Frontend>, mid: seq<Frontend>, cs: seq<Frontend>)
    requires CanonicalFrontends(fs, mid, cs)
    ensures Sorted(ByKey(FrontendName), cs) && forall f :: f in cs ==> SortedFrontend(f)
  {
    forall i | 0 <= i < |mid| ensures SortedFrontend(mid[i]) {
      CanonicalFrontendSorted(fs[i], mid[i]);
    }
    forall f | f in cs ensures SortedFrontend(f) {
      assert f in multiset(mid);
    }
  }

  lemma CanonicalBackendsSorted(bs: seq<Backend>, mid: seq<Backend>, cs: seq<Backend>)
    requires CanonicalBackends(bs, mid, cs)
    ensures Sorted(ByKey(BackendName), cs) && forall b :: b in cs ==> SortedBackend(b)
  {
    forall i | 0 <= i < |bs| ensures SortedBackend(mid[i]) {
      assert CanonicalBackend(bs[i], mid[i]);
    }
    forall b | b in cs ensures SortedBackend(b) {
      assert b in multiset(mid);
    }
  }

  // A sorted form is sorted at every level, although rules are rewritten after their own sort, and
  // frontends and backends before theirs.
  lemma CanonicalSorted(a: Request, c: Request)
    requires Canonical(a, c)
    ensures SortedRequest(c)
  {
    var fs :| CanonicalFrontends(a.frontends, fs, c.frontends);
    CanonicalFrontendsSorted(a.frontends, fs, c.frontends);
    var bs :| CanonicalBackends(a.backends, bs, c.backends);
    CanonicalBackendsSorted(a.backends, bs, c.backends);
  }

  // ----- a sorted form is determined by its shape -----

  lemma StableListDetermined<T(!new)>(key: T -> string, s: seq<T>, t: seq<T>)
    requires Sorted(ByKey(key), s) && Sorted(ByKey(key), t) && Groups(key, s) == Groups(key, t)
    ensures s == t
  {
    ByKeyIsPreorder(key);
    GroupsAreTies(key, s, t);
    SortedSameTiesEqual(ByKey(key), s, t);
  }

  // The shapes of two sorted lists, taken element by element, agree in position.
  lemma {:induction false} ShapesDetermined<T(!new), S(!new)>(key: T -> string, shape: T -> S, shapeKey: S -> string,
                                              s: seq<T>, t: seq<T>)
    requires forall x :: shapeKey(shape(x)) == key(x)
    requires Sorted(ByKey(key), s) && Sorted(ByKey(key), t)
    requires Permutation(Map(shape, s), Map(shape, t)) && KeyDetermines(shapeKey, multiset(Map(shape, s)))
    ensures Map(shape, s) == Map(shape, t)
  {
    forall i, j | 0 <= i < j < |s| ensures ByKey(shapeKey)(Map(shape, s)[i], Map(shape, s)[j]) <= 0 {
      assert ByKey(key)(s[i], s[j]) <= 0;
    }
    forall i, j | 0 <= i < j < |t| ensures ByKey(shapeKey)(Map(shape, t)[i], Map(shape, t)[j]) <= 0 {
      assert ByKey(key)(t[i], t[j]) <= 0;
    }
    SortedByKeyEqual(shapeKey, Map(shape, s), Map(shape, t));
  }

  lemma RuleDetermined(x: Rule, y: Rule)
    requires SortedRule(x) && SortedRule(y) && Shape.OfRule(x) == Shape.OfRule(y)
    ensures x == y
  {
    StableListDetermined(ActionKind, x.actions, y.actions);
    StableListDetermined(MatcherKind, x.matchers, y.matchers);
  }

  lemma FrontendDetermined(x: Frontend, y: Frontend)
    requires SortedFrontend(x) && SortedFrontend(y) && Shape.OfFrontend(x) == Shape.OfFrontend(y)
    requires Shape.UnambiguousFrontend(Shape.OfFrontend(x))
    ensures x == y
  {
    ShapesDetermined(RuleName, Shape.OfRule, Shape.RuleShapeName, x.rules, y.rules);
    assert |Map(Shape.OfRule, x.rules)| == |Map(Shape.OfRule, y.rules)|;
    forall i | 0 <= i < |x.rules| ensures x.rules[i] == y.rules[i] {
      assert Map(Shape.OfRule, x.rules)[i] == Map(Shape.OfRule, y.rules)[i];
      RuleDetermined(x.rules[i], y.rules[i]);
    }
    SortedByKeyEqual(FrontendTlsName, x.tlsConfigs, y.tlsConfigs);
    SortedByKeyEqual(FrontendNetworkName, x.networks, y.networks);
  }

  lemma BackendDetermined(x: Backend, y: Backend)
    requires SortedBackend(x) && SortedBackend(y) && Shape.OfBackend(x) == Shape.OfBackend(y)
    requires Shape.UnambiguousBackend(Shape.OfBackend(x))
    ensures x == y
  {
    SortedByKeyEqual(MemberName, x.members, y.members);
    SortedByKeyEqual(BackendTlsName, x.tlsConfigs, y.tlsConfigs);
  }

  lemma {:induction false} FrontendsDetermined(xs: seq<Frontend>, ys: seq<Frontend>)
    requires Sorted(ByKey(FrontendName), xs) && Sorted(ByKey(FrontendName), ys)
    requires forall f :: f in xs || f in ys ==> SortedFrontend(f)
    requires Permutation(Map(Shape.OfFrontend, xs), Map(Shape.OfFrontend, ys))
    requires KeyDetermines(Shape.FrontendShapeName, multiset(Map(Shape.OfFrontend, xs)))
    requires forall q :: q in multiset(Map(Shape.OfFrontend, xs)) ==> Shape.UnambiguousFrontend(q)
    ensures xs == ys
  {
    ShapesDetermined(FrontendName, Shape.OfFrontend, Shape.FrontendShapeName, xs, ys);
    assert |Map(Shape.OfFrontend, xs)| == |Map(Shape.OfFrontend, ys)|;
    forall i | 0 <= i < |xs| ensures xs[i] == ys[i] {
      assert Map(Shape.OfFrontend, xs)[i] == Map(Shape.OfFrontend, ys)[i];
      assert Map(Shape.OfFrontend, xs)[i] in multiset(Map(Shape.OfFrontend, xs));
      FrontendDetermined(xs[i], ys[i]);
    }
  }

  lemma {:induction false} BackendsDetermined(xs: seq<Backend>, ys: seq<Backend>)
    requires Sorted(ByKey(BackendName), xs) && Sorted(ByKey(BackendName), ys)
    requires forall b :: b in xs || b in ys ==> SortedBackend(b)
    requires Permutation(Map(Shape.OfBackend, xs), Map(Shape.OfBackend, ys))
    requires KeyDetermines(Shape.BackendShapeName, multiset(Map(Shape.OfBackend, xs)))
    requires forall q :: q in multiset(Map(Shape.OfBackend, xs)) ==> Shape.UnambiguousBackend(q)
    ensures xs == ys
  {
    ShapesDetermined(BackendName, Shape.OfBackend, Shape.BackendShapeName, xs, ys);
    assert |Map(Shape.OfBackend, xs)| == |Map(Shape.OfBackend, ys)|;
    forall i | 0 <= i < |xs| ensures xs[i] == ys[i] {
      assert Map(Shape.OfBackend, xs)[i] == Map(Shape.OfBackend, ys)[i];
      assert Map(Shape.OfBackend, xs)[i] in multiset(Map(Shape.OfBackend, xs));
      BackendDetermined(xs[i], ys[i]);
    }
  }

  // Two sorted requests of one unambiguous shape hold the same lists.
  lemma SortedRequestDetermined(x: Request, y: Request)
    requires SortedRequest(x) && SortedRequest(y) && Shape.OfRequest(x) == Shape.OfRequest(y) && Shape.Unambiguous(x)
    ensures x.networks == y.networks && x.resolvers == y.resolvers && x.labels == y.labels
    ensures x.frontends == y.frontends && x.backends == y.backends && x.ipAddresses == y.ipAddresses
  {
    StableListDetermined(NetworkName, x.networks, y.networks);
    StableListDetermined(ResolverName, x.resolvers, y.resolvers);
    StableListDetermined(LabelKey, x.labels, y.labels);
    FrontendsDetermined(x.frontends, y.frontends);
    BackendsDetermined(x.backends, y.backends);
    SortedByKeyEqual(IpNetworkName, x.ipAddresses, y.ipAddresses);
  }
}
