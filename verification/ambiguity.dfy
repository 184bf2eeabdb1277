// Exactly when the comparison is reliable: an unambiguous request has one sorted form, and any other
// has at least two, so that the comparison may report a difference where there is none.
module Ambiguity {
  import opened Ordering
  import opened Sorting
  import opened Config
  import opened CanonicalForm
  import opened Compare
  import opened Naming
  import opened Nodes
  import opened Services
  import opened Builder
  import Shape

  // ----- one sorted form of everything -----

  function Stable<T>(key: T -> string, s: seq<T>): seq<T> {
    StableSort(ByKey(key), s)
  }

  lemma StableIsSort<T(!new)>(key: T -> string, s: seq<T>)
    ensures IsStableSort(ByKey(key), s, Stable(key, s)) && IsSort(ByKey(key), s, Stable(key, s))
  {
    ByKeyIsPreorder(key);
    StableSortIsStable(ByKey(key), s);
  }

  function SortRule(r: Rule): Rule {
    r.(actions := Stable(ActionKind, r.actions), matchers := Stable(MatcherKind, r.matchers))
  }

  function SortFrontend(f: Frontend): Frontend {
    f.(rules := Map(SortRule, Stable(RuleName, f.rules)), tlsConfigs := Stable(FrontendTlsName, f.tlsConfigs),
       networks := Stable(FrontendNetworkName, f.networks))
  }

  function SortBackend(b: Backend): Backend {
    b.(members := Stable(MemberName, b.members), tlsConfigs := Stable(BackendTlsName, b.tlsConfigs))
  }

  function SortRequest(r: Request): Request {
    r.(networks := Stable(NetworkName, r.networks), resolvers := Stable(ResolverName, r.resolvers),
       labels := Stable(LabelKey, r.labels), frontends := Stable(FrontendName, Map(SortFrontend, r.frontends)),
       backends := Stable(BackendName, Map(SortBackend, r.backends)), ipAddresses := Stable(IpNetworkName, r.ipAddresses))
  }

  lemma {:induction false} RulesSorted(rs: seq<Rule>, mid: seq<Rule>)
    requires IsSort(ByKey(RuleName), rs, mid)
    ensures CanonicalRules(rs, mid, Map(SortRule, mid))
  {
    forall i | 0 <= i < |mid| ensures CanonicalRule(mid[i], SortRule(mid[i])) {
      StableIsSort(ActionKind, mid[i].actions);
      StableIsSort(MatcherKind, mid[i].matchers);
    }
  }

  lemma FrontendSorted(f: Frontend)
    ensures CanonicalFrontend(f, SortFrontend(f))
  {
    StableIsSort(RuleName, f.rules);
    RulesSorted(f.rules, Stable(RuleName, f.rules));
    StableIsSort(FrontendTlsName, f.tlsConfigs);
    StableIsSort(FrontendNetworkName, f.networks);
  }

  lemma BackendSorted(b: Backend)
    ensures CanonicalBackend(b, SortBackend(b))
  {
    StableIsSort(MemberName, b.members);
    StableIsSort(BackendTlsName, b.tlsConfigs);
  }

  lemma {:induction false} FrontendsSorted(fs: seq<Frontend>)
    ensures CanonicalFrontends(fs, Map(SortFrontend, fs), Stable(FrontendName, Map(SortFrontend, fs)))
  {
    forall i | 0 <= i < |fs| ensures CanonicalFrontend(fs[i], SortFrontend(fs[i])) {
      FrontendSorted(fs[i]);
    }
    StableIsSort(FrontendName, Map(SortFrontend, fs));
  }

  lemma {:induction false} BackendsSorted(bs: seq<Backend>)
    ensures CanonicalBackends(bs, Map(SortBackend, bs), Stable(BackendName, Map(SortBackend, bs)))
  {
    forall i | 0 <= i < |bs| ensures CanonicalBackend(bs[i], SortBackend(bs[i])) {
      BackendSorted(bs[i]);
    }
    StableIsSort(BackendName, Map(SortBackend, bs));
  }

  lemma RequestSorted(r: Request)
    ensures Canonical(r, SortRequest(r))
  {
    StableIsSort(NetworkName, r.networks);
    StableIsSort(ResolverName, r.resolvers);
    StableIsSort(LabelKey, r.labels);
    FrontendsSorted(r.frontends);
    BackendsSorted(r.backends);
    StableIsSort(IpNetworkName, r.ipAddresses);
    CanonicalParts(r, SortRequest(r));
  }

  // ----- two sorted forms of what is ambiguous -----

  // Two different images of one key.
  lemma Clash<T, S(!new)>(shape: T -> S, shapeKey: S -> string, s: seq<T>) returns (i: nat, j: nat)
    requires !KeyDetermines(shapeKey, multiset(Map(shape, s)))
    ensures i < |s| && j < |s| && shapeKey(shape(s[i])) == shapeKey(shape(s[j])) && shape(s[i]) != shape(s[j])
  {
    var m := multiset(Map(shape, s));
    var x, y :| x in m && y in m && shapeKey(x) == shapeKey(y) && x != y;
    i :| 0 <= i < |s| && Map(shape, s)[i] == x;
    j :| 0 <= j < |s| && Map(shape, s)[j] == y;
  }

  lemma ClashingElements<T(!new)>(key: T -> string, s: seq<T>) returns (t: seq<T>, t': seq<T>)
    requires !KeyDetermines(key, multiset(s))
    ensures IsSort(ByKey(key), s, t) && IsSort(ByKey(key), s, t') && t != t'
  {
    var x, y :| x in multiset(s) && y in multiset(s) && key(x) == key(y) && x != y;
    t, t' := SortVaries(key, s, x, y);
  }

  lemma RulesVary(rs: seq<Rule>) returns (mid: seq<Rule>, cs: seq<Rule>, mid': seq<Rule>, cs': seq<Rule>)
    requires !KeyDetermines(Shape.RuleShapeName, multiset(Map(Shape.OfRule, rs)))
    ensures CanonicalRules(rs, mid, cs) && CanonicalRules(rs, mid', cs') && cs != cs'
  {
    mid := Stable(RuleName, rs);
    StableIsSort(RuleName, rs);
    MapPermutation(Shape.OfRule, rs, mid);
    var p, q := Clash(Shape.OfRule, Shape.RuleShapeName, mid);
    mid' := Swapped(mid, p, q);
    SwapKeepsSorted(RuleName, mid, p, q);
    RulesSorted(rs, mid);
    RulesSorted(rs, mid');
    cs, cs' := Map(SortRule, mid), Map(SortRule, mid');
    assert cs'[p] == cs[q];
    RuleKeepsShape(mid[p], cs[p]);
    RuleKeepsShape(mid[q], cs[q]);
  }

  lemma FrontendVaries(f: Frontend) returns (c: Frontend, c': Frontend)
    requires !Shape.UnambiguousFrontend(Shape.OfFrontend(f))
    ensures CanonicalFrontend(f, c) && CanonicalFrontend(f, c') && c != c'
  {
    FrontendSorted(f);
    var s := SortFrontend(f);
    if !KeyDetermines(Shape.RuleShapeName, multiset(Map(Shape.OfRule, f.rules))) {
      var _, rs, _, rs' := RulesVary(f.rules);
      c, c' := s.(rules := rs), s.(rules := rs');
    } else {
      var t, t' := ClashingElements(FrontendTlsName, f.tlsConfigs);
      c, c' := s.(tlsConfigs := t), s.(tlsConfigs := t');
    }
  }

  lemma BackendVaries(b: Backend) returns (c: Backend, c': Backend)
    requires !Shape.UnambiguousBackend(Shape.OfBackend(b))
    ensures CanonicalBackend(b, c) && CanonicalBackend(b, c') && c != c'
  {
    BackendSorted(b);
    var s := SortBackend(b);
    if !KeyDetermines(MemberName, multiset(b.members)) {
      var t, t' := ClashingElements(MemberName, b.members);
      c, c' := s.(members := t), s.(members := t');
    } else {
      var t, t' := ClashingElements(BackendTlsName, b.tlsConfigs);
      c, c' := s.(tlsConfigs := t), s.(tlsConfigs := t');
    }
  }

  lemma SortedUpdate<T(!new)>(key: T -> string, s: seq<T>, i: nat, x: T) returns (t: seq<T>)
    requires i < |s|
    ensures IsSort(ByKey(key), s[i := x], t) && multiset(t) == multiset(s) - multiset{s[i]} + multiset{x}
  {
    t := Stable(key, s[i := x]);
    StableIsSort(key, s[i := x]);
  }

  // One frontend that varies makes the list vary.
  lemma FrontendAt(fs: seq<Frontend>, i: nat, c: Frontend, k: nat)
    requires i < |fs| && CanonicalFrontend(fs[i], c) && k < |fs|
    ensures CanonicalFrontend(fs[k], Map(SortFrontend, fs)[i := c][k])
  {
    FrontendSorted(fs[k]);
  }

  lemma FrontendsWith(fs: seq<Frontend>, i: nat, c: Frontend) returns (mid: seq<Frontend>, cs: seq<Frontend>)
    requires i < |fs| && CanonicalFrontend(fs[i], c)
    ensures CanonicalFrontends(fs, mid, cs)
    ensures multiset(cs) == multiset(Map(SortFrontend, fs)) - multiset{SortFrontend(fs[i])} + multiset{c}
  {
    mid := Map(SortFrontend, fs)[i := c];
    cs := SortedUpdate(FrontendName, Map(SortFrontend, fs), i, c);
    forall k | 0 <= k < |fs| ensures CanonicalFrontend(fs[k], mid[k]) {
      FrontendAt(fs, i, c, k);
    }
  }

  lemma FrontendsVaryInside(fs: seq<Frontend>, i: nat) returns (mid: seq<Frontend>, cs: seq<Frontend>, mid': seq<Frontend>, cs': seq<Frontend>)
    requires i < |fs| && !Shape.UnambiguousFrontend(Shape.OfFrontend(fs[i]))
    ensures CanonicalFrontends(fs, mid, cs) && CanonicalFrontends(fs, mid', cs') && cs != cs'
  {
    var c, c' := FrontendVaries(fs[i]);
    mid, cs := FrontendsWith(fs, i, c);
    mid', cs' := FrontendsWith(fs, i, c');
    assert multiset(cs)[c] == multiset(cs')[c] + 1;
  }

  lemma FrontendsVaryOutside(fs: seq<Frontend>) returns (mid: seq<Frontend>, cs: seq<Frontend>, mid': seq<Frontend>, cs': seq<Frontend>)
    requires !KeyDetermines(Shape.FrontendShapeName, multiset(Map(Shape.OfFrontend, fs)))
    ensures CanonicalFrontends(fs, mid, cs) && CanonicalFrontends(fs, mid', cs') && cs != cs'
  {
    var i, j := Clash(Shape.OfFrontend, Shape.FrontendShapeName, fs);
    FrontendsSorted(fs);
    mid := Map(SortFrontend, fs);
    mid' := mid;
    FrontendKeepsShape(fs[i], mid[i]);
    FrontendKeepsShape(fs[j], mid[j]);
    cs, cs' := SortVaries(FrontendName, mid, mid[i], mid[j]);
  }

  ghost predicate FrontendsAmbiguous(fs: seq<Frontend>) {
    || !KeyDetermines(Shape.FrontendShapeName, multiset(Map(Shape.OfFrontend, fs)))
    || exists f :: f in multiset(Map(Shape.OfFrontend, fs)) && !Shape.UnambiguousFrontend(f)
  }

  lemma FrontendsVary(fs: seq<Frontend>) returns (mid: seq<Frontend>, cs: seq<Frontend>, mid': seq<Frontend>, cs': seq<Frontend>)
    requires FrontendsAmbiguous(fs)
    ensures CanonicalFrontends(fs, mid, cs) && CanonicalFrontends(fs, mid', cs') && cs != cs'
  {
    if i :| 0 <= i < |fs| && !Shape.UnambiguousFrontend(Shape.OfFrontend(fs[i])) {
      mid, cs, mid', cs' := FrontendsVaryInside(fs, i);
    } else {
      assert forall x :: x in Map(Shape.OfFrontend, fs) ==> Shape.UnambiguousFrontend(x);
      mid, cs, mid', cs' := FrontendsVaryOutside(fs);
    }
  }

  lemma BackendAt(bs: seq<Backend>, i: nat, c: Backend, k: nat)
    requires i < |bs| && CanonicalBackend(bs[i], c) && k < |bs|
    ensures CanonicalBackend(bs[k], Map(SortBackend, bs)[i := c][k])
  {
    BackendSorted(bs[k]);
  }

  lemma BackendsWith(bs: seq<Backend>, i: nat, c: Backend) returns (mid: seq<Backend>, cs: seq<Backend>)
    requires i < |bs| && CanonicalBackend(bs[i], c)
    ensures CanonicalBackends(bs, mid, cs)
    ensures multiset(cs) == multiset(Map(SortBackend, bs)) - multiset{SortBackend(bs[i])} + multiset{c}
  {
    mid := Map(SortBackend, bs)[i := c];
    cs := SortedUpdate(BackendName, Map(SortBackend, bs), i, c);
    forall k | 0 <= k < |bs| ensures CanonicalBackend(bs[k], mid[k]) {
      BackendAt(bs, i, c, k);
    }
  }

  lemma BackendsVaryInside(bs: seq<Backend>, i: nat) returns (mid: seq<Backend>, cs: seq<Backend>, mid': seq<Backend>, cs': seq<Backend>)
    requires i < |bs| && !Shape.UnambiguousBackend(Shape.OfBackend(bs[i]))
    ensures CanonicalBackends(bs, mid, cs) && CanonicalBackends(bs, mid', cs') && cs != cs'
  {
    var c, c' := BackendVaries(bs[i]);
    mid, cs := BackendsWith(bs, i, c);
    mid', cs' := BackendsWith(bs, i, c');
    assert multiset(cs)[c] == multiset(cs')[c] + 1;
  }

  lemma BackendsVaryOutside(bs: seq<Backend>) returns (mid: seq<Backend>, cs: seq<Backend>, mid': seq<Backend>, cs': seq<Backend>)
    requires !KeyDetermines(Shape.BackendShapeName, multiset(Map(Shape.OfBackend, bs)))
    ensures CanonicalBackends(bs, mid, cs) && CanonicalBackends(bs, mid', cs') && cs != cs'
  {
    var i, j := Clash(Shape.OfBackend, Shape.BackendShapeName, bs);
    BackendsSorted(bs);
    mid := Map(SortBackend, bs);
    mid' := mid;
    assert CanonicalBackend(bs[i], mid[i]) && CanonicalBackend(bs[j], mid[j]);
    cs, cs' := SortVaries(BackendName, mid, mid[i], mid[j]);
  }

  ghost predicate BackendsAmbiguous(bs: seq<Backend>) {
    || !KeyDetermines(Shape.BackendShapeName, multiset(Map(Shape.OfBackend, bs)))
    || exists b :: b in multiset(Map(Shape.OfBackend, bs)) && !Shape.UnambiguousBackend(b)
  }

  lemma BackendsVary(bs: seq<Backend>) returns (mid: seq<Backend>, cs: seq<Backend>, mid': seq<Backend>, cs': seq<Backend>)
    requires BackendsAmbiguous(bs)
    ensures CanonicalBackends(bs, mid, cs) && CanonicalBackends(bs, mid', cs') && cs != cs'
  {
    if i :| 0 <= i < |bs| && !Shape.UnambiguousBackend(Shape.OfBackend(bs[i])) {
      mid, cs, mid', cs' := BackendsVaryInside(bs, i);
    } else {
      assert forall x :: x in Map(Shape.OfBackend, bs) ==> Shape.UnambiguousBackend(x);
      mid, cs, mid', cs' := BackendsVaryOutside(bs);
    }
  }

  lemma WithFrontends(r: Request, cs: seq<Frontend>)
    requires exists mid :: CanonicalFrontends(r.frontends, mid, cs)
    ensures Canonical(r, SortRequest(r).(frontends := cs))
  {
    RequestSorted(r);
    CanonicalParts(r, SortRequest(r).(frontends := cs));
  }

  lemma WithBackends(r: Request, cs: seq<Backend>)
    requires exists mid :: CanonicalBackends(r.backends, mid, cs)
    ensures Canonical(r, SortRequest(r).(backends := cs))
  {
    RequestSorted(r);
    CanonicalParts(r, SortRequest(r).(backends := cs));
  }

  lemma WithIpAddresses(r: Request, cs: seq<IpAddress>)
    requires IsSort(ByKey(IpNetworkName), r.ipAddresses, cs)
    ensures Canonical(r, SortRequest(r).(ipAddresses := cs))
  {
    RequestSorted(r);
    CanonicalParts(r, SortRequest(r).(ipAddresses := cs));
  }

  // An ambiguous request has two sorted forms.
  lemma RequestVaries(r: Request) returns (c: Request, c': Request)
    requires !Shape.Unambiguous(r)
    ensures Canonical(r, c) && Canonical(r, c') && c != c'
  {
    var s := SortRequest(r);
    var q := Shape.OfRequest(r);
    if !KeyDetermines(IpNetworkName, q.ipAddresses) {
      var t, t' := ClashingElements(IpNetworkName, r.ipAddresses);
      WithIpAddresses(r, t);
      WithIpAddresses(r, t');
      c, c' := s.(ipAddresses := t), s.(ipAddresses := t');
    } else if BackendsAmbiguous(r.backends) {
      var _, t, _, t' := BackendsVary(r.backends);
      WithBackends(r, t);
      WithBackends(r, t');
      c, c' := s.(backends := t), s.(backends := t');
    } else {
      var _, t, _, t' := FrontendsVary(r.frontends);
      WithFrontends(r, t);
      WithFrontends(r, t');
      c, c' := s.(frontends := t), s.(frontends := t');
    }
  }

  // ----- the comparison -----

  // Every run of the comparison of a with b gives the verdict it should.
  ghost predicate Reliable(a: Request, b: Request) {
    forall a', b', e :: Compared(a, b, a', b', e) ==> (e.None? <==> Shape.SameConfiguration(a, b))
  }

  lemma ListsEqual(a: Request, b: Request)
    requires ListMismatch(a, b).None?
    ensures a.networks == b.networks && a.resolvers == b.resolvers && a.labels == b.labels
    ensures a.frontends == b.frontends && a.backends == b.backends && a.ipAddresses == b.ipAddresses
  {
  }

  // The comparison of two requests is reliable exactly when they differ anyway or their common
  // shape is unambiguous.
  lemma ReliableIffUnambiguous(a: Request, b: Request)
    ensures Reliable(a, b) <==> (Shape.SameConfiguration(a, b) ==> Shape.Unambiguous(a))
  {
    if Shape.SameConfiguration(a, b) ==> Shape.Unambiguous(a) {
      forall a', b', e | Compared(a, b, a', b', e) ensures e.None? <==> Shape.SameConfiguration(a, b) {
        ComparisonSound(a, b, a', b', e);
        if Shape.SameConfiguration(a, b) {
          ComparisonDecides(a, b, a', b', e);
        }
      }
    } else {
      var c, c' := Unreliable(a, b);
      assert Compared(a, b, c, c', ListMismatch(c, c'));
    }
  }

  lemma Unreliable(a: Request, b: Request) returns (a': Request, b': Request)
    requires Shape.SameConfiguration(a, b) && !Shape.Unambiguous(a)
    ensures Compared(a, b, a', b', ListMismatch(a', b')) && ListMismatch(a', b').Some?
  {
    assert EarlyMismatch(a, b).None? by {
      Shape.SameShapeSameLengths(a, b);
      EarlyMatch(a, b);
    }
    b' := SortRequest(b);
    RequestSorted(b);
    var c, c' := RequestVaries(a);
    a' := if ListMismatch(c, b').Some? then c else c';
    if ListMismatch(c, b').None? && ListMismatch(c', b').None? {
      ListsEqual(c, b');
      ListsEqual(c', b');
      SameListsEqual(a, c, c');
    }
  }

  lemma SameListsEqual(a: Request, c: Request, c': Request)
    requires SameScalars(a, c) && SameScalars(a, c')
    requires c.networks == c'.networks && c.resolvers == c'.resolvers && c.labels == c'.labels
    requires c.frontends == c'.frontends && c.backends == c'.backends && c.ipAddresses == c'.ipAddresses
    ensures c == c'
  {
  }

  // So the default configuration of a service is not reliably equal to itself exactly when some node
  // has two different internal addresses: its members then share the name of the node.
  lemma DuplicateNamesMayDiffer(s: Service, nodes: seq<Node>, plan: Plan, privateNetwork: string, name: string, zone: string)
    requires DistinctKeys(PortName, s.ports) && DistinctKeys(NodeName, nodes)
    ensures var r := DefaultRequest(s, nodes, plan, privateNetwork, name, zone);
            Reliable(r, r) <==> s.ports == [] || AddressesAgree(nodes)
  {
    var r := DefaultRequest(s, nodes, plan, privateNetwork, name, zone);
    ReliableIffUnambiguous(r, r);
    DefaultRequestUnambiguous(s, nodes, plan, privateNetwork, name, zone);
    Shape.SameConfigurationSymmetric(r, r);
  }
}
