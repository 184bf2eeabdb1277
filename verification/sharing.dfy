// What the comparison does to the live load balancer in memory. The conversion makes new lists for almost
// everything, but keeps the labels, the matchers and actions of rules and the networks of frontends; sorting
// all lists of the copy in place sorts these lists of the original as well, and nothing else.
module Sharing {
  import opened Wrappers
  import opened Ordering
  import opened Sorting
  import opened Config
  import opened CanonicalForm
  import opened Conversion
  import Shape

  // A list of values in memory, which several objects may hold.
  class Slice<T(!new)> {
    var items: seq<T>

    constructor (items: seq<T>)
      ensures this.items == items
    {
      this.items := items;
    }

    method SortStable(key: T -> string)
      modifies this
      ensures IsStableSort(ByKey(key), old(items), items)
    {
      items := SortStableByKey(key, items);
    }

    method Sort(key: T -> string)
      modifies this
      ensures IsSort(ByKey(key), old(items), items)
    {
      items := SortByKey(key, items);
    }
  }

  // All positions below n, in some order.
  predicate IsOrder(order: seq<nat>, n: nat) {
    && |order| == n
    && (forall i :: 0 <= i < n ==> order[i] < n)
    && (forall k :: 0 <= k < n ==> k in order)
    && (forall i, j :: 0 <= i < j < n ==> order[i] != order[j])
  }

  lemma {:induction false} PositionsOccurOnce(n: nat, k: nat)
    ensures multiset(seq(n, (i: nat) => i))[k] == if k < n then 1 else 0
  {
    if n > 0 {
      PositionsOccurOnce(n - 1, k);
      assert seq(n, (i: nat) => i) == seq(n - 1, (i: nat) => i) + [n - 1];
    }
  }

  lemma PermutedPositions(n: nat, order: seq<nat>)
    requires Permutation(seq(n, (i: nat) => i), order)
    ensures IsOrder(order, n)
  {
    PermutationLength(seq(n, (i: nat) => i), order);
    forall i | 0 <= i < n ensures order[i] < n {
      PositionsOccurOnce(n, order[i]);
      assert order[i] in multiset(order);
    }
    forall k | 0 <= k < n ensures k in order {
      PositionsOccurOnce(n, k);
      assert k in multiset(order);
    }
    forall i, j | 0 <= i < j < n ensures order[i] != order[j] {
      PositionsOccurOnce(n, order[i]);
      assert order == order[..j] + order[j..];
      assert order[i] in order[..j] && order[j] in order[j..];
    }
  }

  // A list in memory of elements that refer to further lists.
  class List<T> {
    var items: seq<T>

    constructor (items: seq<T>)
      ensures this.items == items
    {
      this.items := items;
    }

    method Sort(key: T -> string) returns (ghost order: seq<nat>)
      modifies this
      ensures |items| == |old(items)| && IsOrder(order, |items|)
      ensures forall i :: 0 <= i < |items| ==> items[i] == old(items)[order[i]]
      ensures forall i, j :: 0 <= i < j < |items| ==> CompareStrings(key(items[i]), key(items[j])) <= 0
    {
      var all := items;
      var keyAt: nat -> string := (i: nat) => if i < |all| then key(all[i]) else "";
      var sorted := SortByKey<nat>(keyAt, seq(|all|, (i: nat) => i));
      PermutedPositions(|all|, sorted);
      order := sorted;
      items := seq(|all|, i requires 0 <= i < |all| => all[sorted[i]]);
      forall i, j | 0 <= i < j < |items| ensures CompareStrings(key(items[i]), key(items[j])) <= 0 {
        assert ByKey(keyAt)(sorted[i], sorted[j]) <= 0;
      }
    }
  }

  // Rules, frontends, backends and a load balancer or request with their lists. The lists of the same name
  // inside the value parts are not looked at.
  datatype RuleRef = RuleRef(rule: Rule, matchers: Slice<Matcher>, actions: Slice<Action>)

  datatype FrontendRef = FrontendRef(frontend: Frontend, rules: List<RuleRef>, tlsConfigs: Slice<FrontendTls>,
                                     networks: Slice<FrontendNetwork>)

  datatype BackendRef = BackendRef(backend: Backend, members: Slice<Member>, tlsConfigs: Slice<BackendTls>)

  datatype Lists = Lists(networks: Slice<Network>, resolvers: Slice<Resolver>, labels: Slice<Label>,
                         frontends: List<FrontendRef>, backends: List<BackendRef>, ipAddresses: Slice<IpAddress>)

  datatype BalancerRef = BalancerRef(lb: LoadBalancer, lists: Lists)

  // ----- what they stand for -----

  function RuleSlices(r: RuleRef): set<object> {
    {r.matchers, r.actions}
  }

  function RulesSlices(rs: seq<RuleRef>): set<object> {
    set r, o | r in rs && o in RuleSlices(r) :: o
  }

  function RuleValue(r: RuleRef): Rule
    reads RuleSlices(r)
  {
    r.rule.(matchers := r.matchers.items, actions := r.actions.items)
  }

  function RulesValue(rs: seq<RuleRef>): (v: seq<Rule>)
    reads RulesSlices(rs)
    ensures |v| == |rs| && forall i :: 0 <= i < |rs| ==> v[i] == RuleValue(rs[i])
  {
    if rs == [] then [] else [RuleValue(rs[0])] + RulesValue(rs[1..])
  }

  // The lists of a frontend that its copy shares, and those that it does not.
  function SharedByFrontend(f: FrontendRef): set<object>
    reads f.rules
  {
    {f.networks} + RulesSlices(f.rules.items)
  }

  function OwnOfFrontend(f: FrontendRef): set<object> {
    {f.rules, f.tlsConfigs}
  }

  function FrontendLists(f: FrontendRef): set<object>
    reads f.rules
  {
    SharedByFrontend(f) + OwnOfFrontend(f)
  }

  function FrontendValue(f: FrontendRef): Frontend
    reads f.rules, FrontendLists(f)
  {
    f.frontend.(rules := RulesValue(f.rules.items), tlsConfigs := f.tlsConfigs.items, networks := f.networks.items)
  }

  function FrontendsLists(fs: seq<FrontendRef>): set<object>
    reads set f | f in fs :: f.rules
  {
    set f, o | f in fs && o in FrontendLists(f) :: o
  }

  function FrontendsValue(fs: seq<FrontendRef>): (v: seq<Frontend>)
    reads set f | f in fs :: f.rules
    reads FrontendsLists(fs)
    ensures |v| == |fs| && forall i :: 0 <= i < |fs| ==> v[i] == FrontendValue(fs[i])
  {
    if fs == [] then [] else [FrontendValue(fs[0])] + FrontendsValue(fs[1..])
  }

  function BackendLists(b: BackendRef): set<object> {
    {b.members, b.tlsConfigs}
  }

  function BackendsLists(bs: seq<BackendRef>): set<object> {
    set b, o | b in bs && o in BackendLists(b) :: o
  }

  function BackendValue(b: BackendRef): Backend
    reads BackendLists(b)
  {
    b.backend.(members := b.members.items, tlsConfigs := b.tlsConfigs.items)
  }

  function BackendsValue(bs: seq<BackendRef>): (v: seq<Backend>)
    reads BackendsLists(bs)
    ensures |v| == |bs| && forall i :: 0 <= i < |bs| ==> v[i] == BackendValue(bs[i])
  {
    if bs == [] then [] else [BackendValue(bs[0])] + BackendsValue(bs[1..])
  }

  function FlatLists(l: Lists): set<object> {
    {l.networks, l.resolvers, l.labels, l.frontends, l.backends, l.ipAddresses}
  }

  function AllLists(l: Lists): set<object>
    reads l.frontends, l.backends, set f | f in l.frontends.items :: f.rules
  {
    FlatLists(l) + FrontendsLists(l.frontends.items) + BackendsLists(l.backends.items)
  }

  function Value(b: BalancerRef): LoadBalancer
    reads b.lists.frontends, b.lists.backends, set f | f in b.lists.frontends.items :: f.rules
    reads AllLists(b.lists)
  {
    b.lb.(networks := b.lists.networks.items, resolvers := b.lists.resolvers.items, labels := b.lists.labels.items,
          frontends := FrontendsValue(b.lists.frontends.items), backends := BackendsValue(b.lists.backends.items),
          ipAddresses := b.lists.ipAddresses.items)
  }

  // ----- sorting rules -----

  function ConvertedRuleRef(r: RuleRef): RuleRef {
    r.(rule := ConvertedRule(r.rule))
  }

  function RuleRefName(r: RuleRef): string {
    r.rule.name
  }

  predicate SeparateRules(rs: seq<RuleRef>) {
    forall i, j :: 0 <= i < j < |rs| ==> RuleSlices(rs[i]) !! RuleSlices(rs[j])
  }

  // Position by position the same, but for the order of the shared lists.
  ghost predicate RulesReordered(rs: seq<Rule>, cs: seq<Rule>) {
    |rs| == |cs| && forall i :: 0 <= i < |rs| ==> CanonicalRule(rs[i], cs[i])
  }

  method SortRule(r: RuleRef)
    modifies RuleSlices(r)
    ensures CanonicalRule(old(RuleValue(r)), RuleValue(r))
  {
    r.actions.SortStable(ActionKind);
    r.matchers.SortStable(MatcherKind);
  }

  // The rules of the copy, in whatever order they are by now; states what that does to the rules they came from.
  method SortRules(ghost rs: seq<RuleRef>, cs: seq<RuleRef>, ghost order: seq<nat>)
    requires SeparateRules(rs) && IsOrder(order, |rs|)
    requires |cs| == |rs| && forall i :: 0 <= i < |cs| ==> cs[i] == ConvertedRuleRef(rs[order[i]])
    modifies RulesSlices(rs)
    ensures RulesReordered(old(RulesValue(rs)), RulesValue(rs))
  {
    for y := 0 to |cs|
      invariant forall i :: 0 <= i < y ==> CanonicalRule(old(RuleValue(rs[order[i]])), RuleValue(rs[order[i]]))
      invariant forall i :: y <= i < |cs| ==> RuleValue(rs[order[i]]) == old(RuleValue(rs[order[i]]))
    {
      assert RuleSlices(cs[y]) == RuleSlices(rs[order[y]]);
      SortRule(cs[y]);
    }
    forall k | 0 <= k < |rs| ensures CanonicalRule(old(RuleValue(rs[k])), RuleValue(rs[k])) {
      assert k in order;
    }
  }

  // ----- sorting frontends and backends -----

  // The copy of a frontend shares its networks and the lists of its rules.
  predicate CopiedFrontend(f: FrontendRef, c: FrontendRef)
    reads f.rules, c.rules
  {
    c.networks == f.networks && c.rules.items == Map(ConvertedRuleRef, f.rules.items)
  }

  predicate SeparateFrontend(f: FrontendRef)
    reads f.rules
  {
    && SeparateRules(f.rules.items) && f.networks !in RulesSlices(f.rules.items)
    && SharedByFrontend(f) !! OwnOfFrontend(f)
  }

  predicate SeparateFrontends(fs: seq<FrontendRef>)
    reads set f | f in fs :: f.rules
  {
    && (forall f :: f in fs ==> SeparateFrontend(f))
    && forall i, j :: 0 <= i < j < |fs| ==> FrontendLists(fs[i]) !! FrontendLists(fs[j])
  }

  // The copies have lists of their own.
  predicate SeparateCopies(fs: seq<FrontendRef>, cs: seq<FrontendRef>)
    reads set f | f in fs :: f.rules
  {
    && (forall i, j :: 0 <= i < |cs| && 0 <= j < |fs| ==> OwnOfFrontend(cs[i]) !! FrontendLists(fs[j]))
    && forall i, j :: 0 <= i < j < |cs| ==> OwnOfFrontend(cs[i]) !! OwnOfFrontend(cs[j])
  }

  predicate CopiedFrontends(fs: seq<FrontendRef>, cs: seq<FrontendRef>)
    reads set f | f in fs :: f.rules
    reads set c | c in cs :: c.rules
  {
    |cs| == |fs| && forall i :: 0 <= i < |cs| ==> CopiedFrontend(fs[i], cs[i])
  }

  function SharedByFrontends(fs: seq<FrontendRef>): set<object>
    reads set f | f in fs :: f.rules
  {
    set f, o | f in fs && o in SharedByFrontend(f) :: o
  }

  function OwnOfFrontends(cs: seq<FrontendRef>): set<object> {
    set c, o | c in cs && o in OwnOfFrontend(c) :: o
  }

  ghost predicate FrontendReordered(f: Frontend, c: Frontend) {
    && c == f.(rules := c.rules, networks := c.networks)
    && RulesReordered(f.rules, c.rules)
    && IsSort(ByKey(FrontendNetworkName), f.networks, c.networks)
  }

  ghost predicate FrontendsReordered(fs: seq<Frontend>, cs: seq<Frontend>) {
    |fs| == |cs| && forall i :: 0 <= i < |fs| ==> FrontendReordered(fs[i], cs[i])
  }

  method SortFrontend(ghost f: FrontendRef, c: FrontendRef)
    requires CopiedFrontend(f, c) && SeparateFrontend(f) && OwnOfFrontend(c) !! FrontendLists(f)
    modifies SharedByFrontend(f), OwnOfFrontend(c)
    ensures FrontendReordered(old(FrontendValue(f)), FrontendValue(f))
  {
    ghost var before := RulesValue(f.rules.items);
    ghost var order := c.rules.Sort(RuleRefName);
    assert RulesValue(f.rules.items) == before;
    SortRules(f.rules.items, c.rules.items, order);
    ghost var rules := RulesValue(f.rules.items);
    c.tlsConfigs.Sort(FrontendTlsName);
    c.networks.Sort(FrontendNetworkName);
    assert RulesValue(f.rules.items) == rules;
  }

  // One step of the loop leaves the other frontends alone.
  method SortFrontendAt(ghost fs: seq<FrontendRef>, cs: seq<FrontendRef>, i: nat)
    requires |cs| == |fs| && i < |cs| && CopiedFrontend(fs[i], cs[i]) && SeparateFrontends(fs) && SeparateCopies(fs, cs)
    modifies SharedByFrontend(fs[i]), OwnOfFrontend(cs[i])
    ensures FrontendReordered(old(FrontendValue(fs[i])), FrontendValue(fs[i]))
    ensures forall k :: 0 <= k < |fs| && k != i ==> FrontendValue(fs[k]) == old(FrontendValue(fs[k]))
    ensures forall k :: 0 <= k < |fs| && k != i ==> CopiedFrontend(fs[k], cs[k]) == old(CopiedFrontend(fs[k], cs[k]))
    ensures forall k :: 0 <= k < |fs| ==> SharedByFrontend(fs[k]) == old(SharedByFrontend(fs[k]))
    ensures SeparateFrontends(fs) && SeparateCopies(fs, cs)
  {
    SortFrontend(fs[i], cs[i]);
    forall k | 0 <= k < |fs| && k != i
      ensures FrontendValue(fs[k]) == old(FrontendValue(fs[k])) && CopiedFrontend(fs[k], cs[k]) == old(CopiedFrontend(fs[k], cs[k]))
    {
      assert FrontendLists(fs[k]) !! FrontendLists(fs[i]);
      assert OwnOfFrontend(cs[i]) !! FrontendLists(fs[k]);
      assert OwnOfFrontend(cs[i]) !! OwnOfFrontend(cs[k]);
    }
  }

  method SortFrontends(ghost fs: seq<FrontendRef>, cs: seq<FrontendRef>)
    requires CopiedFrontends(fs, cs) && SeparateFrontends(fs) && SeparateCopies(fs, cs)
    modifies SharedByFrontends(fs), OwnOfFrontends(cs)
    ensures FrontendsReordered(old(FrontendsValue(fs)), FrontendsValue(fs))
  {
    for i := 0 to |cs|
      invariant SeparateFrontends(fs) && SeparateCopies(fs, cs)
      invariant forall k :: 0 <= k < |fs| ==> SharedByFrontend(fs[k]) == old(SharedByFrontend(fs[k]))
      invariant forall k :: 0 <= k < i ==> FrontendReordered(old(FrontendValue(fs[k])), FrontendValue(fs[k]))
      invariant forall k :: i <= k < |cs| ==> FrontendValue(fs[k]) == old(FrontendValue(fs[k])) && CopiedFrontend(fs[k], cs[k])
    {
      assert fs[i] in fs && cs[i] in cs;
      SortFrontendAt(fs, cs, i);
    }
  }

  method SortBackends(cs: seq<BackendRef>)
    modifies BackendsLists(cs)
  {
    for i := 0 to |cs| {
      assert cs[i].members in BackendLists(cs[i]) && cs[i].tlsConfigs in BackendLists(cs[i]);
      cs[i].members.Sort(MemberName);
      cs[i].tlsConfigs.Sort(BackendTlsName);
    }
  }

  // ----- the copy -----

  method ConvertFrontend(f: FrontendRef) returns (c: FrontendRef)
    ensures CopiedFrontend(f, c) && fresh(OwnOfFrontend(c))
  {
    var rules := new List(Map(ConvertedRuleRef, f.rules.items));
    var tlsConfigs := new Slice(f.tlsConfigs.items);
    c := FrontendRef(f.frontend, rules, tlsConfigs, f.networks);
  }

  // No own list of a copy is among these, and none is in two copies.
  predicate Apart(lists: set<object>, cs: seq<FrontendRef>) {
    && (forall c :: c in cs ==> OwnOfFrontend(c) !! lists)
    && forall i, j :: 0 <= i < j < |cs| ==> OwnOfFrontend(cs[i]) !! OwnOfFrontend(cs[j])
  }

  // The copies are made of new lists, none of which is among these.
  method ConvertFrontends(fs: seq<FrontendRef>, ghost lists: set<object>) returns (cs: seq<FrontendRef>)
    ensures CopiedFrontends(fs, cs) && Apart(lists, cs)
  {
    cs := [];
    for i := 0 to |fs|
      invariant |cs| == i && forall k :: 0 <= k < i ==> CopiedFrontend(fs[k], cs[k])
      invariant Apart(lists, cs) && forall c :: c in cs ==> fresh(OwnOfFrontend(c))
    {
      var c := ConvertFrontend(fs[i]);
      cs := cs + [c];
    }
  }

  method ConvertBackend(i: nat, b: BackendRef) returns (r: Option<BackendRef>)
    ensures r.Some? <==> ConvertedBackendTls(i, old(b.tlsConfigs.items)).Some?
    ensures r.Some? ==> fresh(r.value.members) && fresh(r.value.tlsConfigs)
  {
    var tls := ConvertBackendTls(i, b.tlsConfigs.items);
    if tls.None? {
      return None;
    }
    var members := new Slice(b.members.items);
    var tlsConfigs := new Slice(tls.value);
    r := Some(BackendRef(b.backend, members, tlsConfigs));
  }

  method ConvertBackends(bs: seq<BackendRef>, ghost lists: set<object>) returns (r: Option<seq<BackendRef>>)
    ensures r.Some? <==> forall k :: 0 <= k < |bs| ==> ConvertedBackendTls(k, old(bs[k].tlsConfigs.items)).Some?
    ensures r.Some? ==> BackendsLists(r.value) !! lists
  {
    var cs: seq<BackendRef> := [];
    for i := 0 to |bs|
      invariant forall c :: c in cs ==> c.members !in lists && c.tlsConfigs !in lists
      invariant forall k :: 0 <= k < i ==> ConvertedBackendTls(k, old(bs[k].tlsConfigs.items)).Some?
    {
      var c := ConvertBackend(i, bs[i]);
      if c.None? {
        return None;
      }
      cs := cs + [c.value];
    }
    r := Some(cs);
  }

  lemma Convertible(bs: seq<Backend>)
    ensures ConvertedBackends(bs, 0).Some? <==> forall k :: 0 <= k < |bs| ==> ConvertedBackendTls(k, bs[k].tlsConfigs).Some?
  {
    ConvertedBackendsAt(bs, 0);
  }

  // ----- sorting the copy -----

  // The lists of the load balancer that its copy shares, and the others.
  function Shared(l: Lists): set<object>
    reads l.frontends, set f | f in l.frontends.items :: f.rules
  {
    {l.labels} + SharedByFrontends(l.frontends.items)
  }

  function Unshared(l: Lists): set<object>
    reads l.frontends, l.backends
  {
    FlatLists(l) - {l.labels}
    + OwnOfFrontends(l.frontends.items) + BackendsLists(l.backends.items)
  }

  // No list of the load balancer is in two places.
  predicate Separate(l: Lists)
    reads l.frontends, l.backends, set f | f in l.frontends.items :: f.rules
  {
    && Shared(l) !! Unshared(l) && l.labels !in SharedByFrontends(l.frontends.items)
    && SeparateFrontends(l.frontends.items)
  }

  ghost predicate Reordered(lb: LoadBalancer, c: LoadBalancer) {
    && c == lb.(labels := c.labels, frontends := c.frontends)
    && IsStableSort(ByKey(LabelKey), lb.labels, c.labels)
    && FrontendsReordered(lb.frontends, c.frontends)
  }

  function FrontendRefName(f: FrontendRef): string {
    f.frontend.name
  }

  function BackendRefName(b: BackendRef): string {
    b.backend.name
  }

  // The lists that only the copy has.
  method SortOwn(networks: Slice<Network>, resolvers: Slice<Resolver>, backends: seq<BackendRef>)
    modifies networks, resolvers, BackendsLists(backends)
  {
    networks.SortStable(NetworkName);
    resolvers.SortStable(ResolverName);
    SortBackends(backends);
  }

  // What sorting the frontends of a copy needs.
  predicate ReadyToSort(fs: seq<FrontendRef>, cs: seq<FrontendRef>)
    reads set f | f in fs :: f.rules
    reads set c | c in cs :: c.rules
  {
    CopiedFrontends(fs, cs) && SeparateFrontends(fs) && SeparateCopies(fs, cs)
  }

  twostate lemma FrontendUntouched(f: FrontendRef)
    requires f.rules.items == old(f.rules.items) && f.tlsConfigs.items == old(f.tlsConfigs.items)
    requires f.networks.items == old(f.networks.items)
    requires forall r :: r in old(f.rules.items) ==> r.matchers.items == old(r.matchers.items) && r.actions.items == old(r.actions.items)
    ensures FrontendValue(f) == old(FrontendValue(f))
  {
    assert RulesValue(f.rules.items) == old(RulesValue(f.rules.items));
  }

  method SortLabels(labels: Slice<Label>, ghost fs: seq<FrontendRef>, ghost cs: seq<FrontendRef>)
    requires ReadyToSort(fs, cs) && labels !in FrontendsLists(fs) && labels !in OwnOfFrontends(cs)
    modifies labels
    ensures IsStableSort(ByKey(LabelKey), old(labels.items), labels.items)
    ensures ReadyToSort(fs, cs) && SharedByFrontends(fs) == old(SharedByFrontends(fs))
    ensures forall f :: f in fs ==> FrontendValue(f) == old(FrontendValue(f))
  {
    labels.SortStable(LabelKey);
    forall f | f in fs ensures FrontendValue(f) == old(FrontendValue(f)) {
      assert labels !in old(FrontendLists(f));
      FrontendUntouched(f);
    }
  }

  // The lists that the copy shares, together with those inside of its frontends.
  method SortShared(labels: Slice<Label>, ghost fs: seq<FrontendRef>, cs: seq<FrontendRef>)
    requires ReadyToSort(fs, cs) && labels !in FrontendsLists(fs) && labels !in OwnOfFrontends(cs)
    modifies {labels}, SharedByFrontends(fs), OwnOfFrontends(cs)
    ensures IsStableSort(ByKey(LabelKey), old(labels.items), labels.items)
    ensures FrontendsReordered(old(FrontendsValue(fs)), FrontendsValue(fs))
  {
    SortLabels(labels, fs, cs);
    ghost var sorted := labels.items;
    SortFrontends(fs, cs);
    assert labels.items == sorted;
  }

  // The lists of a load balancer that no copy shares hold what they held.
  twostate predicate UnsharedSame(l: Lists)
    reads FlatLists(l), BackendsLists(l.backends.items)
    reads set b | b in l.backends.items :: b.members
    reads set b | b in l.backends.items :: b.tlsConfigs
  {
    && l.networks.items == old(l.networks.items) && l.resolvers.items == old(l.resolvers.items)
    && l.frontends.items == old(l.frontends.items) && l.backends.items == old(l.backends.items)
    && l.ipAddresses.items == old(l.ipAddresses.items)
    && forall b :: b in l.backends.items ==> b.members.items == old(b.members.items) && b.tlsConfigs.items == old(b.tlsConfigs.items)
  }

  twostate predicate FrontendSame(f: FrontendRef)
    reads f.rules, f.tlsConfigs, f.networks
    reads set r | r in f.rules.items :: r.matchers
    reads set r | r in f.rules.items :: r.actions
  {
    && f.rules.items == old(f.rules.items) && f.tlsConfigs.items == old(f.tlsConfigs.items)
    && f.networks.items == old(f.networks.items)
    && forall r :: r in f.rules.items ==> r.matchers.items == old(r.matchers.items) && r.actions.items == old(r.actions.items)
  }

  function OwnAtTop(c: Lists): set<object> {
    FlatLists(c) - {c.labels}
  }

  method SortUnshared(c: Lists, bs: seq<BackendRef>)
    modifies OwnAtTop(c), BackendsLists(bs)
  {
    SortOwn(c.networks, c.resolvers, bs);
    var _ := c.frontends.Sort(FrontendRefName);
    var _ := c.backends.Sort(BackendRefName);
    c.ipAddresses.Sort(IpNetworkName);
  }

  // What is in the lists of a load balancer, one by one.
  lemma InsideFrontend(f: FrontendRef, lists: set<object>)
    requires FrontendLists(f) <= lists
    ensures f.rules in lists && f.tlsConfigs in lists && f.networks in lists
    ensures forall r :: r in f.rules.items ==> r.matchers in lists && r.actions in lists
  {
    assert f.rules in OwnOfFrontend(f) && f.tlsConfigs in OwnOfFrontend(f) && f.networks in SharedByFrontend(f);
    forall r | r in f.rules.items ensures r.matchers in lists && r.actions in lists {
      assert r.matchers in RuleSlices(r) && r.actions in RuleSlices(r);
      assert RuleSlices(r) <= RulesSlices(f.rules.items);
    }
  }

  lemma Inside(l: Lists, lists: set<object>)
    requires lists == AllLists(l)
    ensures FlatLists(l) <= lists
    ensures forall f :: f in l.frontends.items ==> f.rules in lists && f.tlsConfigs in lists && f.networks in lists
    ensures forall f, r :: f in l.frontends.items && r in f.rules.items ==> r.matchers in lists && r.actions in lists
    ensures forall b :: b in l.backends.items ==> b.members in lists && b.tlsConfigs in lists
  {
    forall f | f in l.frontends.items
      ensures f.rules in lists && f.tlsConfigs in lists && f.networks in lists
      ensures forall r :: r in f.rules.items ==> r.matchers in lists && r.actions in lists
    {
      assert FrontendLists(f) <= FrontendsLists(l.frontends.items);
      InsideFrontend(f, lists);
    }
    forall b | b in l.backends.items ensures b.members in lists && b.tlsConfigs in lists {
      InsideBackend(b, l.backends.items);
    }
  }

  lemma InsideBackend(b: BackendRef, bs: seq<BackendRef>)
    requires b in bs
    ensures b.members in BackendsLists(bs) && b.tlsConfigs in BackendsLists(bs)
  {
    assert b.members in BackendLists(b) && b.tlsConfigs in BackendLists(b);
  }

  method SortUnsharedApart(ghost l: Lists, c: Lists, bs: seq<BackendRef>, ghost lists: set<object>)
    requires lists == AllLists(l) && OwnAtTop(c) !! lists && BackendsLists(bs) !! lists
    modifies OwnAtTop(c), BackendsLists(bs)
    ensures UnsharedSame(l) && l.labels.items == old(l.labels.items)
    ensures forall f :: f in l.frontends.items ==> FrontendSame(f)
  {
    Inside(l, lists);
    SortUnshared(c, bs);
  }

  lemma LabelsApart(l: Lists, cs: seq<FrontendRef>)
    requires Separate(l) && OwnOfFrontends(cs) !! AllLists(l)
    ensures l.labels !in FrontendsLists(l.frontends.items) && l.labels !in OwnOfFrontends(cs)
    ensures forall o :: o in Unshared(l) ==> o !in Shared(l) && o !in OwnOfFrontends(cs)
  {
    forall f, o | f in l.frontends.items && o in FrontendLists(f) ensures o != l.labels {
      assert o in SharedByFrontend(f) ==> o in SharedByFrontends(l.frontends.items);
      assert o in OwnOfFrontend(f) ==> o in OwnOfFrontends(l.frontends.items);
    }
    assert Unshared(l) <= AllLists(l) by {
      forall f, o | f in l.frontends.items && o in OwnOfFrontend(f) ensures o in FrontendsLists(l.frontends.items) {
        assert o in FrontendLists(f);
      }
    }
  }

  lemma InsideUnshared(l: Lists, own: set<object>)
    requires own == Unshared(l)
    ensures FlatLists(l) - {l.labels} <= own
    ensures forall f :: f in l.frontends.items ==> f.rules in own
    ensures forall b :: b in l.backends.items ==> b.members in own && b.tlsConfigs in own
  {
    forall f | f in l.frontends.items ensures f.rules in own {
      assert f.rules in OwnOfFrontend(f);
    }
    forall b | b in l.backends.items ensures b.members in own && b.tlsConfigs in own {
      InsideBackend(b, l.backends.items);
    }
  }

  method SortSharedApart(ghost l: Lists, labels: Slice<Label>, cs: seq<FrontendRef>, ghost own: set<object>)
    requires labels == l.labels
    requires own == Unshared(l) && own !! Shared(l) && own !! OwnOfFrontends(cs) && l.labels !in own
    requires ReadyToSort(l.frontends.items, cs) && l.labels !in FrontendsLists(l.frontends.items) && l.labels !in OwnOfFrontends(cs)
    modifies Shared(l), OwnOfFrontends(cs)
    ensures UnsharedSame(l) && forall f :: f in l.frontends.items ==> f.rules.items == old(f.rules.items)
    ensures IsStableSort(ByKey(LabelKey), old(l.labels.items), l.labels.items)
    ensures FrontendsReordered(old(FrontendsValue(l.frontends.items)), FrontendsValue(l.frontends.items))
  {
    InsideUnshared(l, own);
    SortShared(labels, l.frontends.items, cs);
  }

  // A copy of the lists of a load balancer: labels, networks of frontends, matchers and actions are shared, and
  // all others are its own.
  predicate Copied(l: Lists, c: Lists)
    reads l.frontends, l.backends, set f | f in l.frontends.items :: f.rules
    reads c.frontends, c.backends, set f | f in c.frontends.items :: f.rules
  {
    && c.labels == l.labels && ReadyToSort(l.frontends.items, c.frontends.items) && OwnLists(c) !! AllLists(l)
  }

  function OwnLists(c: Lists): set<object>
    reads c.frontends, c.backends
  {
    OwnAtTop(c) + OwnOfFrontends(c.frontends.items) + BackendsLists(c.backends.items)
  }

  twostate lemma SameLists(l: Lists)
    requires UnsharedSame(l) && forall f :: f in l.frontends.items ==> f.rules.items == old(f.rules.items)
    ensures AllLists(l) == old(AllLists(l))
  {
    var fs := l.frontends.items;
    forall f | f in fs ensures FrontendLists(f) == old(FrontendLists(f)) {
    }
    assert FrontendsLists(fs) == old(FrontendsLists(fs));
  }

  twostate lemma SameFrontends(fs: seq<FrontendRef>)
    requires forall f :: f in fs ==> FrontendSame(f)
    ensures FrontendsValue(fs) == old(FrontendsValue(fs))
  {
    forall k | 0 <= k < |fs| ensures FrontendsValue(fs)[k] == old(FrontendsValue(fs))[k] {
      assert fs[k] in fs && FrontendSame(fs[k]);
      FrontendUntouched(fs[k]);
    }
  }

  twostate lemma SameBackends(bs: seq<BackendRef>)
    requires forall b :: b in bs ==> b.members.items == old(b.members.items) && b.tlsConfigs.items == old(b.tlsConfigs.items)
    ensures BackendsValue(bs) == old(BackendsValue(bs))
  {
    forall k | 0 <= k < |bs| ensures BackendsValue(bs)[k] == old(BackendsValue(bs))[k] {
      assert bs[k] in bs;
    }
  }

  method SortCopy(ghost l: Lists, c: Lists)
    requires Separate(l) && Copied(l, c)
    modifies Shared(l), OwnLists(c)
    ensures UnsharedSame(l) && BackendsValue(l.backends.items) == old(BackendsValue(l.backends.items))
    ensures IsStableSort(ByKey(LabelKey), old(l.labels.items), l.labels.items)
    ensures FrontendsReordered(old(FrontendsValue(l.frontends.items)), FrontendsValue(l.frontends.items))
  {
    var cs, bs := c.frontends.items, c.backends.items;
    LabelsApart(l, cs);
    SortSharedApart(l, c.labels, cs, Unshared(l));
    SameLists(l);
    label shared:
    SortUnsharedApart(l, c, bs, AllLists(l));
    SameFrontends@shared(l.frontends.items);
    SameBackends(l.backends.items);
  }

  // Sorting the copy, as far as it reaches the load balancer: labels, matchers and actions are sorted stably,
  // networks of frontends somehow, all in their places; all other lists, which are sorted in the copy, stay as
  // they are. The lists that only the copy has come last here; no list is in both groups.
  method SortConverted(ghost b: BalancerRef, c: Lists)
    requires Separate(b.lists) && Copied(b.lists, c)
    modifies Shared(b.lists), OwnLists(c)
    ensures Reordered(old(Value(b)), Value(b))
  {
    SortCopy(b.lists, c);
  }

  method NewTop(l: Lists, fs: seq<FrontendRef>, bs: seq<BackendRef>, ghost lists: set<object>) returns (c: Lists)
    ensures c.labels == l.labels && c.frontends.items == fs && c.backends.items == bs && OwnAtTop(c) !! lists
  {
    var networks := new Slice(l.networks.items);
    var resolvers := new Slice(l.resolvers.items);
    var frontends := new List(fs);
    var backends := new List(bs);
    var ipAddresses := new Slice(l.ipAddresses.items);
    c := Lists(networks, resolvers, l.labels, frontends, backends, ipAddresses);
  }

  method NewLists(l: Lists, fs: seq<FrontendRef>, bs: seq<BackendRef>, ghost lists: set<object>) returns (c: Lists)
    requires ReadyToSort(l.frontends.items, fs) && lists == AllLists(l)
    ensures c.labels == l.labels && c.frontends.items == fs && c.backends.items == bs && OwnAtTop(c) !! lists
    ensures ReadyToSort(l.frontends.items, fs) && lists == AllLists(l)
  {
    c := NewTop(l, fs, bs, lists);
  }

  // The conversion makes such a copy, or panics.
  method ConvertLists(l: Lists) returns (r: Option<Lists>)
    requires Separate(l)
    ensures r.Some? <==> ConvertedBackends(old(BackendsValue(l.backends.items)), 0).Some?
    ensures r.Some? ==> Copied(l, r.value)
  {
    ghost var lists := AllLists(l);
    Convertible(BackendsValue(l.backends.items));
    var frontends := ConvertFrontends(l.frontends.items, lists);
    var backends := ConvertBackends(l.backends.items, lists);
    if backends.None? {
      return None;
    }
    assert AllLists(l) == lists;
    CopiesSeparate(l.frontends.items, frontends, lists);
    var c := NewLists(l, frontends, backends.value, lists);
    r := Some(c);
  }

  lemma CopiesSeparate(fs: seq<FrontendRef>, cs: seq<FrontendRef>, lists: set<object>)
    requires Apart(lists, cs) && FrontendsLists(fs) <= lists
    ensures SeparateCopies(fs, cs) && OwnOfFrontends(cs) !! lists
  {
    forall i, j | 0 <= i < |cs| && 0 <= j < |fs| ensures OwnOfFrontend(cs[i]) !! FrontendLists(fs[j]) {
      assert cs[i] in cs && FrontendLists(fs[j]) <= lists;
    }
  }

  // So the live load balancer still describes the same, frontend by frontend.
  lemma ReorderedKeepsShape(lb: LoadBalancer, c: LoadBalancer)
    requires Reordered(lb, c)
    ensures Groups(LabelKey, c.labels) == Groups(LabelKey, lb.labels)
    ensures Map(Shape.OfFrontend, c.frontends) == Map(Shape.OfFrontend, lb.frontends)
    ensures c.backends == lb.backends && c.networks == lb.networks && c.resolvers == lb.resolvers && c.ipAddresses == lb.ipAddresses
  {
    StableSortKeepsGroups(LabelKey, lb.labels, c.labels);
    forall i | 0 <= i < |lb.frontends| ensures Shape.OfFrontend(c.frontends[i]) == Shape.OfFrontend(lb.frontends[i]) {
      FrontendReorderedKeepsShape(lb.frontends[i], c.frontends[i]);
    }
  }

  lemma FrontendReorderedKeepsShape(f: Frontend, c: Frontend)
    requires FrontendReordered(f, c)
    ensures Shape.OfFrontend(c) == Shape.OfFrontend(f)
  {
    forall i | 0 <= i < |f.rules| ensures Shape.OfRule(c.rules[i]) == Shape.OfRule(f.rules[i]) {
      RuleKeepsShape(f.rules[i], c.rules[i]);
    }
    assert Map(Shape.OfRule, c.rules) == Map(Shape.OfRule, f.rules);
  }
}
