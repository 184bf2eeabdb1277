// Ensure limits the nodes and update does not: exactly when they disagree about a load balancer.
module Limits {
  import opened Wrappers
  import opened Sorting
  import opened Config
  import opened Naming
  import opened Nodes
  import opened Services
  import opened Builder
  import opened Overlays
  import opened DesiredState
  import opened Reordering
  import opened Compare
  import opened Conversion
  import opened Cloud
  import opened Update
  import opened Convergence
  import opened Insensitivity
  import Shape

  // ----- what the limit cuts off -----

  // Some node beyond the limit has an internal address.
  ghost predicate CutsOff(max: nat, nodes: seq<Node>) {
    && 0 < max < |nodes| == |StableSort(CompareNodes, nodes)|
    && exists n :: n in StableSort(CompareNodes, nodes)[max..] && InternalCount(n.addresses) > 0
  }

  lemma MembersConcat(m: seq<Node>, n: seq<Node>, port: int, sessions: int)
    ensures MembersOf(m + n, port, sessions) == MembersOf(m, port, sessions) + MembersOf(n, port, sessions)
  {
    if m == [] {
      assert m + n == n;
    } else {
      MembersConcat(m[1..], n, port, sessions);
      assert (m + n)[1..] == m[1..] + n;
    }
  }

  lemma NoMembers(nodes: seq<Node>, port: int, sessions: int)
    ensures MembersOf(nodes, port, sessions) == [] <==> forall n :: n in nodes ==> InternalCount(n.addresses) == 0
  {
    if nodes != [] {
      AddressCount(nodes[0], nodes[0].addresses, port, sessions);
      NoMembers(nodes[1..], port, sessions);
      assert nodes == [nodes[0]] + nodes[1..];
    }
  }

  // The members of all nodes are those of the kept ones and those that were cut off.
  lemma {:induction false} MembersSplit(max: nat, nodes: seq<Node>, port: int, sessions: int)
    requires 0 < max < |nodes| == |StableSort(CompareNodes, nodes)|
    ensures multiset(MembersOf(nodes, port, sessions)) ==
            multiset(MembersOf(Limited(max, nodes), port, sessions))
            + multiset(MembersOf(StableSort(CompareNodes, nodes)[max..], port, sessions))
  {
    var s := StableSort(CompareNodes, nodes);
    FlatMapPermutation(NodeMembers(port, sessions), nodes, s);
    assert s == s[..max] + s[max..];
    MembersConcat(s[..max], s[max..], port, sessions);
  }

  // Nothing with an address is cut off: the members are the same. Otherwise there are fewer.
  lemma LimitedMembers(max: nat, nodes: seq<Node>, port: int, sessions: int)
    ensures !CutsOff(max, nodes) ==>
              Permutation(MembersOf(nodes, port, sessions), MembersOf(Limited(max, nodes), port, sessions))
    ensures CutsOff(max, nodes) ==>
              |MembersOf(Limited(max, nodes), port, sessions)| < |MembersOf(nodes, port, sessions)|
  {
    PermutationLength(nodes, StableSort(CompareNodes, nodes));
    if 0 < max < |nodes| {
      var rest := MembersOf(StableSort(CompareNodes, nodes)[max..], port, sessions);
      MembersSplit(max, nodes, port, sessions);
      NoMembers(StableSort(CompareNodes, nodes)[max..], port, sessions);
      assert |multiset(MembersOf(nodes, port, sessions))| ==
             |multiset(MembersOf(Limited(max, nodes), port, sessions))| + |multiset(rest)|;
    }
  }

  // ----- who takes members from the defaults -----

  // Some backend of the merge takes its members from a default: the defaults themselves, or a backend of
  // the annotation that lists none and has the name of a port.
  predicate TakesMembers(backends: seq<Backend>, names: seq<string>) {
    if backends == [] then names != []
    else exists u :: u in backends && u.members == [] && NameAfterMerge(u.name, |backends|, names) in names
  }

  function OwnBackends(s: Service): seq<Backend> {
    if s.config.Decoded? then s.config.overlay.backends else []
  }

  predicate TakesNodes(s: Service) {
    TakesMembers(OwnBackends(s), Map(PortName, s.ports))
  }

  // Defaults that differ in their members only.
  ghost predicate SameButMembers(xs: seq<Backend>, ys: seq<Backend>) {
    |xs| == |ys| && forall i :: 0 <= i < |xs| ==> ys[i] == xs[i].(members := ys[i].members)
  }

  ghost predicate Sized(xs: seq<Backend>, k: nat) {
    forall x :: x in xs ==> |x.members| == k
  }

  lemma {:induction false} FirstNamedPairs(xs: seq<Backend>, ys: seq<Backend>, name: string)
    requires SameButMembers(xs, ys)
    ensures var x, y := FirstNamed(BackendName, xs, name), FirstNamed(BackendName, ys, name);
            && (x.Some? <==> y.Some?) && (x.Some? <==> name in Map(BackendName, xs))
            && (x.Some? ==> y.value == x.value.(members := y.value.members))
  {
    if xs != [] {
      assert ys[0] == xs[0].(members := ys[0].members);
      assert forall i :: 0 <= i < |xs[1..]| ==> xs[1..][i] == xs[i + 1] && ys[1..][i] == ys[i + 1];
      FirstNamedPairs(xs[1..], ys[1..], name);
      assert Map(BackendName, xs) == [xs[0].name] + Map(BackendName, xs[1..]);
    }
  }

  lemma {:induction false} NamedTheSame(backends: seq<Backend>, xs: seq<Backend>, i: nat)
    requires i < |backends|
    ensures |NamedBackends(backends, xs)| == |backends|
    ensures NamedBackends(backends, xs)[i] ==
            backends[i].(name := NameAfterMerge(backends[i].name, |backends|, Map(BackendName, xs)))
  {
  }

  predicate Takes(backends: seq<Backend>, names: seq<string>, i: nat)
    requires i < |backends|
  {
    backends[i].members == [] && NameAfterMerge(backends[i].name, |backends|, names) in names
  }

  // One merged backend under both defaults.
  lemma {:induction false} MergedPair(s: Service, backends: seq<Backend>, xs: seq<Backend>, ys: seq<Backend>, k: nat, l: nat, i: nat)
    requires SameButMembers(xs, ys) && Sized(xs, k) && Sized(ys, l) && i < |backends|
    ensures var x, y := MergedBackends(s, backends, xs)[i], MergedBackends(s, backends, ys)[i];
            if Takes(backends, Map(BackendName, xs), i) then |x.members| == k && |y.members| == l else x == y
  {
    assert Map(BackendName, xs) == Map(BackendName, ys) by {
      forall j | 0 <= j < |xs| ensures BackendName(xs[j]) == BackendName(ys[j]) {
        assert ys[j] == xs[j].(members := ys[j].members);
      }
    }
    NamedTheSame(backends, xs, i);
    NamedTheSame(backends, ys, i);
    var u := NamedBackends(backends, xs)[i];
    FirstNamedPairs(xs, ys, u.name);
    assert MergedBackends(s, backends, xs)[i] == MergeOneBackend(s, xs, u);
    assert MergedBackends(s, backends, ys)[i] == MergeOneBackend(s, ys, u);
  }

  // ----- the number of members -----

  function Total(bs: seq<Backend>): nat {
    if bs == [] then 0 else |bs[0].members| + Total(bs[1..])
  }

  function Units(x: Shape.BackendShape): seq<int> {
    seq(|x.members|, _ => 0)
  }

  lemma {:induction false} TotalOfShapes(bs: seq<Backend>)
    ensures Total(bs) == |FlatMap(Units, Map(Shape.OfBackend, bs))|
  {
    if bs != [] {
      TotalOfShapes(bs[1..]);
      assert Map(Shape.OfBackend, bs)[1..] == Map(Shape.OfBackend, bs[1..]);
      assert |multiset(bs[0].members)| == |bs[0].members|;
    }
  }

  lemma {:induction false} TotalByShape(xs: seq<Backend>, ys: seq<Backend>)
    requires Permutation(Map(Shape.OfBackend, xs), Map(Shape.OfBackend, ys))
    ensures Total(xs) == Total(ys)
  {
    TotalOfShapes(xs);
    TotalOfShapes(ys);
    FlatMapPermutation(Units, Map(Shape.OfBackend, xs), Map(Shape.OfBackend, ys));
    PermutationLength(FlatMap(Units, Map(Shape.OfBackend, xs)), FlatMap(Units, Map(Shape.OfBackend, ys)));
  }

  lemma {:induction false} TotalLess(xs: seq<Backend>, ys: seq<Backend>, i: nat)
    requires |xs| == |ys| && forall j :: 0 <= j < |xs| ==> |ys[j].members| <= |xs[j].members|
    ensures Total(ys) <= Total(xs)
    ensures i < |xs| && |ys[i].members| < |xs[i].members| ==> Total(ys) < Total(xs)
  {
    if xs != [] {
      assert forall j :: 0 <= j < |xs[1..]| ==> xs[1..][j] == xs[j + 1] && ys[1..][j] == ys[j + 1];
      TotalLess(xs[1..], ys[1..], if i == 0 then |xs| else i - 1);
    }
  }

  // Merging with defaults of different sizes: the same shapes exactly if no member comes from them.
  lemma {:induction false} MergedShapes(s: Service, backends: seq<Backend>, xs: seq<Backend>, ys: seq<Backend>, k: nat, l: nat)
    requires SameButMembers(xs, ys) && Sized(xs, k) && Sized(ys, l) && l < k
    ensures Permutation(Map(Shape.OfBackend, MergedBackends(s, backends, xs)), Map(Shape.OfBackend, MergedBackends(s, backends, ys)))
            <==> !TakesMembers(backends, Map(BackendName, xs))
  {
    var names := Map(BackendName, xs);
    var ms, ns := MergedBackends(s, backends, xs), MergedBackends(s, backends, ys);
    if backends == [] {
      TotalLess(xs, ys, 0);
    } else {
      forall i | 0 <= i < |backends|
        ensures if Takes(backends, names, i) then |ms[i].members| == k && |ns[i].members| == l else ms[i] == ns[i]
      {
        MergedPair(s, backends, xs, ys, k, l, i);
      }
      if i :| 0 <= i < |backends| && Takes(backends, names, i) {
        TotalLess(ms, ns, i);
      } else {
        assert ms == ns;
      }
    }
    if Permutation(Map(Shape.OfBackend, ms), Map(Shape.OfBackend, ns)) {
      TotalByShape(ms, ns);
    }
  }

  // ----- the desired requests -----

  lemma {:induction false} DefaultsPaired(s: Service, m: seq<Node>, n: seq<Node>, sessions: int)
    ensures SameButMembers(Map(BackendFor(s, m, sessions), s.ports), Map(BackendFor(s, n, sessions), s.ports))
    ensures Sized(Map(BackendFor(s, m, sessions), s.ports), InternalAddresses(m))
    ensures Map(BackendName, Map(BackendFor(s, m, sessions), s.ports)) == Map(PortName, s.ports)
  {
    forall p: Port ensures |ServiceBackend(s, m, sessions, p).members| == InternalAddresses(m) {
      MembersAreAddresses(m, p.nodePort, sessions, MemberAt(Node("", 0, [], map[], None), "", 0, 0));
    }
  }

  lemma {:induction false} SessionsKeepPairs(sessions: int, xs: seq<Backend>, ys: seq<Backend>, k: nat, l: nat)
    requires SameButMembers(xs, ys) && Sized(xs, k) && Sized(ys, l)
    ensures var f := BackendWithSessions(sessions);
            && SameButMembers(Map(f, xs), Map(f, ys)) && Sized(Map(f, xs), k) && Sized(Map(f, ys), l)
            && Map(BackendName, Map(f, xs)) == Map(BackendName, xs)
  {
  }

  lemma OverlayShapes(s: Service, o: Overlay, r: Request, q: Request, plans: map<string, Plan>, k: nat, l: nat)
    requires q == r.(backends := q.backends) && SameButMembers(r.backends, q.backends)
    requires Sized(r.backends, k) && Sized(q.backends, l) && l < k && MergedOverlay(s, o, r, plans).Ok?
    ensures MergedOverlay(s, o, q, plans).Ok?
    ensures var x, y := MergedOverlay(s, o, r, plans).value, MergedOverlay(s, o, q, plans).value;
            && y == x.(backends := y.backends)
            && (Permutation(Map(Shape.OfBackend, x.backends), Map(Shape.OfBackend, y.backends))
                <==> !TakesMembers(o.backends, Map(BackendName, r.backends)))
  {
    var d := Decode(o, r);
    assert d == Decode(o, q);
    var xs, ys := PlannedDefaults(r, d, plans).value, PlannedDefaults(q, d, plans).value;
    if d.plan != r.plan {
      SessionsKeepPairs(plans[d.plan].maxSessions, r.backends, q.backends, k, l);
    }
    assert Permutation(Map(Shape.OfBackend, MergedBackends(s, o.backends, xs)), Map(Shape.OfBackend, MergedBackends(s, o.backends, ys)))
           <==> !TakesMembers(o.backends, Map(BackendName, r.backends)) by {
      MergedShapes(s, o.backends, xs, ys, k, l);
    }
  }

  // The desired requests for two lists of nodes, the second with fewer addresses.
  lemma {:induction false} DesiredShapes(c: Settings, s: Service, m: seq<Node>, n: seq<Node>, plans: map<string, Plan>,
                                         clusterName: string, network: string, zone: string)
    requires InternalAddresses(n) < InternalAddresses(m)
    requires Desired(c, s, m, plans, clusterName, network, zone).Ok?
    ensures Desired(c, s, n, plans, clusterName, network, zone).Ok?
    ensures var x := Desired(c, s, m, plans, clusterName, network, zone).value;
            var y := Desired(c, s, n, plans, clusterName, network, zone).value;
            && y == x.(backends := y.backends)
            && (Permutation(Map(Shape.OfBackend, x.backends), Map(Shape.OfBackend, y.backends)) <==> !TakesNodes(s))
  {
    var r, q := Defaults(c, s, m, plans, clusterName, network, zone), Defaults(c, s, n, plans, clusterName, network, zone);
    var sessions := PlanNamed(plans, c.plan).maxSessions;
    DefaultsPaired(s, m, n, sessions);
    DefaultsPaired(s, n, m, sessions);
    RequestShapes(s, r, q, plans, InternalAddresses(m), InternalAddresses(n));
  }

  lemma RequestShapes(s: Service, r: Request, q: Request, plans: map<string, Plan>, k: nat, l: nat)
    requires q == r.(backends := q.backends) && SameButMembers(r.backends, q.backends)
    requires Sized(r.backends, k) && Sized(q.backends, l) && l < k
    requires Map(BackendName, r.backends) == Map(PortName, s.ports) && Merged(s, r, plans).Ok?
    ensures Merged(s, q, plans).Ok?
    ensures var x, y := Merged(s, r, plans).value, Merged(s, q, plans).value;
            && y == x.(backends := y.backends)
            && (Permutation(Map(Shape.OfBackend, x.backends), Map(Shape.OfBackend, y.backends)) <==> !TakesNodes(s))
  {
    if s.config.Decoded? {
      OverlayShapes(s, s.config.overlay, r, q, plans, k, l);
    } else {
      assert Merged(s, r, plans) == Ok(r) && Merged(s, q, plans) == Ok(q);
      assert Permutation(Map(Shape.OfBackend, r.backends), Map(Shape.OfBackend, q.backends)) <==> !TakesMembers([], Map(PortName, s.ports)) by {
        MergedShapes(s, [], r.backends, q.backends, k, l);
      }
    }
  }

  lemma {:induction false} LimitedAddresses(max: nat, nodes: seq<Node>)
    ensures CutsOff(max, nodes) ==> InternalAddresses(Limited(max, nodes)) < InternalAddresses(nodes)
  {
    var m := MemberAt(Node("", 0, [], map[], None), "", 0, 0);
    MembersAreAddresses(nodes, 0, 0, m);
    MembersAreAddresses(Limited(max, nodes), 0, 0, m);
    LimitedMembers(max, nodes, 0, 0);
  }

  lemma NothingCutOff(c: Settings, s: Service, nodes: seq<Node>, max: nat, plans: map<string, Plan>,
                      clusterName: string, network: string, zone: string)
    requires !CutsOff(max, nodes)
    ensures SameOutcome(Desired(c, s, nodes, plans, clusterName, network, zone),
                        Desired(c, s, Limited(max, nodes), plans, clusterName, network, zone))
  {
    var sessions := PlanNamed(plans, c.plan).maxSessions;
    var r := Defaults(c, s, nodes, plans, clusterName, network, zone);
    var q := Defaults(c, s, Limited(max, nodes), plans, clusterName, network, zone);
    forall i | 0 <= i < |s.ports| ensures Shape.OfBackend(r.backends[i]) == Shape.OfBackend(q.backends[i]) {
      LimitedMembers(max, nodes, s.ports[i].nodePort, sessions);
    }
    MergedReorderedNodes(s, r, q, plans);
  }

  // Ensure and update desire the same, up to order, exactly if the limit cuts off no address or no member
  // comes from the nodes.
  lemma LimitedOutcome(c: Settings, s: Service, nodes: seq<Node>, max: nat, plans: map<string, Plan>,
                       clusterName: string, network: string, zone: string)
    requires Desired(c, s, nodes, plans, clusterName, network, zone).Ok?
    ensures SameOutcome(Desired(c, s, nodes, plans, clusterName, network, zone),
                        Desired(c, s, Limited(max, nodes), plans, clusterName, network, zone))
            <==> !(CutsOff(max, nodes) && TakesNodes(s))
    ensures Desired(c, s, Limited(max, nodes), plans, clusterName, network, zone).Ok?
  {
    if CutsOff(max, nodes) {
      LimitedAddresses(max, nodes);
      DesiredShapes(c, s, nodes, Limited(max, nodes), plans, clusterName, network, zone);
    } else {
      NothingCutOff(c, s, nodes, max, plans, clusterName, network, zone);
    }
  }

  lemma OneOfTwoCutOff(m: Node, n: Node)
    requires InternalCount(m.addresses) > 0 && InternalCount(n.addresses) > 0
    ensures CutsOff(1, [m, n])
  {
    var sorted := StableSort(CompareNodes, [m, n]);
    PermutationLength([m, n], sorted);
    assert sorted[1] in multiset(sorted) && sorted[1] in sorted[1..];
  }

  // For instance: a limit of one, two nodes with an internal address, and a service with a port and without
  // an overlay.
  lemma LimitOfOne(c: Settings, s: Service, m: Node, n: Node, plans: map<string, Plan>,
                   clusterName: string, network: string, zone: string)
    requires s.ports != [] && !s.config.Decoded? && InternalCount(m.addresses) > 0 && InternalCount(n.addresses) > 0
    requires Desired(c, s, [m, n], plans, clusterName, network, zone).Ok?
    ensures !SameOutcome(Desired(c, s, [m, n], plans, clusterName, network, zone),
                         Desired(c, s, Limited(1, [m, n]), plans, clusterName, network, zone))
  {
    OneOfTwoCutOff(m, n);
    assert TakesNodes(s);
    LimitedOutcome(c, s, [m, n], 1, plans, clusterName, network, zone);
  }

  // So a configuration, with any certificates, can be up to date for both exactly then.
  lemma LimitOnlyOnEnsure(c: Settings, s: Service, nodes: seq<Node>, max: nat, plans: map<string, Plan>,
                          clusterName: string, network: string, zone: string, fs: seq<Frontend>)
    requires Desired(c, s, nodes, plans, clusterName, network, zone).Ok?
    ensures Desired(c, s, Limited(max, nodes), plans, clusterName, network, zone).Ok?
    ensures var x := Desired(c, s, nodes, plans, clusterName, network, zone).value.(frontends := fs);
            var y := Desired(c, s, Limited(max, nodes), plans, clusterName, network, zone).value.(frontends := fs);
            (exists live :: Shape.SameConfiguration(live, x) && Shape.SameConfiguration(live, y))
            <==> !(CutsOff(max, nodes) && TakesNodes(s))
  {
    LimitedOutcome(c, s, nodes, max, plans, clusterName, network, zone);
    var x := Desired(c, s, nodes, plans, clusterName, network, zone).value.(frontends := fs);
    var y := Desired(c, s, Limited(max, nodes), plans, clusterName, network, zone).value.(frontends := fs);
    if !(CutsOff(max, nodes) && TakesNodes(s)) {
      assert Shape.SameConfiguration(x, x) && Shape.SameConfiguration(x, y);
    } else {
      LimitedAddresses(max, nodes);
      DesiredShapes(c, s, nodes, Limited(max, nodes), plans, clusterName, network, zone);
    }
  }

  // ----- on runs -----

  lemma NoChangeIsSame(e: Env, w: World, lb: LoadBalancer, d: Request, w1: World)
    requires Reconciled(e, w, lb, d, w1, NoChange)
    ensures Converted(lb).Some? && Shape.SameConfiguration(Converted(lb).value, d)
  {
    var live', body, m := ComparisonOf(e, w, lb, d, w1, NoChange);
    ComparisonSound(Converted(lb).value, d, live', body, m);
  }

  lemma UnchangedBackends(e: Env, w: World, lb: LoadBalancer, s: Service, nodes: seq<Node>, clusterName: string, w1: World)
    requires UpdateRun(e, w, lb, s, nodes, clusterName, w1, NoChange)
    ensures Converted(lb).Some? && PrivateNetworkOf(lb).Some? && Built(e, lb, s, nodes, clusterName).Ok?
    ensures Permutation(Map(Shape.OfBackend, Converted(lb).value.backends),
                        Map(Shape.OfBackend, Built(e, lb, s, nodes, clusterName).value.backends))
  {
    var (wd, d) := DesiredWithCertificates(e, w, lb, s, nodes, clusterName);
    NoChangeIsSame(e, wd, lb, d.value, w1);
  }

  // An update with all nodes and one with the limited nodes are never both without a change on one load
  // balancer, whatever happens to the rest of the cloud, if the limit cuts off an address and a member
  // comes from the nodes. In all other cases they end the same way.
  lemma LimitFlaps(e: Env, w: World, lb: LoadBalancer, s: Service, nodes: seq<Node>, max: nat, clusterName: string,
                   w1: World, res1: UpdateResult, e2: Env, v: World, w2: World, res2: UpdateResult)
    requires e2 == e.(faults := e2.faults)
    requires UpdateRun(e, w, lb, s, nodes, clusterName, w1, res1)
    requires UpdateRun(e2, v, lb, s, Limited(max, nodes), clusterName, w2, res2)
    ensures CutsOff(max, nodes) && TakesNodes(s) ==> !(res1 == NoChange && res2 == NoChange)
    ensures var d := DesiredWithCertificates(e, w, lb, s, nodes, clusterName).1;
            && !(CutsOff(max, nodes) && TakesNodes(s)) && e2 == e && v == w
            && (Converted(lb).Some? ==> Shape.Unambiguous(Converted(lb).value)) && (d.Some? ==> Shape.Unambiguous(d.value)) ==>
              res1 == res2
  {
    var limited := Limited(max, nodes);
    if CutsOff(max, nodes) && TakesNodes(s) {
      if res1 == NoChange && res2 == NoChange {
        UnchangedBackends(e, w, lb, s, nodes, clusterName, w1);
        UnchangedBackends(e2, v, lb, s, limited, clusterName, w2);
        LimitedAddresses(max, nodes);
        DesiredShapes(e.settings, s, nodes, limited, e.plans, clusterName, PrivateNetworkOf(lb).value.uuid, lb.zone);
      }
    } else if e2 == e && v == w {
      LimitAgrees(e, w, lb, s, nodes, max, clusterName, w1, res1, w2, res2);
    }
  }

  lemma LimitAgrees(e: Env, w: World, lb: LoadBalancer, s: Service, nodes: seq<Node>, max: nat, clusterName: string,
                    w1: World, res1: UpdateResult, w2: World, res2: UpdateResult)
    requires UpdateRun(e, w, lb, s, nodes, clusterName, w1, res1)
    requires UpdateRun(e, w, lb, s, Limited(max, nodes), clusterName, w2, res2)
    requires !(CutsOff(max, nodes) && TakesNodes(s))
    ensures var d := DesiredWithCertificates(e, w, lb, s, nodes, clusterName).1;
            (Converted(lb).Some? ==> Shape.Unambiguous(Converted(lb).value)) && (d.Some? ==> Shape.Unambiguous(d.value)) ==>
              res1 == res2
  {
    var limited := Limited(max, nodes);
    var d := DesiredWithCertificates(e, w, lb, s, nodes, clusterName).1;
    if (Converted(lb).Some? ==> Shape.Unambiguous(Converted(lb).value)) && (d.Some? ==> Shape.Unambiguous(d.value)) {
      if PrivateNetworkOf(lb).Some? {
        BuiltLimited(e, lb, s, nodes, max, clusterName);
      }
      UpdateAlike(e, w, lb, s, s, nodes, limited, clusterName, w1, res1, w2, res2);
    }
  }

  lemma BuiltLimited(e: Env, lb: LoadBalancer, s: Service, nodes: seq<Node>, max: nat, clusterName: string)
    requires PrivateNetworkOf(lb).Some? && !(CutsOff(max, nodes) && TakesNodes(s))
    ensures SameOutcome(Built(e, lb, s, nodes, clusterName), Built(e, lb, s, Limited(max, nodes), clusterName))
  {
    var network := PrivateNetworkOf(lb).value.uuid;
    if Built(e, lb, s, nodes, clusterName).Ok? {
      LimitedOutcome(e.settings, s, nodes, max, e.plans, clusterName, network, lb.zone);
    } else {
      ErrorsIgnoreNodes(e.settings, s, nodes, Limited(max, nodes), e.plans, clusterName, network, lb.zone);
    }
  }

  // Whether a request can be derived does not depend on the nodes.
  lemma ErrorsIgnoreNodes(c: Settings, s: Service, m: seq<Node>, n: seq<Node>, plans: map<string, Plan>,
                          clusterName: string, network: string, zone: string)
    requires Desired(c, s, m, plans, clusterName, network, zone).Err?
    ensures Desired(c, s, n, plans, clusterName, network, zone) == Desired(c, s, m, plans, clusterName, network, zone)
  {
  }
}
