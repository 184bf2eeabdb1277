// Which nodes a load balancer forwards to: label selection, the upper bound on their
// number, and the check that they share a private network.
module Nodes {
  import opened Wrappers
  import opened Ordering
  import opened Sorting

  const PRIVATE_NETWORK_ANNOTATION := "infrastructure.cluster.x-k8s.io/upcloud-vm-private-nw-uuid"

  datatype AddressKind = InternalIP | OtherAddress

  datatype Address = Address(kind: AddressKind, address: string)

  datatype Node = Node(name: string, created: int, addresses: seq<Address>,
                       labels: map<string, string>, annotations: Option<map<string, string>>)

  function NodeName(n: Node): string { n.name }

  // A label selector, taken as an arbitrary predicate on labels; None is the nil selector.
  type Selector = Option<map<string, string> -> bool>

  function Matches(selector: Selector): Node -> bool {
    (n: Node) => selector.None? || (selector.value)(n.labels)
  }

  // selectNodesByLabels
  method SelectNodesByLabels(nodes: seq<Node>, selector: Selector) returns (r: seq<Node>)
    ensures r == Filter(Matches(selector), nodes)
  {
    if selector.None? {
      FilterAll(Matches(selector), nodes);
      return nodes;
    }
    r := [];
    for i := 0 to |nodes|
      invariant r == Filter(Matches(selector), nodes[..i])
    {
      FilterAppend(Matches(selector), nodes[..i], nodes[i]);
      assert nodes[..i + 1] == nodes[..i] + [nodes[i]];
      if (selector.value)(nodes[i].labels) {
        r := r + [nodes[i]];
      }
    }
    assert nodes[..|nodes|] == nodes;
  }

  lemma {:induction false} FilterAll<T>(p: T -> bool, s: seq<T>)
    requires forall x :: x in s ==> p(x)
    ensures Filter(p, s) == s
  {
    if s != [] {
      FilterAll(p, s[1..]);
    }
  }

  // ----- the upper bound -----

  // Older nodes first, by name among nodes of the same age.
  function CompareNodes(a: Node, b: Node): int {
    if a.created < b.created then -1
    else if a.created > b.created then 1
    else CompareStrings(a.name, b.name)
  }

  // Created earlier, or at the same time and first by name.
  ghost predicate Older(a: Node, b: Node) {
    a.created < b.created || (a.created == b.created && LexicallyBefore(a.name, b.name))
  }

  lemma OlderComparesLess(a: Node, b: Node)
    ensures CompareNodes(a, b) < 0 <==> Older(a, b)
  {
    CompareStringsLexical(a.name, b.name);
  }

  lemma CompareNodesIsPreorder()
    ensures TotalPreorder(CompareNodes)
  {
    forall a: Node, b: Node
      ensures CompareNodes(a, b) <= 0 <==> CompareNodes(b, a) >= 0
    {
      CompareStringsAntisymmetric(a.name, b.name);
    }
    forall a: Node, b: Node, c: Node | CompareNodes(a, b) <= 0 && CompareNodes(b, c) <= 0
      ensures CompareNodes(a, c) <= 0
    {
      if a.created == b.created == c.created {
        CompareStringsTransitive(a.name, b.name, c.name);
      }
    }
  }

  lemma DistinctNamesNoTies(nodes: seq<Node>)
    requires DistinctKeys(NodeName, nodes)
    ensures NoTies(CompareNodes, nodes)
  {
    forall i, j | 0 <= i < j < |nodes| ensures CompareNodes(nodes[i], nodes[j]) != 0 {
      CompareStringsZero(nodes[i].name, nodes[j].name);
      assert NodeName(nodes[i]) != NodeName(nodes[j]);
    }
  }

  // The nodes that limitNodes keeps; a bound of 0 means no bound.
  function Limited(max: nat, nodes: seq<Node>): seq<Node> {
    if max == 0 || |nodes| <= max then nodes
    else
      assert |StableSort(CompareNodes, nodes)| == |nodes| by { PermutationLength(nodes, StableSort(CompareNodes, nodes)); }
      StableSort(CompareNodes, nodes)[..max]
  }

  method SortNodes(nodes: seq<Node>) returns (s: seq<Node>)
    ensures s == StableSort(CompareNodes, nodes) && |s| == |nodes|
  {
    CompareNodesIsPreorder();
    s := SortStableFunc(CompareNodes, nodes);
    StableSortIsStable(CompareNodes, nodes);
    StableSortsEqualIffSameTies(CompareNodes, nodes, nodes, s, StableSort(CompareNodes, nodes));
    PermutationLength(nodes, s);
  }

  // What limitNodes returns; None is the panic of making a list of negative length.
  function LimitResult(max: int, nodes: seq<Node>): Option<seq<Node>> {
    if max < 0 then None else Some(Limited(max, nodes))
  }

  // limitNodes
  method LimitNodes(max: int, nodes: seq<Node>) returns (r: Option<seq<Node>>)
    ensures r == LimitResult(max, nodes)
    ensures r.None? <==> max < 0
    ensures max == 0 || |nodes| <= max ==> r == Some(nodes)
    ensures max > 0 ==> |r.value| <= max
    ensures 0 < max < |nodes| && DistinctKeys(NodeName, nodes) ==>
              |r.value| == max && forall a, b :: a in r.value && b in nodes && b !in r.value ==> Older(a, b)
  {
    r := FirstNodes(max, nodes);
    if 0 < max < |nodes| && DistinctKeys(NodeName, nodes) {
      LimitedKeepsOldest(max, nodes);
    }
  }

  method FirstNodes(max: int, nodes: seq<Node>) returns (r: Option<seq<Node>>)
    ensures r == LimitResult(max, nodes) && (max > 0 ==> |r.value| <= max)
  {
    if max == 0 || |nodes| <= max {
      return Some(nodes);
    }
    var nodesCopy := SortNodes(nodes);
    if max < 0 {
      return None;
    }
    var n: seq<Node> := [];
    for i := 0 to max
      invariant n == nodesCopy[..i]
    {
      n := n + [nodesCopy[i]];
    }
    r := Some(n);
  }

  // The number of nodes that come before n.
  function Rank(nodes: seq<Node>, n: Node): nat {
    if nodes == [] then 0
    else (if CompareNodes(nodes[0], n) < 0 then 1 else 0) + Rank(nodes[1..], n)
  }

  function Before(n: Node): Node -> bool {
    (m: Node) => CompareNodes(m, n) < 0
  }

  lemma {:induction false} RankCounts(nodes: seq<Node>, n: Node)
    ensures Rank(nodes, n) == |Filter(Before(n), nodes)|
  {
    if nodes != [] {
      RankCounts(nodes[1..], n);
    }
  }

  lemma {:induction false} RankPermutation(s: seq<Node>, t: seq<Node>, n: Node)
    requires Permutation(s, t)
    ensures Rank(s, n) == Rank(t, n)
  {
    RankCounts(s, n);
    RankCounts(t, n);
    FilterPermutation(Before(n), s, t);
    PermutationLength(Filter(Before(n), s), Filter(Before(n), t));
  }

  // In a sorted sequence without ties, position is rank.
  lemma {:induction false} RankInSorted(s: seq<Node>, k: nat)
    requires Sorted(CompareNodes, s) && NoTies(CompareNodes, s) && k < |s|
    ensures Rank(s, s[k]) == k
    decreases |s|
  {
    TailFacts(CompareNodes, s);
    if k == 0 {
      assert CompareNodes(s[0], s[0]) == 0 && forall m :: m in s[1..] ==> CompareNodes(m, s[0]) >= 0 by {
        CompareNodesIsPreorder();
      }
      NoneBefore(s[1..], s[0]);
    } else {
      assert CompareNodes(s[0], s[k]) < 0;
      assert s[1..][k - 1] == s[k];
      RankInSorted(s[1..], k - 1);
    }
  }

  lemma {:induction false} NoneBefore(s: seq<Node>, n: Node)
    requires forall m :: m in s ==> CompareNodes(m, n) >= 0
    ensures Rank(s, n) == 0
  {
    if s != [] {
      NoneBefore(s[1..], n);
    }
  }

  lemma {:induction false} PrefixIsLowRank(s: seq<Node>, max: nat, n: Node)
    requires Sorted(CompareNodes, s) && NoTies(CompareNodes, s) && max <= |s|
    ensures n in s[..max] <==> n in s && Rank(s, n) < max
  {
    if n in s {
      var k :| 0 <= k < |s| && s[k] == n;
      RankInSorted(s, k);
      assert k < max ==> s[..max][k] == n;
    }
    if n in s[..max] {
      var j :| 0 <= j < max && s[..max][j] == n;
      assert s[j] == n;
      RankInSorted(s, j);
    }
  }

  ghost function OlderThan(nodes: seq<Node>, n: Node): set<Node> {
    set m | m in nodes && Older(m, n)
  }

  lemma {:induction false} RankIsSize(nodes: seq<Node>, n: Node)
    requires DistinctKeys(NodeName, nodes)
    ensures |set m | m in nodes && CompareNodes(m, n) < 0| == Rank(nodes, n)
  {
    if nodes != [] {
      var rest := nodes[1..];
      assert forall i :: 0 <= i < |rest| ==> rest[i] == nodes[i + 1];
      RankIsSize(rest, n);
      assert forall i :: 0 <= i < |rest| ==> NodeName(rest[i]) != NodeName(nodes[0]);
      assert (set m | m in nodes && CompareNodes(m, n) < 0) ==
             (set m | m in rest && CompareNodes(m, n) < 0) + if CompareNodes(nodes[0], n) < 0 then {nodes[0]} else {};
    }
  }

  lemma RankIsOlder(nodes: seq<Node>, n: Node)
    requires DistinctKeys(NodeName, nodes)
    ensures |OlderThan(nodes, n)| == Rank(nodes, n)
  {
    RankIsSize(nodes, n);
    forall m | m in nodes ensures Older(m, n) <==> CompareNodes(m, n) < 0 {
      OlderComparesLess(m, n);
    }
    assert OlderThan(nodes, n) == set m | m in nodes && CompareNodes(m, n) < 0;
  }

  // Without reference to sorting: a node is kept exactly when fewer than max nodes are older.
  lemma {:induction false} LimitedByRank(max: nat, nodes: seq<Node>, n: Node)
    requires DistinctKeys(NodeName, nodes) && 0 < max < |nodes|
    ensures n in Limited(max, nodes) <==> n in nodes && |OlderThan(nodes, n)| < max
  {
    var s := SortedNodes(nodes);
    RankPermutation(nodes, s, n);
    RankIsOlder(nodes, n);
    assert n in nodes <==> n in multiset(s);
    PrefixIsLowRank(s, max, n);
  }

  lemma SortedNodes(nodes: seq<Node>) returns (s: seq<Node>)
    requires DistinctKeys(NodeName, nodes)
    ensures s == StableSort(CompareNodes, nodes) && |s| == |nodes|
    ensures Sorted(CompareNodes, s) && NoTies(CompareNodes, s) && Permutation(nodes, s)
  {
    s := StableSort(CompareNodes, nodes);
    CompareNodesIsPreorder();
    StableSortIsStable(CompareNodes, nodes);
    PermutationLength(nodes, s);
    DistinctKeysPermutation(NodeName, nodes, s);
    DistinctNamesNoTies(s);
  }

  lemma PrefixIsOlder(s: seq<Node>, max: nat, a: Node, b: Node)
    requires Sorted(CompareNodes, s) && NoTies(CompareNodes, s) && max <= |s| && a in s[..max] && b in s[max..]
    ensures Older(a, b)
  {
    var i :| 0 <= i < max && s[..max][i] == a;
    var j :| 0 <= j < |s| - max && s[max..][j] == b;
    assert s[i] == a && s[max + j] == b;
    OlderComparesLess(a, b);
  }

  lemma LeftOut(nodes: seq<Node>, s: seq<Node>, max: nat, b: Node)
    requires Permutation(nodes, s) && max <= |s| && b in nodes && b !in s[..max]
    ensures b in s[max..]
  {
    assert b in multiset(s);
    assert s == s[..max] + s[max..];
  }

  // What is kept are the oldest nodes: as many as the bound allows, and each is older than every node left out.
  lemma LimitedKeepsOldest(max: nat, nodes: seq<Node>)
    requires DistinctKeys(NodeName, nodes) && 0 < max < |nodes|
    ensures |Limited(max, nodes)| == max && multiset(Limited(max, nodes)) <= multiset(nodes)
    ensures forall a, b :: a in Limited(max, nodes) && b in nodes && b !in Limited(max, nodes) ==> Older(a, b)
  {
    var s := SortedNodes(nodes);
    assert s == s[..max] + s[max..];
    forall a, b | a in s[..max] && b in nodes && b !in s[..max] ensures Older(a, b) {
      LeftOut(nodes, s, max, b);
      PrefixIsOlder(s, max, a, b);
    }
  }

  // The order of the nodes does not matter to the set that is kept.
  lemma LimitedPermutation(max: nat, s: seq<Node>, t: seq<Node>)
    requires Permutation(s, t) && DistinctKeys(NodeName, s)
    ensures Permutation(Limited(max, s), Limited(max, t))
  {
    PermutationLength(s, t);
    if 0 < max < |s| {
      SortsOfPermutations(s, t);
    }
  }

  lemma {:induction false} SortsOfPermutations(s: seq<Node>, t: seq<Node>)
    requires Permutation(s, t) && DistinctKeys(NodeName, s)
    ensures StableSort(CompareNodes, s) == StableSort(CompareNodes, t)
  {
    DistinctKeysPermutation(NodeName, s, t);
    var s' := SortedNodes(s);
    var t' := SortedNodes(t);
    CompareNodesIsPreorder();
    SortedPermutationsEqual(CompareNodes, s', t');
  }

  // ----- node churn -----

  lemma CompareNodesTransitive(a: Node, b: Node, c: Node)
    requires CompareNodes(a, b) <= 0 && CompareNodes(b, c) <= 0
    ensures CompareNodes(a, c) <= 0 && CompareNodes(c, a) >= 0
  {
    CompareNodesIsPreorder();
  }

  // The first n of a sorted sequence after x has been inserted.
  lemma {:induction false} InsertPrefix(x: Node, s: seq<Node>, n: nat)
    requires Sorted(CompareNodes, s) && 0 < n <= |s|
    requires |Insert(CompareNodes, x, s)| == |s| + 1
    ensures CompareNodes(s[n - 1], x) < 0 ==> Insert(CompareNodes, x, s)[..n] == s[..n]
    ensures CompareNodes(s[n - 1], x) > 0 ==>
              multiset(Insert(CompareNodes, x, s)[..n]) == multiset(s[..n - 1]) + multiset{x}
    decreases |s|
  {
    var r := Insert(CompareNodes, x, s);
    if CompareNodes(x, s[0]) <= 0 {
      assert CompareNodes(s[0], s[n - 1]) <= 0 by {
        CompareNodesIsPreorder();
        HeadIsLeast(CompareNodes, s, s[n - 1]);
      }
      CompareNodesTransitive(x, s[0], s[n - 1]);
      assert r[..n] == [x] + s[..n - 1];
    } else if n == 1 {
      assert CompareNodes(s[0], x) < 0 by {
        CompareNodesIsPreorder();
      }
      assert r[..1] == [s[0]] == s[..1];
    } else {
      InsertPrefixStep(x, s, n);
    }
  }

  lemma {:induction false} InsertPrefixStep(x: Node, s: seq<Node>, n: nat)
    requires Sorted(CompareNodes, s) && 1 < n <= |s| && CompareNodes(x, s[0]) > 0
    requires |Insert(CompareNodes, x, s)| == |s| + 1
    ensures CompareNodes(s[n - 1], x) < 0 ==> Insert(CompareNodes, x, s)[..n] == s[..n]
    ensures CompareNodes(s[n - 1], x) > 0 ==>
              multiset(Insert(CompareNodes, x, s)[..n]) == multiset(s[..n - 1]) + multiset{x}
    decreases |s|, 0
  {
    var q := Insert(CompareNodes, x, s[1..]);
    TailFacts(CompareNodes, s);
    InsertPrefix(x, s[1..], n - 1);
    assert s == [s[0]] + s[1..];
    ConsPrefix(s[0], q, n);
    ConsPrefix(s[0], s[1..], n);
    ConsPrefix(s[0], s[1..], n - 1);
  }

  lemma ConsPrefix<T>(x: T, s: seq<T>, n: nat)
    requires 0 < n <= |s| + 1
    ensures ([x] + s)[..n] == [x] + s[..n - 1]
    ensures multiset(([x] + s)[..n]) == multiset{x} + multiset(s[..n - 1])
  {
  }

  // The last node within the bound.
  function LastKept(max: nat, nodes: seq<Node>): Node
    requires 0 < max <= |nodes|
  {
    PermutationLength(nodes, StableSort(CompareNodes, nodes));
    StableSort(CompareNodes, nodes)[max - 1]
  }

  lemma KeptIsSortedPrefix(max: nat, nodes: seq<Node>) returns (s: seq<Node>)
    requires DistinctKeys(NodeName, nodes) && 0 < max <= |nodes|
    ensures s == StableSort(CompareNodes, nodes) && |s| == |nodes|
    ensures Sorted(CompareNodes, s) && NoTies(CompareNodes, s)
    ensures multiset(Limited(max, nodes)) == multiset(s[..max])
  {
    s := SortedNodes(nodes);
    if |nodes| == max {
      assert s[..max] == s;
    }
  }

  lemma LastKeptIsLast(max: nat, nodes: seq<Node>)
    requires DistinctKeys(NodeName, nodes) && 0 < max <= |nodes|
    ensures LastKept(max, nodes) in Limited(max, nodes)
    ensures forall m :: m in Limited(max, nodes) && m != LastKept(max, nodes) ==> Older(m, LastKept(max, nodes))
  {
    var s := KeptIsSortedPrefix(max, nodes);
    LastOfSorted(s, max, Limited(max, nodes));
    forall m | m in Limited(max, nodes) && m != LastKept(max, nodes) ensures Older(m, LastKept(max, nodes)) {
      OlderComparesLess(m, LastKept(max, nodes));
    }
  }

  lemma LastOfSorted(s: seq<Node>, n: nat, kept: seq<Node>)
    requires Sorted(CompareNodes, s) && NoTies(CompareNodes, s) && 0 < n <= |s|
    requires multiset(kept) == multiset(s[..n])
    ensures s[n - 1] in kept
    ensures forall m :: m in kept && m != s[n - 1] ==> CompareNodes(m, s[n - 1]) < 0
  {
    assert s[..n][n - 1] in multiset(kept);
    forall m | m in kept && m != s[n - 1] ensures CompareNodes(m, s[n - 1]) < 0 {
      assert m in multiset(s[..n]);
      var i :| 0 <= i < n && s[..n][i] == m;
    }
  }

  // A node that joins: the kept set grows while there is room. After that it changes only if
  // the newcomer comes before the last kept node, and then exactly that node is swapped out.
  lemma LimitedAfterJoin(max: nat, nodes: seq<Node>, x: Node, joined: seq<Node>)
    requires max > 0 && DistinctKeys(NodeName, nodes) && DistinctKeys(NodeName, joined)
    requires Permutation(joined, [x] + nodes)
    ensures |nodes| < max ==>
              multiset(Limited(max, joined)) == multiset(Limited(max, nodes)) + multiset{x}
    ensures |nodes| >= max ==>
              multiset(Limited(max, joined)) ==
              if Older(x, LastKept(max, nodes)) then
                multiset(Limited(max, nodes)) - multiset{LastKept(max, nodes)} + multiset{x}
              else
                multiset(Limited(max, nodes))
  {
    PermutationLength(joined, [x] + nodes);
    if |nodes| >= max {
      OlderComparesLess(x, LastKept(max, nodes));
      FullAfterJoin(max, nodes, x, joined);
    }
  }

  // So a node that is newer than all others changes nothing once the list is full.
  lemma NewestChangesNothing(max: nat, nodes: seq<Node>, x: Node, joined: seq<Node>)
    requires 0 < max <= |nodes| && DistinctKeys(NodeName, nodes) && DistinctKeys(NodeName, joined)
    requires Permutation(joined, [x] + nodes) && forall n :: n in nodes ==> n.created < x.created
    ensures multiset(Limited(max, joined)) == multiset(Limited(max, nodes))
  {
    LimitedAfterJoin(max, nodes, x, joined);
    LastKeptIsLast(max, nodes);
    var last := LastKept(max, nodes);
    assert last in multiset(nodes) && last.created < x.created by {
      var s := SortedNodes(nodes);
      assert s[max - 1] in multiset(s);
    }
  }

  lemma FullAfterJoin(max: nat, nodes: seq<Node>, x: Node, joined: seq<Node>)
    requires 0 < max <= |nodes| && DistinctKeys(NodeName, nodes) && DistinctKeys(NodeName, joined)
    requires Permutation(joined, [x] + nodes) && |joined| == |nodes| + 1
    ensures multiset(Limited(max, joined)) ==
            if CompareNodes(x, LastKept(max, nodes)) < 0 then
              multiset(Limited(max, nodes)) - multiset{LastKept(max, nodes)} + multiset{x}
            else
              multiset(Limited(max, nodes))
  {
    KeptIsPrefix(max, nodes);
    KeptIsPrefix(max, joined);
    JoinedPrefix(max, nodes, x, joined, StableSort(CompareNodes, nodes), StableSort(CompareNodes, joined));
  }

  lemma {:induction false} KeptIsPrefix(max: nat, nodes: seq<Node>)
    requires DistinctKeys(NodeName, nodes) && 0 < max <= |nodes|
    ensures var s := StableSort(CompareNodes, nodes);
            && |s| == |nodes| && multiset(Limited(max, nodes)) == multiset(s[..max])
            && LastKept(max, nodes) == s[max - 1]
  {
    var s := KeptIsSortedPrefix(max, nodes);
  }

  lemma {:induction false} JoinedPrefix(max: nat, nodes: seq<Node>, x: Node, joined: seq<Node>, s: seq<Node>, j: seq<Node>)
    requires max > 0 && DistinctKeys(NodeName, nodes) && DistinctKeys(NodeName, joined)
    requires Permutation(joined, [x] + nodes) && max <= |nodes| == |s| && |j| == |joined| == |nodes| + 1
    requires s == StableSort(CompareNodes, nodes) && j == StableSort(CompareNodes, joined)
    ensures multiset(j[..max]) ==
            if CompareNodes(x, s[max - 1]) < 0 then multiset(s[..max]) - multiset{s[max - 1]} + multiset{x}
            else multiset(s[..max])
  {
    assert Sorted(CompareNodes, s) by {
      var _ := SortedNodes(nodes);
    }
    JoinedSorted(nodes, x, joined);
    assert s[max - 1] in multiset(s) && multiset(s) == multiset(nodes);
    NewcomerTiesWithNone(nodes, x, joined, s[max - 1]);
    InsertedPrefix(x, s, j, max);
  }

  lemma {:induction false} JoinedSorted(nodes: seq<Node>, x: Node, joined: seq<Node>)
    requires DistinctKeys(NodeName, joined) && Permutation(joined, [x] + nodes)
    ensures StableSort(CompareNodes, joined) == Insert(CompareNodes, x, StableSort(CompareNodes, nodes))
  {
    SortsOfPermutations(joined, [x] + nodes);
    assert ([x] + nodes)[1..] == nodes;
  }

  lemma LastOfPrefix<T>(s: seq<T>, n: nat)
    requires 0 < n <= |s|
    ensures multiset(s[..n]) - multiset{s[n - 1]} == multiset(s[..n - 1])
  {
    assert s[..n] == s[..n - 1] + [s[n - 1]];
  }

  lemma {:induction false} InsertedPrefix(x: Node, s: seq<Node>, j: seq<Node>, n: nat)
    requires Sorted(CompareNodes, s) && 0 < n <= |s| && CompareNodes(s[n - 1], x) != 0
    requires j == Insert(CompareNodes, x, s) && |j| == |s| + 1
    ensures multiset(j[..n]) == if CompareNodes(s[n - 1], x) > 0 then multiset(s[..n]) - multiset{s[n - 1]} + multiset{x}
                                else multiset(s[..n])
  {
    InsertPrefix(x, s, n);
    LastOfPrefix(s, n);
  }

  lemma NewcomerTiesWithNone(nodes: seq<Node>, x: Node, joined: seq<Node>, n: Node)
    requires DistinctKeys(NodeName, joined) && Permutation(joined, [x] + nodes) && n in nodes
    ensures CompareNodes(n, x) != 0 && CompareNodes(x, n) == -CompareNodes(n, x)
  {
    DistinctKeysPermutation(NodeName, joined, [x] + nodes);
    assert n.name != x.name by {
      var i :| 0 <= i < |nodes| && nodes[i] == n;
      assert ([x] + nodes)[i + 1] == n;
      assert NodeName(([x] + nodes)[0]) != NodeName(([x] + nodes)[i + 1]);
    }
    CompareStringsZero(n.name, x.name);
    CompareStringsAntisymmetric(n.name, x.name);
  }

  // A node that leaves: if it was not kept nothing changes, and if it was then at most one
  // node takes its place.
  lemma LimitedAfterLeave(max: nat, nodes: seq<Node>, x: Node, left: seq<Node>)
    requires max > 0 && DistinctKeys(NodeName, nodes) && DistinctKeys(NodeName, left)
    requires Permutation(nodes, [x] + left)
    ensures |left| < max ==>
              multiset(Limited(max, left)) == multiset(Limited(max, nodes)) - multiset{x}
    ensures |left| >= max && x !in Limited(max, nodes) ==>
              multiset(Limited(max, left)) == multiset(Limited(max, nodes))
    ensures |left| >= max && x in Limited(max, nodes) ==>
              multiset(Limited(max, left)) ==
              multiset(Limited(max, nodes)) - multiset{x} + multiset{LastKept(max, left)}
  {
    LimitedAfterJoin(max, left, x, nodes);
    if |left| >= max {
      LastKeptIsLast(max, left);
      assert LastKept(max, left) in multiset(Limited(max, left));
      var last := LastKept(max, left);
      var s := KeptIsSortedPrefix(max, left);
      PrefixOfSorted(left, max);
      NotAmongOthers(left, x, nodes, s[..max]);
      SwapBack(multiset(Limited(max, left)), multiset(Limited(max, nodes)), last, x, Older(x, last));
      assert x in Limited(max, nodes) <==> x in multiset(Limited(max, nodes));
    }
  }

  lemma {:induction false} PrefixOfSorted(nodes: seq<Node>, n: nat)
    requires n <= |nodes| == |StableSort(CompareNodes, nodes)|
    ensures multiset(StableSort(CompareNodes, nodes)[..n]) <= multiset(nodes)
  {
    var s := StableSort(CompareNodes, nodes);
    assert s == s[..n] + s[n..];
  }

  lemma SwapBack<T>(before: multiset<T>, after: multiset<T>, last: T, x: T, swapped: bool)
    requires last in before && x !in before
    requires after == if swapped then before - multiset{last} + multiset{x} else before
    ensures x in after <==> swapped
    ensures swapped ==> before == after - multiset{x} + multiset{last}
  {
  }

  lemma NotAmongOthers(left: seq<Node>, x: Node, nodes: seq<Node>, kept: seq<Node>)
    requires DistinctKeys(NodeName, nodes) && Permutation(nodes, [x] + left)
    requires multiset(kept) <= multiset(left)
    ensures x !in kept && x !in multiset(kept)
  {
    DistinctKeysPermutation(NodeName, nodes, [x] + left);
    assert forall i :: 0 <= i < |left| ==> ([x] + left)[i + 1] == left[i];
    forall i | 0 <= i < |left| ensures left[i] != x {
      assert NodeName(([x] + left)[0]) != NodeName(([x] + left)[i + 1]);
    }
    assert x !in multiset(left);
    assert x in kept ==> x in multiset(kept);
  }

  // ----- validation -----

  function PrivateNetwork(n: Node): string
    requires n.annotations.Some?
  {
    if PRIVATE_NETWORK_ANNOTATION in n.annotations.value then n.annotations.value[PRIVATE_NETWORK_ANNOTATION] else ""
  }

  // There are nodes, all annotated, all in one private network.
  predicate ValidNodes(nodes: seq<Node>) {
    && nodes != []
    && (forall n :: n in nodes ==> n.annotations.Some?)
    && (forall m, n :: m in nodes && n in nodes ==> PrivateNetwork(m) == PrivateNetwork(n))
  }

  // validateLoadBalancerNodes
  method ValidateLoadBalancerNodes(nodes: seq<Node>) returns (ok: bool)
    ensures ok <==> ValidNodes(nodes)
  {
    if |nodes| == 0 {
      return false;
    }
    var seenNetworks: set<string> := {};
    for i := 0 to |nodes|
      invariant forall n :: n in nodes[..i] ==> n.annotations.Some?
      invariant seenNetworks == set n | n in nodes[..i] :: PrivateNetwork(n)
    {
      if nodes[i].annotations.None? {
        return false;
      }
      assert nodes[..i + 1] == nodes[..i] + [nodes[i]];
      seenNetworks := seenNetworks + {PrivateNetwork(nodes[i])};
    }
    assert nodes[..|nodes|] == nodes;
    ok := |seenNetworks| == 1;
    assert nodes[0] in nodes && PrivateNetwork(nodes[0]) in seenNetworks;
    assert forall n :: n in nodes ==> PrivateNetwork(n) in seenNetworks;
    OneNetwork(seenNetworks, PrivateNetwork(nodes[0]));
  }

  lemma OneNetwork(s: set<string>, x: string)
    requires x in s
    ensures |s| == 1 <==> forall y :: y in s ==> y == x
  {
    assert |s - {x}| == |s| - 1;
    if |s| == 1 {
      assert s - {x} == {};
    } else {
      var y :| y in s - {x};
    }
  }
}
