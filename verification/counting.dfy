// How many load balancers a service has, whether or not its annotations are up to date: each entry point
// adds or removes at most one, and the schedule of failures says when.
module Counting {
  import opened Wrappers
  import opened Config
  import opened Nodes
  import opened Services
  import opened Conversion
  import opened Cloud
  import opened Certificates
  import opened Update
  import opened Creation
  import opened Deletion
  import opened Manager
  import opened Ownership

  // A creation makes a load balancer exactly if it can derive a request and the create call is not refused.
  predicate CreationMakes(e: Env, w: World, s: Service, nodes: seq<Node>, clusterName: string) {
    var (w1, d) := RequestFromService(e, w, s, nodes, clusterName);
    d.Some? && !e.faults(w1.calls).Refused?
  }

  // An ensure makes one exactly if it finds none and the creation makes one.
  predicate Makes(e: Env, w: World, k: KubeService, nodes: seq<Node>, given: string) {
    var clusterName := ClusterName(e.settings, given);
    var (w1, found) := Lookup(e, w, k, clusterName);
    && found == Err(Missing)
    && EnsuredNodes(e, k.spec, nodes).Some?
    && CreationMakes(e, w1, k.spec, EnsuredNodes(e, k.spec, nodes).value, clusterName)
  }

  // A delete removes the load balancer exactly if it finds it and gets to the last call, and that is not refused.
  predicate Removes(e: Env, w: World, k: KubeService, given: string) {
    var (w1, found) := Lookup(e, w, k, ClusterName(e.settings, given));
    found.Ok? && RemovesIt(e, w1, found.value)
  }

  // ----- ensure -----

  lemma MadeByFaults(e: Env, w: World, s: Service, nodes: seq<Node>, clusterName: string)
    ensures CreateRun(e, w, s, nodes, clusterName).1.NothingMade? <==> !CreationMakes(e, w, s, nodes, clusterName)
  {
  }

  // One load balancer of this owner has been added.
  ghost predicate OneMore(w: World, w': World, o: Owner) {
    && w.issued !in w.lbs && w'.lbs.Keys == w.lbs.Keys + {w.issued} && w'.issued > w.issued
    && Owned(w', o) == Owned(w, o) + {w.issued}
  }

  lemma NewCounts(e: Env, w: World, k: KubeService, nodes: seq<Node>, clusterName: string)
    requires Annotated(w, k)
    ensures var (w', k', res) := EnsureNew(e, w, k, nodes, clusterName);
            && Annotated(w', k') && k'.spec == k.spec && (k' == k || (k.id.NoId? && k'.id == Id(w.issued) && w'.lbs != w.lbs))
            && OthersUntouched(w, w', OwnerOf(k.spec)) && w'.issued >= w.issued
            && if CreationMakes(e, w, k.spec, nodes, clusterName) then OneMore(w, w', OwnerOf(k.spec)) else w'.lbs == w.lbs
  {
    CreateKeepsOthers(e, w, k.spec, nodes, clusterName);
    MadeByFaults(e, w, k.spec, nodes, clusterName);
  }

  lemma NewNamesOwn(w: World, k: KubeService, w': World, k': KubeService)
    requires Consistent(w) && NamesOwn(w, k) && k'.spec == k.spec && (k' == k || (k'.id == Id(w.issued) && w'.lbs != w.lbs))
    requires OthersUntouched(w, w', OwnerOf(k.spec)) && w'.issued >= w.issued
    requires w'.lbs == w.lbs || OneMore(w, w', OwnerOf(k.spec))
    ensures NamesOwn(w', k')
  {
  }

  // What an ensure does to the service and to its load balancers.
  ghost predicate Ensured(w: World, k: KubeService, w': World, k': KubeService, makes: bool) {
    && Annotated(w', k') && k'.spec == k.spec && (k.id.Id? ==> k' == k)
    && (NamesOwn(w, k) ==> NamesOwn(w', k') && OthersUntouched(w, w', OwnerOf(k.spec)))
    && Owned(w', OwnerOf(k.spec)) == Owned(w, OwnerOf(k.spec)) + if makes then {w.issued} else {}
  }

  lemma NewEnsured(e: Env, w: World, k: KubeService, nodes: seq<Node>, clusterName: string)
    requires Annotated(w, k)
    ensures Ensured(w, k, EnsureNew(e, w, k, nodes, clusterName).0, EnsureNew(e, w, k, nodes, clusterName).1,
                    CreationMakes(e, w, k.spec, nodes, clusterName))
  {
    NewCounts(e, w, k, nodes, clusterName);
    var (w', k', res) := EnsureNew(e, w, k, nodes, clusterName);
    if NamesOwn(w, k) {
      NewNamesOwn(w, k, w', k');
    }
  }

  lemma ExistingEnsured(e: Env, w: World, k: KubeService, nodes: seq<Node>, clusterName: string, w': World, res: EnsureResult)
    requires Annotated(w, k) && k.id.Id? && k.id.uuid in w.lbs
    requires EnsureExisting(e, w, w.lbs[k.id.uuid], k, nodes, clusterName, w', res)
    ensures Ensured(w, k, w', k, false)
  {
    ExistingKeepsOwned(e, w, k, nodes, clusterName, w', res);
    assert forall id :: id in w'.lbs && w'.lbs[id].owner != OwnerOf(k.spec) ==> id in Owned(w', w'.lbs[id].owner);
  }

  // The case that no load balancer was looked for any further.
  lemma CalledEnsured(w: World, k: KubeService)
    requires Annotated(w, k)
    ensures Ensured(w, k, Called(w), k, false)
  {
  }

  lemma EnsuredAfterCall(w: World, k: KubeService, w': World, k': KubeService, makes: bool)
    requires Ensured(Called(w), k, w', k', makes)
    ensures Ensured(w, k, w', k', makes)
  {
  }

  lemma FoundEnsured(e: Env, w: World, k: KubeService, nodes: seq<Node>, given: string,
                     w': World, k': KubeService, res: EnsureResult)
    requires Annotated(w, k) && EnsureRun(e, w, k, nodes, given, w', k', res)
    requires Lookup(e, w, k, ClusterName(e.settings, given)).1.Ok?
    ensures Ensured(w, k, w', k', false)
  {
    LookupWhenAnnotated(e, w, k, ClusterName(e.settings, given));
    var ns := EnsuredNodes(e, k.spec, nodes);
    if ns.Some? {
      ExistingEnsured(e, Called(w), k, ns.value, ClusterName(e.settings, given), w', res);
      EnsuredAfterCall(w, k, w', k', false);
    } else {
      CalledEnsured(w, k);
    }
  }

  lemma MissingIsNew(e: Env, w: World, k: KubeService, nodes: seq<Node>, given: string,
                     w': World, k': KubeService, res: EnsureResult)
    requires Annotated(w, k) && EnsureRun(e, w, k, nodes, given, w', k', res)
    requires Lookup(e, w, k, ClusterName(e.settings, given)).1 == Err(Missing)
    ensures var ns := EnsuredNodes(e, k.spec, nodes);
            if ns.Some? then (w', k', res) == EnsureNew(e, Called(w), k, ns.value, ClusterName(e.settings, given))
            else w' == Called(w) && k' == k
  {
  }

  lemma MakesIfMissing(e: Env, w: World, k: KubeService, nodes: seq<Node>, given: string)
    requires Annotated(w, k) && Lookup(e, w, k, ClusterName(e.settings, given)).1 == Err(Missing)
    ensures var ns := EnsuredNodes(e, k.spec, nodes);
            Makes(e, w, k, nodes, given) <==> ns.Some? && CreationMakes(e, Called(w), k.spec, ns.value, ClusterName(e.settings, given))
  {
  }

  // Either way of going on after a lookup that finds nothing.
  lemma AfterMissing(e: Env, w: World, k: KubeService, ns: Option<seq<Node>>, clusterName: string,
                     w': World, k': KubeService, res: EnsureResult, makes: bool)
    requires Annotated(w, k)
    requires ns.Some? ==> (w', k', res) == EnsureNew(e, Called(w), k, ns.value, clusterName)
                          && makes == CreationMakes(e, Called(w), k.spec, ns.value, clusterName)
    requires ns.None? ==> w' == Called(w) && k' == k && !makes
    ensures Ensured(w, k, w', k', makes)
  {
    if ns.Some? {
      NewEnsured(e, Called(w), k, ns.value, clusterName);
      EnsuredAfterCall(w, k, w', k', makes);
    } else {
      CalledEnsured(w, k);
    }
  }

  lemma MissingEnsured(e: Env, w: World, k: KubeService, nodes: seq<Node>, given: string,
                       w': World, k': KubeService, res: EnsureResult)
    requires Annotated(w, k) && EnsureRun(e, w, k, nodes, given, w', k', res)
    requires Lookup(e, w, k, ClusterName(e.settings, given)).1 == Err(Missing)
    ensures Ensured(w, k, w', k', Makes(e, w, k, nodes, given))
  {
    MissingIsNew(e, w, k, nodes, given, w', k', res);
    MakesIfMissing(e, w, k, nodes, given);
    AfterMissing(e, w, k, EnsuredNodes(e, k.spec, nodes), ClusterName(e.settings, given), w', k', res,
                 Makes(e, w, k, nodes, given));
  }

  // An ensure adds one load balancer or none, as the schedule says, and touches none of the others.
  lemma EnsureCounts(e: Env, w: World, k: KubeService, nodes: seq<Node>, given: string,
                     w': World, k': KubeService, res: EnsureResult)
    requires Annotated(w, k) && EnsureRun(e, w, k, nodes, given, w', k', res)
    ensures Ensured(w, k, w', k', Makes(e, w, k, nodes, given)) && w.issued !in w.lbs
  {
    var found := Lookup(e, w, k, ClusterName(e.settings, given)).1;
    if found.Ok? {
      FoundEnsured(e, w, k, nodes, given, w', k', res);
    } else if found == Err(Missing) {
      MissingEnsured(e, w, k, nodes, given, w', k', res);
    } else {
      LookupWhenAnnotated(e, w, k, ClusterName(e.settings, given));
      CalledEnsured(w, k);
    }
  }

  // ----- update -----

  lemma HostsCount(e: Env, w: World, k: KubeService, nodes: seq<Node>, given: string, w': World, ok: bool)
    requires Annotated(w, k) && UpdateHostsRun(e, w, k, nodes, given, w', ok)
    ensures Annotated(w', k) && w'.issued >= w.issued && forall o :: Owned(w', o) == Owned(w, o)
    ensures NamesOwn(w, k) ==> NamesOwn(w', k) && OthersUntouched(w, w', OwnerOf(k.spec))
  {
    var clusterName := ClusterName(e.settings, given);
    var (w1, found) := Lookup(e, w, k, clusterName);
    var ns := SelectedNodes(e, k.spec, nodes);
    if found.Ok? && ns.Some? {
      var u :| UpdateRun(e, w1, found.value, k.spec, ns.value, clusterName, w', u) && ok == (u.NoChange? || u.Changed?);
      UpdateEffects(e, w1, k.id.uuid, k.spec, ns.value, clusterName, w', u);
      ReplacedKeepsOwned(w1, w', k.id.uuid, k);
    }
  }

  // ----- delete -----

  lemma FramedKeepsOwned(w: World, w': World, id: Uuid, name: string)
    requires NoneNameless(w) && id in w.lbs && Framed(w, w', id, name)
    ensures NoneNameless(w') && OthersUntouched(w, w', w.lbs[id].owner)
    ensures Owned(w', w.lbs[id].owner) == Owned(w, w.lbs[id].owner) - if id in w'.lbs then {} else {id}
  {
  }

  lemma DeleteKeepsAnnotated(e: Env, w: World, k: KubeService, given: string)
    requires Annotated(w, k)
    ensures var w' := EnsureDeletedRun(e, w, k, given).0;
            && Annotated(w', k) && w'.issued == w.issued
            && (NamesOwn(w, k) ==> NamesOwn(w', k) && OthersUntouched(w, w', OwnerOf(k.spec)))
  {
    var (w1, found) := Lookup(e, w, k, ClusterName(e.settings, given));
    if found.Ok? {
      var id := k.id.uuid;
      DeleteRunEffects(e, w1, id);
      var w' := DeleteRun(e, w1, found.value).0;
      ConsistentAfterDeletion(w1, w', id, BundleNameOf(w1.lbs[id]));
      FramedKeepsOwned(w1, w', id, BundleNameOf(w1.lbs[id]));
    }
  }

  // A delete removes the annotated load balancer or none, as the schedule says; after one that succeeds the
  // annotated load balancer is gone.
  lemma DeleteCounts(e: Env, w: World, k: KubeService, given: string)
    requires Annotated(w, k) && NamesOwn(w, k)
    ensures var (w', ok) := EnsureDeletedRun(e, w, k, given);
            var o := OwnerOf(k.spec);
            && (Removes(e, w, k, given) ==> k.id.Id? && k.id.uuid in Owned(w, o))
            && Owned(w', o) == Owned(w, o) - (if Removes(e, w, k, given) then {k.id.uuid} else {})
            && (ok && k.id.Id? ==> k.id.uuid !in w'.lbs)
  {
    var (w1, found) := Lookup(e, w, k, ClusterName(e.settings, given));
    if found.Ok? {
      var id := k.id.uuid;
      DeleteRunEffects(e, w1, id);
      RunRemovesIt(e, w1, id);
      FramedKeepsOwned(w1, DeleteRun(e, w1, found.value).0, id, BundleNameOf(w1.lbs[id]));
    }
  }
}
