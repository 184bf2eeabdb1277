// Deleting a load balancer: its TLS frontends first, then the certificate bundle that they
// held, then the load balancer itself. A run that fails is repeated on a refetched object.
module Deletion {
  import opened Wrappers
  import opened Sorting
  import opened Config
  import opened Naming
  import opened Conversion
  import opened Cloud
  import opened Certificates

  // The first loop of DeleteLoadBalancer; the flag tells whether it went through.
  function DeleteTlsFrontends(e: Env, w: World, id: Uuid, fs: seq<Frontend>): (World, bool)
    decreases |fs|
  {
    if fs == [] then (w, true)
    else if |fs[0].tlsConfigs| == 0 then DeleteTlsFrontends(e, w, id, fs[1..])
    else
      var (w1, r) := DeleteFrontend(e, w, id, fs[0].name);
      if r.Err? then (w1, false) else DeleteTlsFrontends(e, w1, id, fs[1..])
  }

  // The bundle may be gone already, or another load balancer may use it.
  function DeleteNamedBundle(e: Env, w: World, name: string): (World, bool) {
    var (w1, listed) := ListBundles(e, w);
    match listed
    case Err(_) => (w1, false)
    case Ok(bundles) =>
      match FindBundle(bundles, name)
      case None => (w1, true)
      case Some(b) =>
        var (w2, r) := DeleteBundle(e, w1, b.uuid);
        (w2, r.Ok? || r.error.NotFound? || r.error.Conflict?)
  }

  // DeleteLoadBalancer of the service, for a load balancer object fetched before.
  function DeleteRun(e: Env, w: World, lb: LoadBalancer): (World, bool) {
    var (w1, removed) := DeleteTlsFrontends(e, w, lb.uuid, lb.frontends);
    if !removed then (w1, false)
    else
      var (w2, freed) := DeleteNamedBundle(e, w1, BundleNameOf(lb));
      if !freed then (w2, false)
      else
        var (w3, r) := DeleteLoadBalancer(e, w2, lb.uuid);
        (w3, r.Ok? || r.error.NotFound?)
  }

  // One reconciliation: refetch by identifier, then delete. A load balancer that is not found
  // counts as deleted.
  function DeleteAttempt(e: Env, w: World, id: Uuid): (World, bool) {
    var (w1, r) := GetLoadBalancer(e, w, id);
    match r
    case Err(x) => (w1, x.NotFound?)
    case Ok(lb) => DeleteRun(e, w1, lb)
  }

  function DeleteAttempts(e: Env, w: World, id: Uuid, n: nat): World {
    if n == 0 then w else DeleteAttempt(e, DeleteAttempts(e, w, id, n - 1), id).0
  }

  // ----- the imperative form -----

  method DeleteLoadBalancerRun(cloud: UpCloud, lb: LoadBalancer) returns (ok: bool)
    modifies cloud
    ensures (cloud.world, ok) == DeleteRun(cloud.env, old(cloud.world), lb)
  {
    var bundleName := CertBundleName(LoadBalancerGeneratedName(lb));
    ghost var goal := DeleteTlsFrontends(cloud.env, cloud.world, lb.uuid, lb.frontends);
    for i := 0 to |lb.frontends|
      invariant goal == DeleteTlsFrontends(cloud.env, cloud.world, lb.uuid, lb.frontends[i..])
    {
      assert lb.frontends[i..][0] == lb.frontends[i] && lb.frontends[i..][1..] == lb.frontends[i + 1..];
      if |lb.frontends[i].tlsConfigs| == 0 {
        continue;
      }
      var removed := cloud.RemoveFrontend(lb.uuid, lb.frontends[i].name);
      if removed.Err? {
        return false;
      }
    }
    var bundle := GetCertificateBundleByName(cloud, bundleName);
    if bundle.Err? {
      return false;
    }
    if bundle.value.Some? {
      var freed := cloud.RemoveBundle(bundle.value.value.uuid);
      if freed.Err? && !freed.error.NotFound? && !freed.error.Conflict? {
        return false;
      }
    }
    var deleted := cloud.Delete(lb.uuid);
    ok := deleted.Ok? || deleted.error.NotFound?;
  }

  // ----- what one run does -----

  predicate HasTls(f: Frontend) {
    |f.tlsConfigs| > 0
  }

  function TlsCount(lb: LoadBalancer): nat {
    |Filter(HasTls, lb.frontends)|
  }

  // The work that is left: TLS frontends, the bundle of that name, the load balancer.
  function Outstanding(w: World, id: Uuid, name: string): nat {
    (if id in w.lbs then 1 + TlsCount(w.lbs[id]) else 0) + (if FindBundle(w.bundles, name).Some? then 1 else 0)
  }

  // Everything but the load balancer and the named bundle stays as it is.
  ghost predicate Framed(w: World, w': World, id: Uuid, name: string) {
    && w'.issued == w.issued && w'.calls >= w.calls
    && (forall other :: other != id ==> (other in w'.lbs <==> other in w.lbs))
    && (forall other :: other != id && other in w.lbs ==> w'.lbs[other] == w.lbs[other])
    && (id in w'.lbs ==> id in w.lbs && exists fs :: w'.lbs[id] == w.lbs[id].(frontends := fs))
    && (w'.bundles == w.bundles || (FindBundle(w.bundles, name).Some?
                                    && w'.bundles == Filter(HasOtherUuid(FindBundle(w.bundles, name).value.uuid), w.bundles)))
  }

  lemma {:induction false} FilterFilterLength<T>(p: T -> bool, q: T -> bool, s: seq<T>)
    ensures |Filter(p, Filter(q, s))| <= |Filter(p, s)|
    ensures (exists x :: x in s && p(x) && !q(x)) ==> |Filter(p, Filter(q, s))| < |Filter(p, s)|
    ensures forall x :: x in Filter(q, s) <==> x in s && q(x)
  {
    if s != [] {
      FilterFilterLength(p, q, s[1..]);
      assert Filter(q, s) == if q(s[0]) then [s[0]] + Filter(q, s[1..]) else Filter(q, s[1..]);
      assert q(s[0]) ==> Filter(q, s)[1..] == Filter(q, s[1..]);
    }
  }

  // Every frontend with TLS that is still to be removed is there as it was fetched, or no
  // frontend of its name is left.
  ghost predicate UpToDate(fs: seq<Frontend>, current: seq<Frontend>) {
    forall f :: f in fs && HasTls(f) ==> f in current || forall g :: g in current ==> g.name != f.name
  }

  // Frontends of the load balancer have been removed, and nothing else has happened; removing
  // any of them was progress.
  ghost predicate FrontendsRemoved(w: World, w': World, id: Uuid) {
    && id in w.lbs && id in w'.lbs
    && w'.lbs == w.lbs[id := w.lbs[id].(frontends := w'.lbs[id].frontends)]
    && w'.bundles == w.bundles && w'.issued == w.issued && w'.calls >= w.calls
    && (forall f :: f in w'.lbs[id].frontends ==> f in w.lbs[id].frontends)
    && TlsCount(w'.lbs[id]) <= TlsCount(w.lbs[id])
    && (w'.lbs == w.lbs || TlsCount(w'.lbs[id]) < TlsCount(w.lbs[id]))
    && DistinctStay(w.lbs[id], w'.lbs[id])
  }

  ghost predicate DistinctStay(lb: LoadBalancer, lb': LoadBalancer) {
    DistinctKeys(FrontendName, lb.frontends) ==> DistinctKeys(FrontendName, lb'.frontends)
  }

  lemma FrontendsRemovedTransitive(w: World, w1: World, w2: World, id: Uuid)
    requires FrontendsRemoved(w, w1, id) && FrontendsRemoved(w1, w2, id)
    ensures FrontendsRemoved(w, w2, id)
  {
  }

  lemma WithoutName(lb: LoadBalancer, f: Frontend)
    requires HasTls(f) && UpToDate([f], lb.frontends) && exists g :: g in lb.frontends && g.name == f.name
    ensures var lb' := lb.(frontends := Filter(HasOtherName(f.name), lb.frontends));
            && (forall g :: g in lb'.frontends ==> g in lb.frontends && g.name != f.name)
            && TlsCount(lb') < TlsCount(lb)
            && DistinctStay(lb, lb')
  {
    assert f in [f];
    FilterFilterLength(HasTls, HasOtherName(f.name), lb.frontends);
    if DistinctKeys(FrontendName, lb.frontends) {
      FilterDistinct(HasOtherName(f.name), FrontendName, lb.frontends);
    }
  }

  lemma OneFrontendDeleted(e: Env, w: World, id: Uuid, f: Frontend)
    requires id in w.lbs && HasTls(f) && UpToDate([f], w.lbs[id].frontends)
    ensures var (w', r) := DeleteFrontend(e, w, id, f.name);
            && FrontendsRemoved(w, w', id)
            && (r.Ok? ==> forall g :: g in w'.lbs[id].frontends ==> g.name != f.name)
            && (w'.lbs != w.lbs ==> w'.lbs[id].frontends == Filter(HasOtherName(f.name), w.lbs[id].frontends))
  {
    if exists g :: g in w.lbs[id].frontends && g.name == f.name {
      WithoutName(w.lbs[id], f);
    }
  }

  lemma {:induction false} TlsFrontendsDeleted(e: Env, w: World, id: Uuid, fs: seq<Frontend>)
    requires id in w.lbs && UpToDate(fs, w.lbs[id].frontends)
    ensures var (w', ok) := DeleteTlsFrontends(e, w, id, fs);
            && FrontendsRemoved(w, w', id)
            && (ok ==> forall f, g :: f in fs && HasTls(f) && g in w'.lbs[id].frontends ==> g.name != f.name)
    decreases |fs|
  {
    if fs != [] {
      if |fs[0].tlsConfigs| == 0 {
        TlsFrontendsDeleted(e, w, id, fs[1..]);
      } else {
        assert UpToDate([fs[0]], w.lbs[id].frontends);
        OneFrontendDeleted(e, w, id, fs[0]);
        var w1 := DeleteFrontend(e, w, id, fs[0].name).0;
        StillUpToDate(fs[1..], w.lbs[id].frontends, w1.lbs[id].frontends, fs[0].name);
        TlsFrontendsDeleted(e, w1, id, fs[1..]);
        FrontendsRemovedTransitive(w, w1, DeleteTlsFrontends(e, w1, id, fs[1..]).0, id);
      }
    }
  }

  lemma {:induction false} StillUpToDate(fs: seq<Frontend>, current: seq<Frontend>, left: seq<Frontend>, name: string)
    requires UpToDate(fs, current) && (left == current || left == Filter(HasOtherName(name), current))
    ensures UpToDate(fs, left)
  {
    FilterFilterLength(HasTls, HasOtherName(name), current);
  }

  // ----- the bundle -----

  lemma {:induction false} FindAfterRemoval(bundles: seq<Bundle>, name: string, b: Bundle)
    requires forall i, j :: 0 <= i < j < |bundles| ==> bundles[i].name != bundles[j].name
    requires FindBundle(bundles, name) == Some(b)
    ensures FindBundle(Filter(HasOtherUuid(b.uuid), bundles), name) == None
  {
    FilterFilterLength(HasOtherUuid(b.uuid), HasOtherUuid(b.uuid), bundles);
    forall x | x in Filter(HasOtherUuid(b.uuid), bundles) ensures x.name != name {
      var i :| 0 <= i < |bundles| && bundles[i] == b;
      var j :| 0 <= j < |bundles| && bundles[j] == x;
      assert i != j;
    }
  }

  // The bundle of that name is deleted or it is not, and nothing else changes; when the step goes
  // through, the bundle is left exactly when some load balancer uses it.
  lemma {:induction false} NamedBundleDeleted(e: Env, w: World, name: string)
    requires Consistent(w)
    ensures var (w', ok) := DeleteNamedBundle(e, w, name);
            var found := FindBundle(w.bundles, name);
            && w'.lbs == w.lbs && w'.issued == w.issued && w'.calls >= w.calls
            && (w'.bundles == w.bundles || (found.Some? && w'.bundles == Filter(HasOtherUuid(found.value.uuid), w.bundles)
                                            && FindBundle(w'.bundles, name) == None && !InUse(w, found.value.uuid)))
            && (ok ==> (FindBundle(w'.bundles, name).Some? <==> found.Some? && InUse(w, found.value.uuid)))
            && ((forall n :: n >= w.calls ==> e.faults(n).Fine?) ==> ok)
  {
    var found := FindBundle(w.bundles, name);
    if found.Some? {
      FindAfterRemoval(w.bundles, name, found.value);
    }
  }

  // ----- one run on a fetched load balancer -----

  // Some other load balancer uses the bundle, or a backend of this one does. Only the TLS frontends
  // of this load balancer are removed before the bundle.
  predicate StillNeeded(w: World, id: Uuid, bundle: Uuid)
    requires id in w.lbs
  {
    || (exists other :: other in w.lbs && other != id && Uses(w.lbs[other], bundle))
    || (exists b :: b in w.lbs[id].backends && BackendUses(b, bundle))
  }

  lemma UseAfterFrontends(w: World, w1: World, id: Uuid, bundle: Uuid)
    requires id in w.lbs && id in w1.lbs
    requires w1.lbs == w.lbs[id := w.lbs[id].(frontends := w1.lbs[id].frontends)]
    requires forall f :: f in w1.lbs[id].frontends ==> !HasTls(f)
    ensures InUse(w1, bundle) <==> StillNeeded(w, id, bundle)
  {
    assert Uses(w1.lbs[id], bundle) <==> exists b :: b in w.lbs[id].backends && BackendUses(b, bundle);
    if StillNeeded(w, id, bundle) {
      if other :| other in w.lbs && other != id && Uses(w.lbs[other], bundle) {
        assert w1.lbs[other] == w.lbs[other];
      }
    }
    if InUse(w1, bundle) {
      var other :| other in w1.lbs && Uses(w1.lbs[other], bundle);
      assert other != id ==> w1.lbs[other] == w.lbs[other];
    }
  }

  lemma {:induction false} FineTlsFrontends(e: Env, w: World, id: Uuid, fs: seq<Frontend>)
    requires forall n :: n >= w.calls ==> e.faults(n).Fine?
    requires id in w.lbs && DistinctKeys(FrontendName, fs)
    requires forall f :: f in fs && HasTls(f) ==> f in w.lbs[id].frontends
    ensures DeleteTlsFrontends(e, w, id, fs).1
    decreases |fs|
  {
    if fs != [] {
      var w1 := w;
      var rest := fs[1..];
      if HasTls(fs[0]) {
        w1 := DeleteFrontend(e, w, id, fs[0].name).0;
        FilterFilterLength(HasTls, HasOtherName(fs[0].name), w.lbs[id].frontends);
        forall f | f in rest && HasTls(f) ensures f in w1.lbs[id].frontends {
          var k :| 0 <= k < |rest| && rest[k] == f;
          assert FrontendName(fs[0]) != FrontendName(fs[k + 1]);
        }
      }
      assert forall i :: 0 <= i < |rest| ==> rest[i] == fs[i + 1];
      FineTlsFrontends(e, w1, id, rest);
    }
  }

  lemma ConsistentAfterDeletion(w: World, w': World, id: Uuid, name: string)
    requires Consistent(w) && Framed(w, w', id, name)
    ensures Consistent(w')
  {
    if w'.bundles != w.bundles {
      var gone := FindBundle(w.bundles, name).value;
      FilterKeepsDistinct(HasOtherUuid(gone.uuid), w.bundles);
    }
  }

  lemma {:induction false} FilterKeepsDistinct(p: Bundle -> bool, s: seq<Bundle>)
    requires forall i, j :: 0 <= i < j < |s| ==> s[i].uuid != s[j].uuid
    requires forall i, j :: 0 <= i < j < |s| ==> s[i].name != s[j].name
    ensures var t := Filter(p, s);
            && (forall b :: b in t ==> b in s)
            && (forall i, j :: 0 <= i < j < |t| ==> t[i].uuid != t[j].uuid)
            && (forall i, j :: 0 <= i < j < |t| ==> t[i].name != t[j].name)
  {
    if s != [] {
      assert forall i :: 0 <= i < |s[1..]| ==> s[1..][i] == s[i + 1];
      FilterKeepsDistinct(p, s[1..]);
      var rest := Filter(p, s[1..]);
      forall i | 0 <= i < |rest| ensures rest[i].uuid != s[0].uuid && rest[i].name != s[0].name {
        assert rest[i] in s[1..];
      }
    }
  }

  // The run gets to the call that removes the load balancer, and this call is not refused.
  predicate RemovesIt(e: Env, w: World, lb: LoadBalancer) {
    var (w1, removed) := DeleteTlsFrontends(e, w, lb.uuid, lb.frontends);
    removed && var (w2, freed) := DeleteNamedBundle(e, w1, BundleNameOf(lb)); freed && !e.faults(w2.calls).Refused?
  }

  lemma RunRemovesIt(e: Env, w: World, id: Uuid)
    requires Consistent(w) && id in w.lbs
    ensures id !in DeleteRun(e, w, w.lbs[id]).0.lbs <==> RemovesIt(e, w, w.lbs[id])
  {
    var lb := w.lbs[id];
    TlsFrontendsDeleted(e, w, id, lb.frontends);
    var w1 := DeleteTlsFrontends(e, w, id, lb.frontends).0;
    assert DeleteNamedBundle(e, w1, BundleNameOf(lb)).0.lbs == w1.lbs;
  }

  // What a run on the load balancer as it is does, whether it goes through or not: nothing else is
  // touched, no work is added, and any change is progress. Once the load balancer is gone, the
  // bundle is left exactly when it is still needed.
  ghost predicate RunEffects(w: World, w': World, id: Uuid)
    requires id in w.lbs
  {
    var name := BundleNameOf(w.lbs[id]);
    var found := FindBundle(w.bundles, name);
    && Framed(w, w', id, name)
    && ((w'.lbs == w.lbs && w'.bundles == w.bundles) || Outstanding(w', id, name) < Outstanding(w, id, name))
    && (id in w'.lbs ==> DistinctStay(w.lbs[id], w'.lbs[id]))
    && (id !in w'.lbs ==> (FindBundle(w'.bundles, name).Some? <==> found.Some? && StillNeeded(w, id, found.value.uuid)))
    && (w'.bundles != w.bundles ==> FindBundle(w'.bundles, name) == None && !StillNeeded(w, id, found.value.uuid))
  }

  lemma DeleteRunEffects(e: Env, w: World, id: Uuid)
    requires Consistent(w) && id in w.lbs
    ensures var (w', ok) := DeleteRun(e, w, w.lbs[id]);
            && RunEffects(w, w', id)
            && (ok ==> id !in w'.lbs)
            && (DistinctKeys(FrontendName, w.lbs[id].frontends) && (forall n :: n >= w.calls ==> e.faults(n).Fine?) ==> ok)
  {
    var lb := w.lbs[id];
    TlsFrontendsDeleted(e, w, id, lb.frontends);
    var (w1, removed) := DeleteTlsFrontends(e, w, id, lb.frontends);
    if DistinctKeys(FrontendName, lb.frontends) && forall n :: n >= w.calls ==> e.faults(n).Fine? {
      FineTlsFrontends(e, w, id, lb.frontends);
    }
    FrontendsRemovedEffects(w, w1, id);
    if removed {
      DeleteRunTail(e, w, w1, id);
    }
  }

  lemma FrontendsRemovedEffects(w: World, w1: World, id: Uuid)
    requires FrontendsRemoved(w, w1, id)
    ensures RunEffects(w, w1, id)
  {
  }

  // The bundle step has been taken, as DeleteRunBundle describes it.
  lemma BundleStepEffects(w: World, w1: World, w2: World, id: Uuid)
    requires FrontendsRemoved(w, w1, id)
    requires w2.lbs == w1.lbs && w2.issued == w1.issued && w2.calls >= w1.calls
    requires var name := BundleNameOf(w.lbs[id]);
             var found := FindBundle(w.bundles, name);
             w2.bundles == w.bundles || (found.Some? && w2.bundles == Filter(HasOtherUuid(found.value.uuid), w.bundles)
                                         && FindBundle(w2.bundles, name) == None && !StillNeeded(w, id, found.value.uuid))
    ensures RunEffects(w, w2, id)
  {
  }

  lemma LastStepEffects(e: Env, w: World, w2: World, id: Uuid)
    requires id in w.lbs && id in w2.lbs && RunEffects(w, w2, id)
    requires var name := BundleNameOf(w.lbs[id]);
             var found := FindBundle(w.bundles, name);
             FindBundle(w2.bundles, name).Some? <==> found.Some? && StillNeeded(w, id, found.value.uuid)
    ensures RunEffects(w, DeleteLoadBalancer(e, w2, id).0, id)
  {
  }

  lemma DeleteRunTail(e: Env, w: World, w1: World, id: Uuid)
    requires Consistent(w) && id in w.lbs && FrontendsRemoved(w, w1, id)
    requires forall f :: f in w1.lbs[id].frontends ==> !HasTls(f)
    ensures var (w2, freed) := DeleteNamedBundle(e, w1, BundleNameOf(w.lbs[id]));
            var (w3, r) := DeleteLoadBalancer(e, w2, id);
            && RunEffects(w, w2, id)
            && (freed ==> RunEffects(w, w3, id))
            && (freed && r.Ok? ==> id !in w3.lbs)
            && (freed && r.Err? ==> !r.error.NotFound?)
            && ((forall n :: n >= w1.calls ==> e.faults(n).Fine?) ==> freed && r.Ok?)
  {
    DeleteRunBundle(e, w, w1, id);
    var (w2, freed) := DeleteNamedBundle(e, w1, BundleNameOf(w.lbs[id]));
    BundleStepEffects(w, w1, w2, id);
    if freed {
      LastStepEffects(e, w, w2, id);
    }
  }

  // The part of the run after the TLS frontends.
  lemma DeleteRunBundle(e: Env, w: World, w1: World, id: Uuid)
    requires Consistent(w) && id in w.lbs
    requires FrontendsRemoved(w, w1, id)
    requires forall f :: f in w1.lbs[id].frontends ==> !HasTls(f)
    ensures var name := BundleNameOf(w.lbs[id]);
            var found := FindBundle(w.bundles, name);
            var (w2, freed) := DeleteNamedBundle(e, w1, name);
            && w2.lbs == w1.lbs && w2.issued == w1.issued && w2.calls >= w1.calls
            && (w2.bundles == w.bundles || (found.Some? && w2.bundles == Filter(HasOtherUuid(found.value.uuid), w.bundles)
                                            && FindBundle(w2.bundles, name) == None
                                            && !StillNeeded(w, id, found.value.uuid)))
            && (freed ==> (FindBundle(w2.bundles, name).Some? <==> found.Some? && StillNeeded(w, id, found.value.uuid)))
            && ((forall n :: n >= w1.calls ==> e.faults(n).Fine?) ==> freed)
  {
    var name := BundleNameOf(w.lbs[id]);
    var found := FindBundle(w.bundles, name);
    assert Consistent(w1);
    NamedBundleDeleted(e, w1, name);
    if found.Some? {
      UseAfterFrontends(w, w1, id, found.value.uuid);
    }
  }

  // ----- repeated runs -----

  // The state after any number of runs: framed, no more work than before, and as far as the bundle or
  // the load balancer is gone, rightly so.
  ghost predicate Resumable(w: World, w': World, id: Uuid)
    requires id in w.lbs
  {
    var name := BundleNameOf(w.lbs[id]);
    var found := FindBundle(w.bundles, name);
    && Consistent(w')
    && Framed(w, w', id, name)
    && Outstanding(w', id, name) <= Outstanding(w, id, name)
    && (id in w'.lbs ==> DistinctStay(w.lbs[id], w'.lbs[id]))
    && (w'.bundles != w.bundles ==> FindBundle(w'.bundles, name) == None && !StillNeeded(w, id, found.value.uuid))
    && (id !in w'.lbs ==> (FindBundle(w'.bundles, name).Some? <==> found.Some? && StillNeeded(w, id, found.value.uuid)))
  }

  lemma {:induction false} FramedTransitive(w: World, w1: World, w2: World, id: Uuid, name: string)
    requires Framed(w, w1, id, name) && Framed(w1, w2, id, name)
    requires w1.bundles != w.bundles ==> FindBundle(w1.bundles, name) == None
    ensures Framed(w, w2, id, name)
  {
  }

  lemma StillNeededAfter(w: World, w1: World, id: Uuid, name: string, bundle: Uuid)
    requires Framed(w, w1, id, name) && id in w.lbs && id in w1.lbs
    ensures StillNeeded(w1, id, bundle) <==> StillNeeded(w, id, bundle)
  {
  }

  lemma AttemptResumes(e: Env, w: World, w1: World, id: Uuid)
    requires id in w.lbs && Consistent(w) && Resumable(w, w1, id)
    ensures var (w2, ok) := DeleteAttempt(e, w1, id);
            && Resumable(w, w2, id)
            && Outstanding(w2, id, BundleNameOf(w.lbs[id])) <= Outstanding(w1, id, BundleNameOf(w.lbs[id]))
            && (ok ==> id !in w2.lbs)
            && (DistinctKeys(FrontendName, w.lbs[id].frontends) && (forall n :: n >= w1.calls ==> e.faults(n).Fine?) ==> ok)
  {
    var name := BundleNameOf(w.lbs[id]);
    var wc := Called(w1);
    var (w2, ok) := DeleteAttempt(e, w1, id);
    if id in w1.lbs && e.faults(w1.calls).Fine? {
      assert Consistent(wc);
      DeleteRunEffects(e, wc, id);
      ResumableAfterRun(w, wc, w2, id);
    }
  }

  lemma ResumableAfterRun(w: World, w1: World, w2: World, id: Uuid)
    requires id in w.lbs && id in w1.lbs && Consistent(w) && Resumable(w, w1, id) && RunEffects(w1, w2, id)
    ensures Resumable(w, w2, id)
  {
    var name := BundleNameOf(w.lbs[id]);
    assert BundleNameOf(w1.lbs[id]) == name;
    FramedTransitive(w, w1, w2, id, name);
    ConsistentAfterDeletion(w1, w2, id, name);
    var found := FindBundle(w.bundles, name);
    if found.Some? {
      StillNeededAfter(w, w1, id, name, found.value.uuid);
    }
  }

  lemma {:induction false} AttemptsResume(e: Env, w: World, id: Uuid, n: nat)
    requires Consistent(w) && id in w.lbs
    ensures Resumable(w, DeleteAttempts(e, w, id, n), id)
  {
    if n == 0 {
      assert w.lbs[id] == w.lbs[id].(frontends := w.lbs[id].frontends);
    } else {
      AttemptsResume(e, w, id, n - 1);
      AttemptResumes(e, w, DeleteAttempts(e, w, id, n - 1), id);
    }
  }

  // Deletion can be resumed after any number of failed runs, whatever fails in them: no run touches
  // another load balancer or bundle or adds work; and a run without failures then finishes the
  // job, leaving the bundle only if something still needs it.
  lemma {:induction false} DeletionResumes(e: Env, w: World, id: Uuid, n: nat)
    requires Consistent(w) && id in w.lbs
    ensures var w1 := DeleteAttempts(e, w, id, n);
            var (w2, ok) := DeleteAttempt(e, w1, id);
            && Resumable(w, w1, id) && Resumable(w, w2, id)
            && Outstanding(w2, id, BundleNameOf(w.lbs[id])) <= Outstanding(w1, id, BundleNameOf(w.lbs[id]))
            && (ok ==> id !in w2.lbs)
            && (DistinctKeys(FrontendName, w.lbs[id].frontends) && (forall k :: k >= w1.calls ==> e.faults(k).Fine?) ==> ok)
  {
    AttemptsResume(e, w, id, n);
    AttemptResumes(e, w, DeleteAttempts(e, w, id, n), id);
  }
}
