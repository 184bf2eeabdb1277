// After an update that issued a PUT, the next update with the same inputs finds nothing to do:
// exactly when the PUT was able to carry every difference.
module Convergence {
  import opened Wrappers
  import opened Ordering
  import opened Sorting
  import opened Config
  import opened Naming
  import opened Nodes
  import opened Services
  import opened DesiredState
  import opened Compare
  import opened CanonicalForm
  import opened Conversion
  import opened Cloud
  import opened Certificates
  import opened Update
  import Shape

  // At most one backend has TLS configs, only one, and its name comes before all others.
  ghost predicate TlsInFirstBackend(bs: seq<Backend>) {
    forall b :: b in bs && |b.tlsConfigs| > 0 ==>
      && |b.tlsConfigs| == 1
      && multiset(Map(BackendName, bs))[b.name] == 1
      && forall c :: c in bs ==> CompareStrings(b.name, c.name) <= 0
  }

  // The body of the PUT is the desired request: as it was built if the comparison stopped early, and
  // sorted otherwise.
  ghost predicate IsBody(early: bool, d: Request, body: Request) {
    if early then body == d else Canonical(d, body)
  }

  // What a PUT can bring a load balancer to, given what its body leaves out and what the
  // conversion of the stored load balancer loses.
  ghost predicate PutCanReach(lb: LoadBalancer, d: Request, early: bool) {
    && d.zone == lb.zone && d.networkUuid == lb.networkUuid
    && Groups(NetworkName, lb.networks) == Groups(NetworkName, d.networks)
    && (d.name == "" ==> lb.name == "")
    && (d.plan == "" ==> lb.plan == "")
    && (d.configuredStatus == "" ==> lb.configuredStatus == "")
    && NoMatchingConditions(d.frontends)
    && (if early then BackendTlsInPlace(d.backends) else TlsInFirstBackend(d.backends))
  }

  // ----- properties that depend on the shape only -----

  lemma {:induction false} NoMatchingConditionsByShape(fs: seq<Frontend>, gs: seq<Frontend>)
    requires Permutation(Map(Shape.OfFrontend, fs), Map(Shape.OfFrontend, gs)) && NoMatchingConditions(fs)
    ensures NoMatchingConditions(gs)
  {
    forall g, r | g in gs && r in g.rules ensures r.matchingCondition == "" {
      var f := Preimage(Shape.OfFrontend, fs, gs, g);
      var q := Preimage(Shape.OfRule, f.rules, g.rules, r);
    }
  }

  lemma {:induction false} NamesByShape(bs: seq<Backend>, cs: seq<Backend>)
    requires Permutation(Map(Shape.OfBackend, bs), Map(Shape.OfBackend, cs))
    ensures Permutation(Map(BackendName, bs), Map(BackendName, cs))
  {
    MapPermutation(Shape.BackendShapeName, Map(Shape.OfBackend, bs), Map(Shape.OfBackend, cs));
    assert Map(BackendName, bs) == Map(Shape.BackendShapeName, Map(Shape.OfBackend, bs));
    assert Map(BackendName, cs) == Map(Shape.BackendShapeName, Map(Shape.OfBackend, cs));
  }

  lemma BackendTlsByShape(bs: seq<Backend>, cs: seq<Backend>, c: Backend) returns (b: Backend)
    requires Permutation(Map(Shape.OfBackend, bs), Map(Shape.OfBackend, cs)) && c in cs
    ensures b in bs && b.name == c.name && |b.tlsConfigs| == |c.tlsConfigs|
    ensures forall t :: t in c.tlsConfigs ==> t in b.tlsConfigs
  {
    b := Preimage(Shape.OfBackend, bs, cs, c);
    PermutationLength(b.tlsConfigs, c.tlsConfigs);
    forall t | t in c.tlsConfigs ensures t in b.tlsConfigs {
      assert t in multiset(c.tlsConfigs);
    }
  }

  lemma {:induction false} NamedBackendTlsByShape(bs: seq<Backend>, cs: seq<Backend>)
    requires Permutation(Map(Shape.OfBackend, bs), Map(Shape.OfBackend, cs)) && NamedBackendTls(bs)
    ensures NamedBackendTls(cs)
  {
    forall c, t | c in cs && t in c.tlsConfigs ensures t.name != "" {
      var b := BackendTlsByShape(bs, cs, c);
    }
  }

  lemma {:induction false} TlsInFirstBackendByShape(bs: seq<Backend>, cs: seq<Backend>)
    requires Permutation(Map(Shape.OfBackend, bs), Map(Shape.OfBackend, cs)) && TlsInFirstBackend(bs)
    ensures TlsInFirstBackend(cs)
  {
    NamesByShape(bs, cs);
    forall c | c in cs && |c.tlsConfigs| > 0
      ensures |c.tlsConfigs| == 1 && multiset(Map(BackendName, cs))[c.name] == 1
      ensures forall x :: x in cs ==> CompareStrings(c.name, x.name) <= 0
    {
      var b := BackendTlsByShape(bs, cs, c);
      forall x | x in cs ensures CompareStrings(c.name, x.name) <= 0 {
        var y := BackendTlsByShape(bs, cs, x);
      }
    }
  }

  // How often the first element of a sequence occurs.
  lemma FirstOccursOnce<T>(s: seq<T>)
    requires s != []
    ensures multiset(s)[s[0]] == 1 <==> forall i :: 0 < i < |s| ==> s[i] != s[0]
  {
    assert s == [s[0]] + s[1..];
    assert forall i :: 0 < i < |s| ==> s[i] == s[1..][i - 1];
    if s[0] in s[1..] {
      assert s[0] in multiset(s[1..]);
    }
  }

  lemma OnlyFirstHasTls(bs: seq<Backend>, i: nat)
    requires Sorted(ByKey(BackendName), bs) && TlsInFirstBackend(bs) && i < |bs| && |bs[i].tlsConfigs| > 0
    ensures i == 0 && |bs[i].tlsConfigs| == 1
  {
    var names := Map(BackendName, bs);
    assert bs[i] in bs && bs[0] in bs && names[i] == bs[i].name;
    FirstOccursOnce(names);
    assert i == 0 || ByKey(BackendName)(bs[0], bs[i]) <= 0;
    CompareStringsAntisymmetric(bs[0].name, bs[i].name);
    CompareStringsZero(bs[0].name, bs[i].name);
  }

  // In name order, "first" is position 0.
  lemma {:induction false} TlsInPlaceWhenSorted(bs: seq<Backend>)
    requires Sorted(ByKey(BackendName), bs)
    requires KeyDetermines(Shape.BackendShapeName, multiset(Map(Shape.OfBackend, bs)))
    ensures BackendTlsInPlace(bs) <==> TlsInFirstBackend(bs)
  {
    if TlsInFirstBackend(bs) {
      forall i | 0 <= i < |bs| ensures |bs[i].tlsConfigs| == 0 || (i == 0 && |bs[i].tlsConfigs| == 1) {
        if |bs[i].tlsConfigs| > 0 {
          OnlyFirstHasTls(bs, i);
        }
      }
    }
    if BackendTlsInPlace(bs) && bs != [] && |bs[0].tlsConfigs| > 0 {
      FirstIsAlone(bs);
      FirstOccursOnce(Map(BackendName, bs));
    }
  }

  lemma {:induction false} FirstIsAlone(bs: seq<Backend>)
    requires Sorted(ByKey(BackendName), bs) && bs != [] && |bs[0].tlsConfigs| > 0 && BackendTlsInPlace(bs)
    requires KeyDetermines(Shape.BackendShapeName, multiset(Map(Shape.OfBackend, bs)))
    ensures forall i :: 0 < i < |bs| ==> BackendName(bs[i]) != BackendName(bs[0])
    ensures forall c :: c in bs ==> CompareStrings(bs[0].name, c.name) <= 0
  {
    var shapes := Map(Shape.OfBackend, bs);
    forall i | 0 < i < |bs| ensures BackendName(bs[i]) != BackendName(bs[0]) {
      assert shapes[i] in multiset(shapes) && shapes[0] in multiset(shapes);
      if BackendName(bs[i]) == BackendName(bs[0]) {
        assert Shape.BackendShapeName(shapes[i]) == Shape.BackendShapeName(shapes[0]);
        PermutationLength(bs[i].tlsConfigs, bs[0].tlsConfigs);
      }
    }
    forall i | 0 <= i < |bs| ensures CompareStrings(bs[0].name, bs[i].name) <= 0 {
      if i == 0 {
        CompareStringsZero(bs[0].name, bs[0].name);
      } else {
        assert ByKey(BackendName)(bs[0], bs[i]) <= 0;
      }
    }
  }

  // ----- what the load balancer compares as after the PUT -----

  // A sorted body and its request share these properties.
  lemma SortedBodyProperties(d: Request, body: Request)
    requires Canonical(d, body) && Shape.Unambiguous(d) && NamedBackendTls(d.backends)
    ensures SameScalars(d, body) && Shape.OfRequest(d) == Shape.OfRequest(body)
    ensures NoMatchingConditions(body.frontends) <==> NoMatchingConditions(d.frontends)
    ensures BackendTlsInPlace(body.backends) <==> TlsInFirstBackend(d.backends)
    ensures NamedBackendTls(body.backends)
  {
    CanonicalKeepsShape(d, body);
    CanonicalSorted(d, body);
    if NoMatchingConditions(d.frontends) {
      NoMatchingConditionsByShape(d.frontends, body.frontends);
    }
    if NoMatchingConditions(body.frontends) {
      NoMatchingConditionsByShape(body.frontends, d.frontends);
    }
    if TlsInFirstBackend(d.backends) {
      TlsInFirstBackendByShape(d.backends, body.backends);
    }
    if TlsInFirstBackend(body.backends) {
      TlsInFirstBackendByShape(body.backends, d.backends);
    }
    TlsInPlaceWhenSorted(body.backends);
    NamedBackendTlsByShape(d.backends, body.backends);
  }

  lemma BodyProperties(early: bool, d: Request, body: Request)
    requires IsBody(early, d, body) && Shape.Unambiguous(d) && NamedBackendTls(d.backends) && d.labels != []
    ensures SameScalars(d, body) && Shape.OfRequest(d) == Shape.OfRequest(body)
    ensures NoMatchingConditions(body.frontends) <==> NoMatchingConditions(d.frontends)
    ensures BackendTlsInPlace(body.backends) <==>
            if early then BackendTlsInPlace(d.backends) else TlsInFirstBackend(d.backends)
    ensures NamedBackendTls(body.backends) && body.labels != []
  {
    if !early {
      SortedBodyProperties(d, body);
    }
    Shape.SameShapeSameLengths(d, body);
  }

  lemma ScalarsAfterPut(lb: LoadBalancer, d: Request, body: Request, live: Request)
    requires SameScalars(d, body) && Converted(Replaced(lb, body)) == Some(live)
    ensures Shape.ScalarsAgree(live, d) <==>
            && d.zone == lb.zone && d.networkUuid == lb.networkUuid
            && (d.name == "" ==> lb.name == "")
            && (d.plan == "" ==> lb.plan == "")
            && (d.configuredStatus == "" ==> lb.configuredStatus == "")
  {
  }

  // The load balancer as the PUT leaves it is equal to the desired request up to order exactly
  // when the PUT can reach it.
  lemma AfterPutSameConfiguration(lb: LoadBalancer, d: Request, early: bool, body: Request)
    requires IsBody(early, d, body) && Shape.Unambiguous(d) && NamedBackendTls(d.backends) && d.labels != []
    ensures var live := Converted(Replaced(lb, body));
            (live.Some? && Shape.SameConfiguration(live.value, d)) <==> PutCanReach(lb, d, early)
  {
    BodyProperties(early, d, body);
    FrontendShapesConverted(body.frontends);
    BackendShapesConverted(body.backends);
    BackendsConverted(body.backends);
    FrontendsConverted(body.frontends);
    var live := Converted(Replaced(lb, body));
    if live.Some? {
      ScalarsAfterPut(lb, d, body, live.value);
      ListsAfterPut(lb, d, body, live.value);
    }
  }

  lemma ListsAfterPut(lb: LoadBalancer, d: Request, body: Request, live: Request)
    requires Converted(Replaced(lb, body)) == Some(live) && body.labels != []
    requires Shape.OfRequest(d) == Shape.OfRequest(body)
    ensures Shape.OfRequest(live) == Shape.OfRequest(d) <==>
            && Groups(NetworkName, lb.networks) == Groups(NetworkName, d.networks)
            && Permutation(Map(Shape.OfFrontend, Map(ConvertedFrontend, body.frontends)), Map(Shape.OfFrontend, body.frontends))
            && Permutation(Map(Shape.OfBackend, ConvertedBackends(body.backends, 0).value), Map(Shape.OfBackend, body.backends))
  {
  }

  // The verdict of the next comparison, if the conversion gets that far.
  lemma NextComparison(lb: LoadBalancer, d: Request, early: bool, body: Request, live: Request,
                       live': Request, d': Request, m: Option<Mismatch>)
    requires IsBody(early, d, body) && Shape.Unambiguous(d) && NamedBackendTls(d.backends) && d.labels != []
    requires Converted(Replaced(lb, body)) == Some(live) && Compared(live, d, live', d', m)
    ensures m.None? <==> PutCanReach(lb, d, early)
  {
    AfterPutSameConfiguration(lb, d, early, body);
    if PutCanReach(lb, d, early) {
      ComparisonDecides(live, d, live', d', m);
    } else {
      ComparisonSound(live, d, live', d', m);
    }
  }

  // ----- two updates in a row -----

  // The request as it is built for an update, before its certificates.
  function Built(e: Env, lb: LoadBalancer, s: Service, nodes: seq<Node>, clusterName: string): Result<Request, BuildError>
    requires PrivateNetworkOf(lb).Some?
  {
    Desired(e.settings, s, nodes, e.plans, clusterName, PrivateNetworkOf(lb).value.uuid, lb.zone)
  }

  // Another update names the certificate bundle as this one does, or has no use for it.
  predicate SameBundle(e: Env, lb: LoadBalancer, s: Service, nodes: seq<Node>, clusterName: string)
    requires PrivateNetworkOf(lb).Some?
  {
    || CertBundleName(LoadBalancerGeneratedName(lb)) == CertBundleName(GeneratedName(e.settings, s, clusterName))
    || (Built(e, lb, s, nodes, clusterName).Ok?
        && forall f :: f in Built(e, lb, s, nodes, clusterName).value.frontends ==> !NeedsCertificate(f))
  }

  lemma DesiredLabels(e: Env, w: World, lb: LoadBalancer, s: Service, nodes: seq<Node>, clusterName: string,
                      early: bool, body: Request)
    requires DesiredWithCertificates(e, w, lb, s, nodes, clusterName).1.Some?
    requires IsBody(early, DesiredWithCertificates(e, w, lb, s, nodes, clusterName).1.value, body)
    ensures DesiredWithCertificates(e, w, lb, s, nodes, clusterName).1.value.labels != []
    ensures GeneratedNameLabelValue(body.labels) == GeneratedName(e.settings, s, clusterName) != ""
  {
    var network := PrivateNetworkOf(lb).value;
    var d := Desired(e.settings, s, nodes, e.plans, clusterName, network.uuid, lb.zone).value;
    ByKeyIsPreorder(LabelKey);
    StableSortIsStable(ByKey(LabelKey), d.labels);
    GeneratedNameSurvives(e.settings, s, nodes, e.plans, clusterName, network.uuid, lb.zone,
                          if early then StableSort(ByKey(LabelKey), d.labels) else body.labels);
  }

  lemma ProvisionOnlyBundles(e: Env, w: World, lb: LoadBalancer, s: Service, nodes: seq<Node>, clusterName: string)
    ensures DesiredWithCertificates(e, w, lb, s, nodes, clusterName).0.lbs == w.lbs
  {
    if PrivateNetworkOf(lb).Some? {
      var network := PrivateNetworkOf(lb).value;
      var d := Desired(e.settings, s, nodes, e.plans, clusterName, network.uuid, lb.zone);
      if d.Ok? {
        ProvisionSharesOneBundle(e, Ask(e, w).0, CertBundleName(LoadBalancerGeneratedName(lb)), lb.dnsName, d.value.frontends);
      }
    }
  }

  // Whether the comparison with the live configuration stops before it sorts.
  predicate StopsEarly(lb: LoadBalancer, d: Request) {
    Converted(lb).Some? && EarlyMismatch(Converted(lb).value, d).Some?
  }

  // The comparison within a run.
  lemma ComparisonOf(e: Env, w: World, lb: LoadBalancer, d: Request, w': World, res: UpdateResult)
    returns (live': Request, body: Request, m: Option<Mismatch>)
    requires Converted(lb).Some? && Reconciled(e, w, lb, d, w', res)
    ensures Compared(Converted(lb).value, d, live', body, m) && PutIfNeeded(e, w, lb, body, m, w', res)
  {
    live', body, m :| Compared(Converted(lb).value, d, live', body, m) && PutIfNeeded(e, w, lb, body, m, w', res);
  }

  // What an update with a PUT leaves behind.
  lemma AfterPut(e: Env, w: World, id: Uuid, s: Service, nodes: seq<Node>, clusterName: string, w1: World, m: Mismatch)
    returns (body: Request)
    requires id in w.lbs && w.lbs[id].uuid == id
    requires UpdateRun(e, w, w.lbs[id], s, nodes, clusterName, w1, Changed(m))
    ensures var (wd, d) := DesiredWithCertificates(e, w, w.lbs[id], s, nodes, clusterName);
            && d.Some? && IsBody(StopsEarly(w.lbs[id], d.value), d.value, body)
            && w1.lbs == w.lbs[id := Replaced(w.lbs[id], body)] && w1.bundles == wd.bundles
  {
    var lb := w.lbs[id];
    var (wd, desired) := DesiredWithCertificates(e, w, lb, s, nodes, clusterName);
    ProvisionOnlyBundles(e, w, lb, s, nodes, clusterName);
    var live', b, mm := ComparisonOf(e, wd, lb, desired.value, w1, Changed(m));
    body := b;
  }

  // An update that issued a PUT, then another one of the same service, nodes and plans, on the
  // load balancer as the PUT left it: unless a call fails, it finds nothing to do exactly when the PUT
  // could reach the desired configuration and did not change the bundle that a frontend needs.
  lemma UpdateConverges(e: Env, w: World, id: Uuid, s: Service, nodes: seq<Node>, clusterName: string, w1: World, m: Mismatch,
                        e2: Env, v: World, v1: World, res: UpdateResult)
    requires id in w.lbs && w.lbs[id].uuid == id
    requires UpdateRun(e, w, w.lbs[id], s, nodes, clusterName, w1, Changed(m))
    requires e2 == e.(faults := e2.faults) && v.lbs == w1.lbs && v.bundles == w1.bundles && id in v.lbs
    requires UpdateRun(e2, v, v.lbs[id], s, nodes, clusterName, v1, res)
    requires var d := DesiredWithCertificates(e, w, w.lbs[id], s, nodes, clusterName).1.value;
             Shape.Unambiguous(d) && NamedBackendTls(d.backends)
    requires forall n :: n >= v.calls ==> e2.faults(n).Fine?
    ensures var lb := w.lbs[id];
            var d := DesiredWithCertificates(e, w, lb, s, nodes, clusterName).1.value;
            && (res == NoChange <==> PutCanReach(lb, d, StopsEarly(lb, d)) && SameBundle(e, lb, s, nodes, clusterName))
            && (res == NoChange ==> v1.lbs == v.lbs && v1.bundles == v.bundles)
  {
    var lb := w.lbs[id];
    var d := DesiredWithCertificates(e, w, lb, s, nodes, clusterName).1.value;
    var early := StopsEarly(lb, d);
    var body := AfterPut(e, w, id, s, nodes, clusterName, w1, m);
    DesiredLabels(e, w, lb, s, nodes, clusterName, early, body);
    assert body.labels != [] by {
      BodyProperties(early, d, body);
    }
    assert v.lbs[id] == Replaced(lb, body);
    if SameBundle(e, lb, s, nodes, clusterName) {
      DesiredAfterPut(e, w, lb, s, nodes, clusterName, body, e2, v);
      NextUpdate(lb, d, early, body, e2, DesiredWithCertificates(e2, v, Replaced(lb, body), s, nodes, clusterName).0, v1, res);
    } else {
      OtherBundle(e, w, lb, s, nodes, clusterName, early, body, e2, v, v1, res);
    }
  }

  // The next update desires what the last one did.
  lemma DesiredAfterPut(e: Env, w: World, lb: LoadBalancer, s: Service, nodes: seq<Node>, clusterName: string,
                        body: Request, e2: Env, v: World)
    requires e2 == e.(faults := e2.faults) && forall n :: n >= v.calls ==> e2.faults(n).Fine?
    requires DesiredWithCertificates(e, w, lb, s, nodes, clusterName).1.Some? && SameBundle(e, lb, s, nodes, clusterName)
    requires v.bundles == DesiredWithCertificates(e, w, lb, s, nodes, clusterName).0.bundles
    requires GeneratedName(e.settings, s, clusterName) == GeneratedNameLabelValue(body.labels) != "" && body.labels != []
    ensures var (v1, again) := DesiredWithCertificates(e2, v, Replaced(lb, body), s, nodes, clusterName);
            && v1.lbs == v.lbs && v1.bundles == v.bundles
            && again == DesiredWithCertificates(e, w, lb, s, nodes, clusterName).1
  {
    var d := Built(e, lb, s, nodes, clusterName).value;
    var name, other := LoadBalancerGeneratedName(lb), GeneratedName(e.settings, s, clusterName);
    assert LoadBalancerGeneratedName(Replaced(lb, body)) == other;
    if CertBundleName(name) == CertBundleName(other) {
      ProvisionSettles(e, Ask(e, w).0, name, lb.dnsName, d.frontends, e2, Called(v));
    } else {
      NoneNeeded(e, Ask(e, w).0, CertBundleName(name), lb.dnsName, d.frontends);
      NoneNeeded(e2, Called(v), CertBundleName(other), lb.dnsName, d.frontends);
    }
  }

  // A certified frontend refers to the bundle by its name.
  lemma CertifiedUnder(e: Env, w: World, lb: LoadBalancer, s: Service, nodes: seq<Node>, clusterName: string, i: nat)
    requires DesiredWithCertificates(e, w, lb, s, nodes, clusterName).1.Some?
    requires i < |Built(e, lb, s, nodes, clusterName).value.frontends|
    ensures var fs := DesiredWithCertificates(e, w, lb, s, nodes, clusterName).1.value.frontends;
            var f := Built(e, lb, s, nodes, clusterName).value.frontends[i];
            && i < |fs| && fs[i].name == f.name
            && (NeedsCertificate(f) ==>
                  |fs[i].tlsConfigs| == 1 && fs[i].tlsConfigs[0].name == CertBundleName(LoadBalancerGeneratedName(lb)))
  {
    var fs := Built(e, lb, s, nodes, clusterName).value.frontends;
    assert fs[i] in fs;
    ProvisionSharesOneBundle(e, Ask(e, w).0, CertBundleName(LoadBalancerGeneratedName(lb)), lb.dnsName, fs);
  }

  // Two configurations of one shape whose frontends are converted from an unambiguous one: in frontends of
  // one name the TLS configs have the same names.
  lemma SameFrontendTls(d: Request, body: Request, d2: Request, f: Frontend, f2: Frontend)
    requires Shape.Unambiguous(d) && Shape.OfRequest(d) == Shape.OfRequest(body)
    requires Permutation(Map(Shape.OfFrontend, Map(ConvertedFrontend, body.frontends)), Map(Shape.OfFrontend, d2.frontends))
    requires f in d.frontends && f2 in d2.frontends && f.name == f2.name
    ensures multiset(f.tlsConfigs) == multiset(f2.tlsConfigs)
  {
    var c := Preimage(Shape.OfFrontend, Map(ConvertedFrontend, body.frontends), d2.frontends, f2);
    var i :| 0 <= i < |body.frontends| && c == ConvertedFrontend(body.frontends[i]);
    var g := Preimage(Shape.OfFrontend, d.frontends, body.frontends, body.frontends[i]);
    SameNameSameShape(d, f, g);
  }

  lemma SameNameSameShape(d: Request, f: Frontend, g: Frontend)
    requires Shape.Unambiguous(d) && f in d.frontends && g in d.frontends && f.name == g.name
    ensures Shape.OfFrontend(f) == Shape.OfFrontend(g)
  {
    var i :| 0 <= i < |d.frontends| && d.frontends[i] == f;
    var j :| 0 <= j < |d.frontends| && d.frontends[j] == g;
    var shapes := Map(Shape.OfFrontend, d.frontends);
    assert shapes[i] in multiset(shapes) && shapes[j] in multiset(shapes);
    assert Shape.FrontendShapeName(shapes[i]) == Shape.FrontendShapeName(shapes[j]);
  }

  // If the PUT changes the name of the bundle that a frontend needs, the next update has something to do.
  lemma OtherBundle(e: Env, w: World, lb: LoadBalancer, s: Service, nodes: seq<Node>, clusterName: string,
                    early: bool, body: Request, e2: Env, v: World, v1: World, res: UpdateResult)
    requires e2 == e.(faults := e2.faults)
    requires DesiredWithCertificates(e, w, lb, s, nodes, clusterName).1.Some? && !SameBundle(e, lb, s, nodes, clusterName)
    requires var d := DesiredWithCertificates(e, w, lb, s, nodes, clusterName).1.value;
             IsBody(early, d, body) && Shape.Unambiguous(d) && NamedBackendTls(d.backends) && d.labels != []
    requires GeneratedName(e.settings, s, clusterName) == GeneratedNameLabelValue(body.labels) != "" && body.labels != []
    requires UpdateRun(e2, v, Replaced(lb, body), s, nodes, clusterName, v1, res)
    ensures res != NoChange
  {
    var lb2 := Replaced(lb, body);
    var d := DesiredWithCertificates(e, w, lb, s, nodes, clusterName).1.value;
    var (w2, again) := DesiredWithCertificates(e2, v, lb2, s, nodes, clusterName);
    if again.Some? && Converted(lb2).Some? {
      assert Shape.OfRequest(d) == Shape.OfRequest(body) by {
        BodyProperties(early, d, body);
      }
      assert !Shape.SameConfiguration(Converted(lb2).value, again.value) by {
        OtherBundleDiffers(e, w, lb, s, nodes, clusterName, body, e2, v);
      }
      NotSameIsChange(e2, w2, lb2, again.value, v1, res);
    }
  }

  lemma NotSameIsChange(e: Env, w: World, lb: LoadBalancer, d: Request, w1: World, res: UpdateResult)
    requires Converted(lb).Some? && !Shape.SameConfiguration(Converted(lb).value, d) && Reconciled(e, w, lb, d, w1, res)
    ensures res != NoChange
  {
    var live', body, m := ComparisonOf(e, w, lb, d, w1, res);
    ComparisonSound(Converted(lb).value, d, live', body, m);
  }

  lemma OtherBundleDiffers(e: Env, w: World, lb: LoadBalancer, s: Service, nodes: seq<Node>, clusterName: string,
                           body: Request, e2: Env, v: World)
    requires e2 == e.(faults := e2.faults)
    requires DesiredWithCertificates(e, w, lb, s, nodes, clusterName).1.Some? && !SameBundle(e, lb, s, nodes, clusterName)
    requires var d := DesiredWithCertificates(e, w, lb, s, nodes, clusterName).1.value;
             Shape.OfRequest(d) == Shape.OfRequest(body) && Shape.Unambiguous(d)
    requires GeneratedName(e.settings, s, clusterName) == GeneratedNameLabelValue(body.labels) != "" && body.labels != []
    requires Converted(Replaced(lb, body)).Some?
    requires DesiredWithCertificates(e2, v, Replaced(lb, body), s, nodes, clusterName).1.Some?
    ensures !Shape.SameConfiguration(Converted(Replaced(lb, body)).value,
                                     DesiredWithCertificates(e2, v, Replaced(lb, body), s, nodes, clusterName).1.value)
  {
    var lb2 := Replaced(lb, body);
    var d := DesiredWithCertificates(e, w, lb, s, nodes, clusterName).1.value;
    var d2 := DesiredWithCertificates(e2, v, lb2, s, nodes, clusterName).1.value;
    var built := Built(e, lb, s, nodes, clusterName).value.frontends;
    assert LoadBalancerGeneratedName(lb2) == GeneratedName(e.settings, s, clusterName);
    assert Built(e2, lb2, s, nodes, clusterName) == Built(e, lb, s, nodes, clusterName);
    var i :| 0 <= i < |built| && NeedsCertificate(built[i]);
    CertifiedUnder(e, w, lb, s, nodes, clusterName, i);
    CertifiedUnder(e2, v, lb2, s, nodes, clusterName, i);
    if Permutation(Map(Shape.OfFrontend, Map(ConvertedFrontend, body.frontends)), Map(Shape.OfFrontend, d2.frontends)) {
      BundleNamesAgree(d, body, d2, i);
    }
  }

  lemma BundleNamesAgree(d: Request, body: Request, d2: Request, i: nat)
    requires Shape.Unambiguous(d) && Shape.OfRequest(d) == Shape.OfRequest(body)
    requires Permutation(Map(Shape.OfFrontend, Map(ConvertedFrontend, body.frontends)), Map(Shape.OfFrontend, d2.frontends))
    requires i < |d.frontends| && i < |d2.frontends| && d.frontends[i].name == d2.frontends[i].name
    requires |d.frontends[i].tlsConfigs| == 1 && |d2.frontends[i].tlsConfigs| == 1
    ensures d.frontends[i].tlsConfigs[0].name == d2.frontends[i].tlsConfigs[0].name
  {
    var f, f2 := d.frontends[i], d2.frontends[i];
    SameFrontendTls(d, body, d2, f, f2);
    Singletons(f.tlsConfigs, f2.tlsConfigs);
  }

  lemma Singletons<T>(s: seq<T>, t: seq<T>)
    requires multiset(s) == multiset(t) && |s| == |t| == 1
    ensures s[0] == t[0]
  {
    assert s[0] in multiset(t);
  }

  // The next update, once it is known to desire the same.
  lemma NextUpdate(lb: LoadBalancer, d: Request, early: bool, body: Request, e: Env, w: World, w1: World, res: UpdateResult)
    requires IsBody(early, d, body) && Shape.Unambiguous(d) && NamedBackendTls(d.backends) && d.labels != []
    requires Reconciled(e, w, Replaced(lb, body), d, w1, res)
    ensures res == NoChange <==> PutCanReach(lb, d, early)
    ensures res == NoChange ==> w1 == w
  {
    var lb2 := Replaced(lb, body);
    if Converted(lb2).None? {
      AfterPutSameConfiguration(lb, d, early, body);
    } else {
      var live := Converted(lb2).value;
      var live', body2, m := ComparisonOf(e, w, lb2, d, w1, res);
      NextComparison(lb, d, early, body, live, live', body2, m);
    }
  }
}
