// Automatic TLS certificates: one dynamic certificate bundle per load balancer, shared by
// all of its frontends that need one.
module Certificates {
  import opened Wrappers
  import opened Sorting
  import opened Config
  import opened Naming
  import opened Conversion
  import opened Cloud
  import Builder
  import Shape

  // certificateAutoProvisioningNeeded
  predicate NeedsCertificate(f: Frontend) {
    && f.mode == Builder.MODE_HTTP
    && ((f.port == 443 && |f.tlsConfigs| == 0) || exists t :: t in f.tlsConfigs && t.name == NEEDS_CERTIFICATE)
  }

  // The name under which the bundle of a load balancer is made, found and deleted.
  function BundleNameOf(lb: LoadBalancer): string {
    CertBundleName(LoadBalancerGeneratedName(lb))
  }

  // getCertificateBundleByName, on the listed bundles
  function FindBundle(bundles: seq<Bundle>, name: string): (r: Option<Bundle>)
    ensures r.Some? ==> r.value in bundles && r.value.name == name && r.value.dynamic
    ensures r.None? ==> forall b :: b in bundles ==> !(b.name == name && b.dynamic)
  {
    if bundles == [] then None
    else if bundles[0].name == name && bundles[0].dynamic then Some(bundles[0])
    else FindBundle(bundles[1..], name)
  }

  // getOrCreateCertificateBundle
  function GetOrCreateBundle(e: Env, w: World, name: string, hostname: string): (World, Result<Bundle, ApiError>) {
    var (w1, listed) := ListBundles(e, w);
    match listed
    case Err(x) => (w1, Err(x))
    case Ok(bundles) =>
      var found := FindBundle(bundles, name);
      if found.Some? && hostname in found.value.hostnames then (w1, Ok(found.value))
      else CreateBundle(e, w1, name, [hostname])
  }

  function WithBundle(b: Bundle, f: Frontend): Frontend {
    f.(tlsConfigs := [FrontendTls(b.name, b.uuid)])
  }

  // autoProvisionCertificates: the frontends as it leaves them, or the first error.
  function Provision(e: Env, w: World, name: string, hostname: string, fs: seq<Frontend>)
    : (World, Result<seq<Frontend>, ApiError>)
    decreases |fs|
  {
    if fs == [] then (w, Ok([]))
    else if NeedsCertificate(fs[0]) then
      var (w1, r) := GetOrCreateBundle(e, w, name, hostname);
      match r
      case Err(x) => (w1, Err(x))
      case Ok(b) =>
        var (w2, rest) := Provision(e, w1, name, hostname, fs[1..]);
        (w2, if rest.Ok? then Ok([WithBundle(b, fs[0])] + rest.value) else rest)
    else
      var (w2, rest) := Provision(e, w, name, hostname, fs[1..]);
      (w2, if rest.Ok? then Ok([fs[0]] + rest.value) else rest)
  }

  // ----- the imperative form -----

  method GetCertificateBundleByName(cloud: UpCloud, name: string) returns (r: Result<Option<Bundle>, ApiError>)
    modifies cloud
    ensures cloud.world == ListBundles(cloud.env, old(cloud.world)).0
    ensures match ListBundles(cloud.env, old(cloud.world)).1
            case Err(x) => r == Err(x)
            case Ok(bundles) => r == Ok(FindBundle(bundles, name))
  {
    var listed := cloud.Bundles();
    if listed.Err? {
      return Err(listed.error);
    }
    var bundles := listed.value;
    for i := 0 to |bundles|
      invariant cloud.world == ListBundles(cloud.env, old(cloud.world)).0
      invariant FindBundle(bundles, name) == FindBundle(bundles[i..], name)
    {
      if bundles[i].name == name && bundles[i].dynamic {
        return Ok(Some(bundles[i]));
      }
    }
    return Ok(None);
  }

  method GetOrCreateCertificateBundle(cloud: UpCloud, name: string, hostname: string) returns (r: Result<Bundle, ApiError>)
    modifies cloud
    ensures (cloud.world, r) == GetOrCreateBundle(cloud.env, old(cloud.world), name, hostname)
  {
    var found := GetCertificateBundleByName(cloud, name);
    if found.Err? {
      return Err(found.error);
    }
    if found.value.Some? && hostname in found.value.value.hostnames {
      return Ok(found.value.value);
    }
    r := cloud.AddBundle(name, [hostname]);
  }

  // A run over the remaining frontends, put after those that are done.
  function Continued(done: seq<Frontend>, run: (World, Result<seq<Frontend>, ApiError>))
    : (World, Result<seq<Frontend>, ApiError>)
  {
    (run.0, if run.1.Ok? then Ok(done + run.1.value) else run.1)
  }

  lemma {:induction false} ContinuedStep(e: Env, w: World, name: string, hostname: string, done: seq<Frontend>, fs: seq<Frontend>)
    requires fs != []
    ensures Continued(done, Provision(e, w, name, hostname, fs)) ==
            if NeedsCertificate(fs[0]) then
              var (w1, r) := GetOrCreateBundle(e, w, name, hostname);
              match r
              case Err(x) => (w1, Err(x))
              case Ok(b) => Continued(done + [WithBundle(b, fs[0])], Provision(e, w1, name, hostname, fs[1..]))
            else Continued(done + [fs[0]], Provision(e, w, name, hostname, fs[1..]))
  {
    forall f: Frontend, rest: seq<Frontend> ensures done + ([f] + rest) == (done + [f]) + rest {
    }
  }

  // autoProvisionCertificates overwrites the TLS configs of the frontends in place.
  method AutoProvisionCertificates(cloud: UpCloud, lb: LoadBalancer, frontends: array<Frontend>) returns (err: Option<ApiError>)
    modifies cloud, frontends
    ensures var name := CertBundleName(LoadBalancerGeneratedName(lb));
            var (w, r) := Provision(cloud.env, old(cloud.world), name, lb.dnsName, old(frontends[..]));
            && cloud.world == w
            && match r
               case Ok(fs) => err == None && frontends[..] == fs
               case Err(x) => err == Some(x)
  {
    var name := CertBundleName(LoadBalancerGeneratedName(lb));
    ghost var fs := frontends[..];
    ghost var goal := Provision(cloud.env, cloud.world, name, lb.dnsName, fs);
    assert fs[0..] == fs && frontends[..0] == [];
    assert goal.1.Ok? ==> [] + goal.1.value == goal.1.value;
    for i := 0 to frontends.Length
      invariant frontends[i..] == fs[i..]
      invariant goal == Continued(frontends[..i], Provision(cloud.env, cloud.world, name, lb.dnsName, fs[i..]))
    {
      ghost var done := frontends[..i];
      assert fs[i..][0] == frontends[i] && fs[i..][1..] == fs[i + 1..] == frontends[i + 1..];
      ContinuedStep(cloud.env, cloud.world, name, lb.dnsName, done, fs[i..]);
      if NeedsCertificate(frontends[i]) {
        var bundle := GetOrCreateCertificateBundle(cloud, name, lb.dnsName);
        if bundle.Err? {
          return Some(bundle.error);
        }
        frontends[i] := frontends[i].(tlsConfigs := [FrontendTls(bundle.value.name, bundle.value.uuid)]);
      }
      assert frontends[..i + 1] == done + [frontends[i]];
    }
    assert frontends[..frontends.Length] + [] == frontends[..];
    err := None;
  }

  // ----- at most one bundle, shared by all -----

  // What a run of provisioning may have done to the bundles.
  ghost predicate AddsAtMostOne(w: World, w': World, name: string, hostname: string) {
    && w'.lbs == w.lbs
    && (|| (w'.bundles == w.bundles && w'.issued == w.issued)
        || (w'.bundles == w.bundles + [Bundle(w.issued, name, true, [hostname])] && w'.issued == w.issued + 1))
  }

  // At most one bundle has been added, and under this name.
  ghost predicate BundleAdded(before: seq<Bundle>, after: seq<Bundle>, name: string) {
    after == before || exists b: Bundle :: b.name == name && b.dynamic && after == before + [b]
  }

  ghost predicate UniqueNames(bundles: seq<Bundle>) {
    forall i, j :: 0 <= i < j < |bundles| ==> bundles[i].name != bundles[j].name
  }

  // As long as names are unique, one after the other still adds at most one.
  lemma BundleAddedOnce(a: seq<Bundle>, b: seq<Bundle>, c: seq<Bundle>, name: string)
    requires BundleAdded(a, b, name) && BundleAdded(b, c, name) && UniqueNames(c)
    ensures BundleAdded(a, c, name)
  {
    assert |c| > |a| + 1 ==> c[|a|].name != c[|a| + 1].name;
  }

  // The bundle that serves a load balancer is there and covers its host name.
  predicate Served(w: World, name: string, hostname: string) {
    FindBundle(w.bundles, name).Some? && hostname in FindBundle(w.bundles, name).value.hostnames
  }

  lemma {:induction false} GetOrCreateServes(e: Env, w: World, name: string, hostname: string)
    ensures var (w1, r) := GetOrCreateBundle(e, w, name, hostname);
            && AddsAtMostOne(w, w1, name, hostname)
            && (Served(w, name, hostname) ==> w1.bundles == w.bundles && w1.issued == w.issued)
            && w1.calls > w.calls && (Served(w, name, hostname) && e.faults(w.calls).Fine? ==> r.Ok?)
            && (r.Ok? ==> Served(w1, name, hostname) && FindBundle(w1.bundles, name) == Some(r.value))
  {
  }

  function Certified(b: Bundle, f: Frontend): Frontend {
    if NeedsCertificate(f) then WithBundle(b, f) else f
  }

  function CertifiedBy(b: Bundle): Frontend -> Frontend {
    (f: Frontend) => Certified(b, f)
  }

  // While the bundle is there, provisioning creates nothing and hands out that bundle.
  lemma {:induction false} ProvisionWhenServed(e: Env, w: World, name: string, hostname: string, fs: seq<Frontend>)
    requires Served(w, name, hostname)
    ensures var (w', r) := Provision(e, w, name, hostname, fs);
            && w'.lbs == w.lbs && w'.bundles == w.bundles && w'.issued == w.issued
            && (r.Ok? ==> r.value == Map(CertifiedBy(FindBundle(w.bundles, name).value), fs))
            && ((forall n :: n >= w.calls ==> e.faults(n).Fine?) ==> r.Ok?)
    decreases |fs|
  {
    if fs != [] {
      GetOrCreateServes(e, w, name, hostname);
      var w1 := if NeedsCertificate(fs[0]) then GetOrCreateBundle(e, w, name, hostname).0 else w;
      ProvisionWhenServed(e, w1, name, hostname, fs[1..]);
    }
  }

  // However many frontends need a certificate, one run creates at most one bundle; if it succeeds, all
  // of them share the bundle of that name and the others are untouched.
  lemma {:induction false} ProvisionSharesOneBundle(e: Env, w: World, name: string, hostname: string, fs: seq<Frontend>)
    ensures var (w', r) := Provision(e, w, name, hostname, fs);
            && AddsAtMostOne(w, w', name, hostname)
            && (r.Ok? && (exists f :: f in fs && NeedsCertificate(f)) ==>
                  Served(w', name, hostname) && r.value == Map(CertifiedBy(FindBundle(w'.bundles, name).value), fs))
            && (r.Ok? && (forall f :: f in fs ==> !NeedsCertificate(f)) ==> r.value == fs && w' == w)
  {
    if fs != [] {
      if NeedsCertificate(fs[0]) {
        GetOrCreateServes(e, w, name, hostname);
        var (w1, b) := GetOrCreateBundle(e, w, name, hostname);
        if b.Ok? {
          ProvisionWhenServed(e, w1, name, hostname, fs[1..]);
        }
      } else {
        ProvisionSharesOneBundle(e, w, name, hostname, fs[1..]);
      }
    }
  }

  // It takes HTTP, on port 443 without a TLS config, or with one that has the token for a name.
  ghost predicate AsksForCertificate(f: Frontend) {
    && f.mode == "http"
    && ((f.port == 443 && f.tlsConfigs == []) || exists t :: t in f.tlsConfigs && t.name == "needs-certificate")
  }

  // What a successful run makes of a frontend: one that asks for a certificate ends with the bundle of that name,
  // which covers the host name; others stay as they are.
  lemma {:induction false} ProvisionedReads(e: Env, w: World, name: string, hostname: string, fs: seq<Frontend>, i: nat)
    requires Provision(e, w, name, hostname, fs).1.Ok? && i < |fs|
    ensures var (w', r) := Provision(e, w, name, hostname, fs);
            && |r.value| == |fs|
            && if AsksForCertificate(fs[i])
               then exists b: Bundle :: && b in w'.bundles && b.name == name && b.dynamic && hostname in b.hostnames
                                        && r.value[i] == fs[i].(tlsConfigs := [FrontendTls(name, b.uuid)])
               else r.value[i] == fs[i]
  {
    ProvisionSharesOneBundle(e, w, name, hostname, fs);
    assert fs[i] in fs;
    if NeedsCertificate(fs[i]) {
      var b := FindBundle(Provision(e, w, name, hostname, fs).0.bundles, name).value;
      assert Provision(e, w, name, hostname, fs).1.value[i] == WithBundle(b, fs[i]);
    }
  }

  // When it can succeed at all: unless a call fails, exactly if no frontend needs a certificate, or the bundle
  // covers the host name, or no bundle has the name. So of two load balancers that share a bundle name only
  // one gets its certificate, as long as the bundle is there.
  lemma {:induction false} ProvisionSucceeds(e: Env, w: World, name: string, hostname: string, fs: seq<Frontend>)
    requires forall n :: n >= w.calls ==> e.faults(n).Fine?
    ensures Provision(e, w, name, hostname, fs).1.Ok? <==>
            || (forall f :: f in fs ==> !NeedsCertificate(f))
            || Served(w, name, hostname)
            || (forall b :: b in w.bundles ==> b.name != name)
  {
    if fs != [] {
      if NeedsCertificate(fs[0]) {
        GetOrCreateServes(e, w, name, hostname);
        var (w1, b) := GetOrCreateBundle(e, w, name, hostname);
        if b.Ok? {
          ProvisionWhenServed(e, w1, name, hostname, fs[1..]);
        }
      } else {
        ProvisionSucceeds(e, w, name, hostname, fs[1..]);
      }
    }
  }

  // After a successful run under the name of a load balancer no frontend needs a certificate any more,
  // and running again, on the outcome or on the original frontends, creates nothing.
  lemma {:induction false} ProvisionSettles(e: Env, w: World, generatedName: string, hostname: string, fs: seq<Frontend>, e': Env, w2: World)
    requires Provision(e, w, CertBundleName(generatedName), hostname, fs).1.Ok?
    requires w2.bundles == Provision(e, w, CertBundleName(generatedName), hostname, fs).0.bundles
    ensures var name := CertBundleName(generatedName);
            var certified := Provision(e, w, name, hostname, fs).1.value;
            && (forall f :: f in certified ==> !NeedsCertificate(f))
            && Provision(e', w2, name, hostname, certified) == (w2, Ok(certified))
            && var (w3, again) := Provision(e', w2, name, hostname, fs);
               && w3.bundles == w2.bundles && w3.lbs == w2.lbs
               && (again.Ok? ==> again.value == certified)
               && ((forall n :: n >= w2.calls ==> e'.faults(n).Fine?) ==> again.Ok?)
  {
    var name := CertBundleName(generatedName);
    var (w1, r) := Provision(e, w, name, hostname, fs);
    CertBundleNameBounds(generatedName, "");
    ProvisionSharesOneBundle(e, w, name, hostname, fs);
    forall f | f in r.value ensures !NeedsCertificate(f) {
      if exists g :: g in fs && NeedsCertificate(g) {
        var i :| 0 <= i < |fs| && f == CertifiedBy(FindBundle(w1.bundles, name).value)(fs[i]);
      }
    }
    NoneNeeded(e', w2, name, hostname, r.value);
    if exists f :: f in fs && NeedsCertificate(f) {
      assert Served(w2, name, hostname);
      ProvisionWhenServed(e', w2, name, hostname, fs);
    } else {
      NoneNeeded(e', w2, name, hostname, fs);
    }
  }

  lemma {:induction false} NoneNeeded(e: Env, w: World, name: string, hostname: string, fs: seq<Frontend>)
    requires forall f :: f in fs ==> !NeedsCertificate(f)
    ensures Provision(e, w, name, hostname, fs) == (w, Ok(fs))
  {
    if fs != [] {
      NoneNeeded(e, w, name, hostname, fs[1..]);
      assert fs == [fs[0]] + fs[1..];
    }
  }

  // ----- the same on shapes -----

  predicate ShapeNeedsCertificate(x: Shape.FrontendShape) {
    && x.mode == Builder.MODE_HTTP
    && ((x.port == 443 && |x.tlsConfigs| == 0) || exists t :: t in x.tlsConfigs && t.name == NEEDS_CERTIFICATE)
  }

  function CertifiedShape(b: Bundle): Shape.FrontendShape -> Shape.FrontendShape {
    (x: Shape.FrontendShape) =>
      if ShapeNeedsCertificate(x) then x.(tlsConfigs := multiset{FrontendTls(b.name, b.uuid)}) else x
  }

  lemma NeedsByShape(f: Frontend)
    ensures NeedsCertificate(f) <==> ShapeNeedsCertificate(Shape.OfFrontend(f))
  {
  }

  lemma {:induction false} CertifiedByShape(b: Bundle, fs: seq<Frontend>)
    ensures Map(Shape.OfFrontend, Map(CertifiedBy(b), fs)) == Map(CertifiedShape(b), Map(Shape.OfFrontend, fs))
  {
  }

  lemma CertifiedShapeClear(b: Bundle, x: Shape.FrontendShape)
    requires Shape.UnambiguousFrontend(x)
    ensures Shape.UnambiguousFrontend(CertifiedShape(b)(x))
  {
  }

  // Where a certified shape comes from.
  ghost function CertifiedFrom(b: Bundle, before: seq<Shape.FrontendShape>, x: Shape.FrontendShape): (p: Shape.FrontendShape)
    requires x in multiset(Map(CertifiedShape(b), before))
    ensures p in multiset(before) && CertifiedShape(b)(p) == x
  {
    var i :| 0 <= i < |before| && Map(CertifiedShape(b), before)[i] == x;
    assert before[i] in multiset(before);
    before[i]
  }

  lemma {:induction false} CertifiedShapesUnambiguous(b: Bundle, before: seq<Shape.FrontendShape>)
    requires KeyDetermines(Shape.FrontendShapeName, multiset(before))
    requires forall x :: x in multiset(before) ==> Shape.UnambiguousFrontend(x)
    ensures KeyDetermines(Shape.FrontendShapeName, multiset(Map(CertifiedShape(b), before)))
    ensures forall x :: x in multiset(Map(CertifiedShape(b), before)) ==> Shape.UnambiguousFrontend(x)
  {
    var after := Map(CertifiedShape(b), before);
    forall x, y | x in multiset(after) && y in multiset(after) && Shape.FrontendShapeName(x) == Shape.FrontendShapeName(y)
      ensures x == y
    {
      var p, q := CertifiedFrom(b, before, x), CertifiedFrom(b, before, y);
      assert Shape.FrontendShapeName(p) == Shape.FrontendShapeName(q);
    }
    forall x | x in multiset(after) ensures Shape.UnambiguousFrontend(x) {
      CertifiedShapeClear(b, CertifiedFrom(b, before, x));
    }
  }

  // Certificates make nothing ambiguous.
  lemma CertifiedUnambiguous(b: Bundle, d: Request)
    requires Shape.Unambiguous(d)
    ensures Shape.Unambiguous(d.(frontends := Map(CertifiedBy(b), d.frontends)))
  {
    CertifiedShapesUnambiguous(b, Map(Shape.OfFrontend, d.frontends));
    CertifiedByShape(b, d.frontends);
  }

  lemma {:induction false} ProvisionedUnambiguous(e: Env, w: World, name: string, hostname: string, d: Request)
    requires Shape.Unambiguous(d) && Provision(e, w, name, hostname, d.frontends).1.Ok?
    ensures Shape.Unambiguous(d.(frontends := Provision(e, w, name, hostname, d.frontends).1.value))
  {
    ProvisionSharesOneBundle(e, w, name, hostname, d.frontends);
    if exists f :: f in d.frontends && NeedsCertificate(f) {
      CertifiedUnambiguous(FindBundle(Provision(e, w, name, hostname, d.frontends).0.bundles, name).value, d);
    } else {
      assert d.(frontends := d.frontends) == d;
    }
  }
}
