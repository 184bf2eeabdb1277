// Names that the reconciler generates: load balancers, certificate bundles and ports.
// A string is a sequence of bytes, as len and slicing see it in the source.
module Naming {
  import opened Sorting
  import opened Config

  const NAME_MAX_LENGTH: nat := 64
  const ID_MAX_LENGTH: nat := 36
  const BUNDLE_NAME_MAX_LENGTH: nat := 64
  const BUNDLE_NAME_SUFFIX := "-tls"
  const NEEDS_CERTIFICATE := "needs-certificate"

  const CLUSTER_ID_LABEL := "ccm_cluster_id"
  const CLUSTER_NAME_LABEL := "ccm_cluster_name"
  const GENERATED_NAME_LABEL := "ccm_generated_name"
  const TRAFFIC_POLICY_LABEL := "ccm_external_traffic_policy"

  // shortenString. A negative length would panic in the source; its type rules it out here.
  function ShortenString(s: string, length: nat): (r: string)
    ensures r <= s && |r| <= length
    ensures |s| <= length ==> r == s
    ensures |s| > length ==> |r| == length
  {
    if |s| > length then s[..length] else s
  }

  // loadBalancerName
  function LoadBalancerName(namespace: string, name: string, prefix: string): string {
    if prefix != "" then
      var p :=
        if |prefix| < ID_MAX_LENGTH then
          prefix + "-" + ShortenString(namespace, (NAME_MAX_LENGTH - |prefix| - 2) / 2) + "-"
        else
          ShortenString(prefix, ID_MAX_LENGTH) + "-" + ShortenString(namespace, 13) + "-";
      p + ShortenString(name, NAME_MAX_LENGTH - |p|)
    else
      var ns := ShortenString(namespace, 31);
      ns + "-" + ShortenString(name, NAME_MAX_LENGTH - |ns| - 1)
  }

  // The parts of a name joined with dashes, nothing cut.
  function JoinedName(namespace: string, name: string, prefix: string): string {
    (if prefix == "" then "" else prefix + "-") + namespace + "-" + name
  }

  // How much of the namespace a prefix leaves room for.
  function NamespaceBudget(prefix: string): nat {
    if prefix == "" then 31 else if |prefix| < 36 then (62 - |prefix|) / 2 else 13
  }

  // A name is never empty and never longer than 64. Nothing is cut exactly when the prefix is at
  // most 36 long, the namespace is within its budget and the whole is at most 64 long.
  lemma LoadBalancerNameBounds(namespace: string, name: string, prefix: string)
    ensures 0 < |LoadBalancerName(namespace, name, prefix)| <= 64
    ensures LoadBalancerName(namespace, name, prefix) == JoinedName(namespace, name, prefix) <==>
            |prefix| <= 36 && |namespace| <= NamespaceBudget(prefix) && |JoinedName(namespace, name, prefix)| <= 64
  {
  }

  // What a name keeps of the namespace and of the name of a service.
  function CutNamespace(prefix: string, namespace: string): string {
    ShortenString(namespace, NamespaceBudget(prefix))
  }

  function NameBudget(prefix: string, namespace: string): nat {
    63 - |CutNamespace(prefix, namespace)| - |NamePrefix(prefix)|
  }

  function NamePrefix(prefix: string): (p: string)
    ensures |p| <= 37
  {
    if prefix == "" then "" else ShortenString(prefix, 36) + "-"
  }

  function CutName(prefix: string, namespace: string, name: string): string {
    ShortenString(name, NameBudget(prefix, namespace))
  }

  function Dashed(s: string, t: string): string {
    s + "-" + t
  }

  lemma Rejoined(a: string, b: string, c: string)
    ensures (a + "-" + b + "-") + c == (a + "-") + Dashed(b, c)
  {
  }

  lemma PrefixedNameParts(namespace: string, name: string, prefix: string)
    requires prefix != ""
    ensures LoadBalancerName(namespace, name, prefix) ==
            ShortenString(prefix, 36) + "-" + CutNamespace(prefix, namespace) + "-" + CutName(prefix, namespace, name)
  {
    var p := ShortenString(prefix, 36) + "-" + CutNamespace(prefix, namespace) + "-";
    assert |p| == |NamePrefix(prefix)| + |CutNamespace(prefix, namespace)| + 1;
    assert LoadBalancerName(namespace, name, prefix) == p + ShortenString(name, 64 - |p|);
  }

  lemma NameParts(namespace: string, name: string, prefix: string)
    ensures LoadBalancerName(namespace, name, prefix) ==
            NamePrefix(prefix) + Dashed(CutNamespace(prefix, namespace), CutName(prefix, namespace, name))
  {
    var ns := CutNamespace(prefix, namespace);
    if prefix == "" {
      assert LoadBalancerName(namespace, name, prefix) == Dashed(ns, CutName(prefix, namespace, name));
    } else {
      PrefixedNameParts(namespace, name, prefix);
      Rejoined(ShortenString(prefix, 36), ns, CutName(prefix, namespace, name));
    }
  }

  // Two pairs that read the same once they are joined by a dash: the same pair, or the longer first
  // part continues the shorter one with a dash that belongs to it.
  predicate ReadsAs(s: string, t: string, s': string, t': string) {
    if |s| == |s'| then s == s' && t == t'
    else if |s| < |s'| then s <= s' && s'[|s|] == '-' && t == s'[|s| + 1..] + "-" + t'
    else s' <= s && s[|s'|] == '-' && t' == s[|s'| + 1..] + "-" + t
  }

  lemma LongerReadsAs(s: string, t: string, s': string, t': string)
    requires |s| < |s'|
    ensures Dashed(s, t) == Dashed(s', t') <==> s <= s' && s'[|s|] == '-' && t == s'[|s| + 1..] + "-" + t'
  {
    var x, y := Dashed(s, t), Dashed(s', t');
    if x == y {
      assert s == x[..|s|] == y[..|s|] == s'[..|s|];
      assert s'[|s|] == y[|s|] == x[|s|] == '-';
      assert t == x[|s| + 1..] == y[|s| + 1..] == s'[|s| + 1..] + "-" + t';
    }
    if s <= s' && s'[|s|] == '-' && t == s'[|s| + 1..] + "-" + t' {
      assert s' == s + "-" + s'[|s| + 1..];
      assert x == s + "-" + (s'[|s| + 1..] + "-" + t');
    }
  }

  lemma SameLengthReadsAs(s: string, t: string, s': string, t': string)
    requires |s| == |s'|
    ensures Dashed(s, t) == Dashed(s', t') <==> s == s' && t == t'
  {
    var x, y := Dashed(s, t), Dashed(s', t');
    if x == y {
      assert s == x[..|s|] == y[..|s|] == s';
      assert t == x[|s| + 1..] == y[|s| + 1..] == t';
    }
  }

  lemma DashedReadsAs(s: string, t: string, s': string, t': string)
    ensures Dashed(s, t) == Dashed(s', t') <==> ReadsAs(s, t, s', t')
  {
    if |s| == |s'| {
      SameLengthReadsAs(s, t, s', t');
    } else if |s| < |s'| {
      LongerReadsAs(s, t, s', t');
    } else {
      LongerReadsAs(s', t', s, t);
    }
  }

  // Two services of one cluster get the same name exactly when what is kept of their namespaces and
  // names reads the same: generated names do not identify services.
  lemma LoadBalancerNamesCollide(prefix: string, namespace: string, name: string, namespace': string, name': string)
    ensures LoadBalancerName(namespace, name, prefix) == LoadBalancerName(namespace', name', prefix) <==>
            ReadsAs(CutNamespace(prefix, namespace), CutName(prefix, namespace, name),
                    CutNamespace(prefix, namespace'), CutName(prefix, namespace', name'))
  {
    var s, t := CutNamespace(prefix, namespace), CutName(prefix, namespace, name);
    var s', t' := CutNamespace(prefix, namespace'), CutName(prefix, namespace', name');
    assert LoadBalancerName(namespace, name, prefix) == NamePrefix(prefix) + Dashed(s, t) by {
      NameParts(namespace, name, prefix);
    }
    assert LoadBalancerName(namespace', name', prefix) == NamePrefix(prefix) + Dashed(s', t') by {
      NameParts(namespace', name', prefix);
    }
    SameTail(NamePrefix(prefix), Dashed(s, t), Dashed(s', t'));
    DashedReadsAs(s, t, s', t');
  }

  lemma SameTail(head: string, x: string, y: string)
    ensures head + x == head + y <==> x == y
  {
    assert (head + x)[|head|..] == x && (head + y)[|head|..] == y;
  }

  // For instance, although nothing is cut.
  lemma UncutNamesCollide(prefix: string)
    ensures LoadBalancerName("team-a", "web", prefix) == LoadBalancerName("team", "a-web", prefix)
  {
    LoadBalancerNamesCollide(prefix, "team", "a-web", "team-a", "web");
  }

  // loadBalancerCertBundleName
  function CertBundleName(loadBalancerName: string): string {
    if loadBalancerName == "" then "certificate-bundle" + BUNDLE_NAME_SUFFIX
    else if |loadBalancerName| + |BUNDLE_NAME_SUFFIX| > BUNDLE_NAME_MAX_LENGTH then
      ShortenString(loadBalancerName, BUNDLE_NAME_MAX_LENGTH - |BUNDLE_NAME_SUFFIX|) + BUNDLE_NAME_SUFFIX
    else
      loadBalancerName + BUNDLE_NAME_SUFFIX
  }

  // A bundle name fits, ends in the suffix and is never taken for the request for a certificate.
  // What comes before the suffix is the start of the name. Two load balancers share one exactly when their
  // names agree on the first 60 bytes.
  lemma CertBundleNameBounds(name: string, other: string)
    ensures |CertBundleName(name)| <= 64
    ensures |CertBundleName(name)| >= 4 && CertBundleName(name)[|CertBundleName(name)| - 4..] == "-tls"
    ensures CertBundleName(name) != NEEDS_CERTIFICATE
    ensures name == "" ==> CertBundleName(name) == "certificate-bundle-tls"
    ensures name != "" ==> CertBundleName(name)[..|CertBundleName(name)| - 4] == name[..if |name| < 60 then |name| else 60]
    ensures name != "" && other != "" ==>
              (CertBundleName(name) == CertBundleName(other) <==> ShortenString(name, 60) == ShortenString(other, 60))
  {
  }

  // ----- port names -----

  function Digit(n: nat): char
    requires n < 10
  {
    '0' + n as char
  }

  function DecimalNat(n: nat): (s: string)
    ensures |s| > 0 && '0' <= s[0] <= '9'
  {
    if n < 10 then [Digit(n)] else DecimalNat(n / 10) + [Digit(n % 10)]
  }

  // %d
  function Decimal(n: int): string {
    if n < 0 then "-" + DecimalNat(-n) else DecimalNat(n)
  }

  lemma {:induction false} DecimalNatInjective(m: nat, n: nat)
    requires DecimalNat(m) == DecimalNat(n)
    ensures m == n
  {
    var s := DecimalNat(m);
    assert m >= 10 ==> |s| == |DecimalNat(m / 10)| + 1;
    assert n >= 10 ==> |s| == |DecimalNat(n / 10)| + 1;
    assert s[|s| - 1] == Digit(m % 10) == Digit(n % 10);
    if m >= 10 && n >= 10 {
      assert DecimalNat(m / 10) == s[..|s| - 1] == DecimalNat(n / 10);
      DecimalNatInjective(m / 10, n / 10);
    }
  }

  lemma DecimalInjective(m: int, n: int)
    requires Decimal(m) == Decimal(n)
    ensures m == n
  {
    assert m < 0 <==> Decimal(m)[0] == '-';
    assert n < 0 <==> Decimal(n)[0] == '-';
    if m < 0 {
      assert DecimalNat(-m) == Decimal(m)[1..] == Decimal(n)[1..] == DecimalNat(-n);
      DecimalNatInjective(-m, -n);
    } else {
      DecimalNatInjective(m, n);
    }
  }

  predicate AllDigits(s: string) {
    forall i :: 0 <= i < |s| ==> '0' <= s[i] <= '9'
  }

  // What a string of digits stands for.
  function DigitsValue(s: string): nat
    requires AllDigits(s)
  {
    if s == [] then 0 else 10 * DigitsValue(s[..|s| - 1]) + (s[|s| - 1] as int - '0' as int)
  }

  // The usual numeral of a number: digits without a leading zero.
  ghost predicate NumeralOf(s: string, n: nat) {
    s != [] && AllDigits(s) && (|s| > 1 ==> s[0] != '0') && DigitsValue(s) == n
  }

  lemma LeadingZero(s: string, n: nat)
    requires NumeralOf(s, n)
    ensures s[0] == '0' ==> n == 0
  {
    if |s| == 1 {
      assert s[..0] == [];
      assert DigitsValue(s) == 10 * DigitsValue(s[..0]) + (s[0] as int - '0' as int);
    }
  }

  lemma {:induction false} DecimalNatValue(n: nat)
    ensures NumeralOf(DecimalNat(n), n)
  {
    if n < 10 {
      assert DecimalNat(n)[..0] == [];
    } else {
      var s := DecimalNat(n / 10);
      DecimalNatValue(n / 10);
      LeadingZero(s, n / 10);
      assert DecimalNat(n)[..|s|] == s;
    }
  }

  lemma DecimalValue(n: int)
    ensures n >= 0 ==> NumeralOf(Decimal(n), n)
    ensures n < 0 ==> Decimal(n)[0] == '-' && NumeralOf(Decimal(n)[1..], -n)
  {
    DecimalNatValue(if n < 0 then -n else n);
  }

  // A port of a service; an empty name means that none was given.
  datatype Port = Port(name: string, port: int, nodePort: int)

  function DefaultPortName(port: int): string {
    "config_" + Decimal(port)
  }

  // servicePortName
  function PortName(p: Port): string {
    if p.name == "" then DefaultPortName(p.port) else p.name
  }

  // The name that was given, or config_ and the number.
  lemma PortNameReads(p: Port)
    ensures p.name != "" ==> PortName(p) == p.name
    ensures p.name == "" && p.port >= 0 ==> PortName(p)[..7] == "config_" && NumeralOf(PortName(p)[7..], p.port)
  {
    DecimalValue(p.port);
    assert ("config_" + Decimal(p.port))[7..] == Decimal(p.port);
  }

  // When the names of two ports are told apart.
  predicate PortsDiffer(p: Port, q: Port) {
    if p.name == "" && q.name == "" then p.port != q.port
    else if p.name == "" then q.name != DefaultPortName(p.port)
    else if q.name == "" then p.name != DefaultPortName(q.port)
    else p.name != q.name
  }

  lemma PortNamesDistinct(ports: seq<Port>)
    ensures DistinctKeys(PortName, ports) <==>
            forall i, j :: 0 <= i < j < |ports| ==> PortsDiffer(ports[i], ports[j])
  {
    forall i, j | 0 <= i < j < |ports|
      ensures PortName(ports[i]) != PortName(ports[j]) <==> PortsDiffer(ports[i], ports[j])
    {
      var p, q := ports[i], ports[j];
      if p.name == "" && q.name == "" && PortName(p) == PortName(q) {
        assert Decimal(p.port) == PortName(p)[7..] == PortName(q)[7..] == Decimal(q.port);
        DecimalInjective(p.port, q.port);
      }
    }
  }

  // ----- labels -----

  // generatedNameLabelValue
  function GeneratedNameLabelValue(labels: seq<Label>): string {
    if labels == [] then ""
    else if labels[0].key == GENERATED_NAME_LABEL then labels[0].value
    else GeneratedNameLabelValue(labels[1..])
  }

  // The keys that users must not set.
  predicate Reserved(key: string) {
    key == CLUSTER_ID_LABEL || key == CLUSTER_NAME_LABEL || key == GENERATED_NAME_LABEL || key == TRAFFIC_POLICY_LABEL
  }

  // validateUserDefinedLabels. The README says that reserved labels are ignored; the code rejects them.
  method ValidateUserDefinedLabels(labels: seq<Label>) returns (ok: bool)
    ensures ok <==> forall l :: l in labels ==> !Reserved(l.key)
  {
    for i := 0 to |labels|
      invariant forall l :: l in labels[..i] ==> !Reserved(l.key)
    {
      if Reserved(labels[i].key) {
        return false;
      }
      assert labels[..i + 1] == labels[..i] + [labels[i]];
    }
    assert labels[..|labels|] == labels;
    return true;
  }
}
