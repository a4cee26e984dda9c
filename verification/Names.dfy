/**
  Container names, the strings derived from them and the tests lxdk makes on
  them. A container is named lxdk-CLUSTER-IMAGE-ID; cluster names may hold
  hyphens of their own, image names and ids may not.
 */
module Names {
  import opened Text
  import opened Wrappers

  /** The four images a cluster is made of. */
  datatype Image = Etcd | Controller | Worker | Registry {
    function Text(): string {
      match this
      case Etcd => "etcd"
      case Controller => "controller"
      case Worker => "worker"
      case Registry => "registry"
    }
  }

  function ImageOf(text: string): Option<Image> {
    if text == "etcd" then Some(Etcd)
    else if text == "controller" then Some(Controller)
    else if text == "worker" then Some(Worker)
    else if text == "registry" then Some(Registry)
    else None
  }

  /** The characters createID draws from. */
  predicate IdChar(c: char) {
    'a' <= c <= 'z' || '0' <= c <= '9'
  }

  predicate IsId(id: string) {
    |id| == 5 && forall i | 0 <= i < 5 :: IdChar(id[i])
  }

  /** A cluster name is a single path component. */
  predicate ClusterName(c: string) {
    c != "" && c != "." && c != ".." && '/' !in c && '\n' !in c
  }

  /** A name an instance can have. */
  predicate GoodName(n: string) {
    n != "" && '/' !in n && '\n' !in n
  }

  lemma LowerPlain(n: string)
    requires GoodName(n)
    ensures GoodName(ToLower(n))
  {
  }

  /** The name CreateContainer prints. */
  function ContainerName(cluster: string, image: Image, id: string): string {
    "lxdk-" + cluster + "-" + image.Text() + "-" + id
  }

  /** `n` is a name CreateContainer can print for this cluster and image. */
  ghost predicate NamedFor(n: string, cluster: string, image: Image) {
    exists id :: IsId(id) && n == ContainerName(cluster, image, id)
  }

  /** `n` is a name CreateContainer can print for this cluster. */
  ghost predicate OwnedBy(n: string, cluster: string) {
    exists image :: NamedFor(n, cluster, image)
  }

  // ---- reading a name back, from right to left ----

  /** The last position of `c` in `s`, or -1. */
  function LastIndex(s: string, c: char): (r: int)
    ensures -1 <= r < |s|
    ensures r != -1 ==> s[r] == c
    ensures forall k | r < k < |s| :: s[k] != c
  {
    if s == "" then -1
    else if s[|s| - 1] == c then |s| - 1
    else LastIndex(s[..|s| - 1], c)
  }

  /** The text before and after the last hyphen. */
  function CutLast(s: string): Option<(string, string)> {
    var i := LastIndex(s, '-');
    if i == -1 then None else Some((s[..i], s[i + 1..]))
  }

  datatype Parsed = Parsed(cluster: string, image: Image, id: string)

  function ParseName(n: string): Option<Parsed> {
    if !HasPrefix(n, "lxdk-") then None
    else
      match CutLast(n[5..])
      case None => None
      case Some((front, id)) =>
        if !IsId(id) then None
        else
          match CutLast(front)
          case None => None
          case Some((cluster, text)) =>
            match ImageOf(text)
            case None => None
            case Some(image) => Some(Parsed(cluster, image, id))
  }

  lemma LastIndexIs(s: string, c: char, k: nat)
    requires k < |s| && s[k] == c && forall j | k < j < |s| :: s[j] != c
    ensures LastIndex(s, c) == k
  {
  }

  lemma CutLastOf(a: string, b: string)
    requires '-' !in b
    ensures CutLast(a + "-" + b) == Some((a, b))
  {
    var s := a + "-" + b;
    LastIndexIs(s, '-', |a|);
    assert s[..|a|] == a && s[|a| + 1..] == b;
  }

  lemma CutLastBack(s: string)
    ensures CutLast(s).Some? ==> var (a, b) := CutLast(s).value; s == a + "-" + b
  {
  }

  lemma IdHasNoHyphen(id: string)
    requires IsId(id)
    ensures '-' !in id && '/' !in id && '\n' !in id
  {
  }

  lemma ImageRoundTrip(image: Image)
    ensures ImageOf(image.Text()) == Some(image)
    ensures '-' !in image.Text() && '/' !in image.Text() && '\n' !in image.Text()
  {
  }

  /** Reading a printed name gives back what was printed, whatever hyphens the cluster name holds. */
  lemma ParseUndoesName(cluster: string, image: Image, id: string)
    requires IsId(id)
    ensures ParseName(ContainerName(cluster, image, id)) == Some(Parsed(cluster, image, id))
  {
    var n, front := ContainerName(cluster, image, id), cluster + "-" + image.Text();
    assert n[..5] == "lxdk-" && n[5..] == front + "-" + id;
    IdHasNoHyphen(id);
    CutLastOf(front, id);
    ImageRoundTrip(image);
    CutLastOf(cluster, image.Text());
  }

  /** A name that reads as a triple is the name printed from that triple. */
  lemma NameUndoesParse(n: string)
    requires ParseName(n).Some?
    ensures IsId(ParseName(n).value.id)
    ensures var p := ParseName(n).value; n == ContainerName(p.cluster, p.image, p.id)
  {
    var rest := n[5..];
    var (front, id) := CutLast(rest).value;
    CutLastBack(rest);
    CutLastBack(front);
    var (cluster, text) := CutLast(front).value;
    ImageOfBack(text);
    assert n == "lxdk-" + rest;
    assert "lxdk-" + (cluster + "-" + text + "-" + id) == "lxdk-" + cluster + "-" + text + "-" + id;
  }

  lemma ImageOfBack(text: string)
    ensures ImageOf(text).Some? ==> ImageOf(text).value.Text() == text
  {
  }

  /** Exactly the printed names are readable. */
  lemma ReadableNames(n: string, cluster: string)
    ensures OwnedBy(n, cluster) <==> ParseName(n).Some? && ParseName(n).value.cluster == cluster
  {
    if OwnedBy(n, cluster) {
      var image :| NamedFor(n, cluster, image);
      var id :| IsId(id) && n == ContainerName(cluster, image, id);
      ParseUndoesName(cluster, image, id);
    }
    if ParseName(n).Some? && ParseName(n).value.cluster == cluster {
      NameUndoesParse(n);
      var p := ParseName(n).value;
      assert NamedFor(n, cluster, p.image);
    }
  }

  /** Printing container names is injective in cluster, image and id. */
  lemma NamesInjective(c0: string, i0: Image, d0: string, c1: string, i1: Image, d1: string)
    requires IsId(d0) && IsId(d1)
    requires ContainerName(c0, i0, d0) == ContainerName(c1, i1, d1)
    ensures c0 == c1 && i0 == i1 && d0 == d1
  {
    ParseUndoesName(c0, i0, d0);
    ParseUndoesName(c1, i1, d1);
  }

  /** A name belongs to one cluster only, in one role only. */
  lemma OneOwner(n: string, c0: string, i0: Image, c1: string, i1: Image)
    requires NamedFor(n, c0, i0) && NamedFor(n, c1, i1)
    ensures c0 == c1 && i0 == i1
  {
    var d0 :| IsId(d0) && n == ContainerName(c0, i0, d0);
    var d1 :| IsId(d1) && n == ContainerName(c1, i1, d1);
    NamesInjective(c0, i0, d0, c1, i1, d1);
  }

  /** Names of a cluster that is a path component are path components too. */
  lemma OwnedIsGood(n: string, cluster: string)
    requires ClusterName(cluster) && OwnedBy(n, cluster)
    ensures GoodName(n)
  {
    var image :| NamedFor(n, cluster, image);
    var id :| IsId(id) && n == ContainerName(cluster, image, id);
    IdHasNoHyphen(id);
    ImageRoundTrip(image);
    assert '/' !in "lxdk-" && '/' !in "-" && '\n' !in "lxdk-" && '\n' !in "-";
  }

  // ---- substring tests ----

  /** The "etcd" test of CreateContainer, which decides the profile. */
  predicate TestsAsEtcd(n: string) {
    Contains(n, "etcd")
  }

  /** The "controller" test of configureWorker, which decides the environment file. */
  predicate TestsAsController(n: string) {
    Contains(n, "controller")
  }

  /** A hyphen-free needle occurs in a container name only inside one of its parts. */
  lemma ContainsInName(cluster: string, image: Image, id: string, needle: string)
    requires needle != "" && '-' !in needle
    ensures Contains(ContainerName(cluster, image, id), needle) <==>
            Contains("lxdk", needle) || Contains(cluster, needle) ||
            Contains(image.Text(), needle) || Contains(id, needle)
  {
    var n := ContainerName(cluster, image, id);
    var m := "lxdk-" + cluster + "-" + image.Text();
    assert n == m + ['-'] + id;
    ContainsAcross(m, '-', id, needle);
    var l := "lxdk-" + cluster;
    assert m == l + ['-'] + image.Text();
    ContainsAcross(l, '-', image.Text(), needle);
    assert l == "lxdk" + ['-'] + cluster;
    ContainsAcross("lxdk", '-', cluster, needle);
  }

  /** A name contains itself. */
  lemma ContainsSelf(s: string)
    ensures Contains(s, s)
  {
    assert s[0..0 + |s|] == s;
    assert OccursAt(s, s, 0);
  }

  /** Which image names contain which of the two needles. */
  lemma ImageTests(image: Image)
    ensures Contains(image.Text(), "etcd") <==> image == Etcd
    ensures Contains(image.Text(), "controller") <==> image == Controller
    ensures !Contains("lxdk", "etcd") && !Contains("lxdk", "controller")
  {
    ContainsSelf(image.Text());
    NoFirstChar("lxdk", "etcd");
    match image
    case Etcd =>
    case Controller =>
      NoFirstChar("controller", "etcd");
    case Worker =>
      NoFirstChar("worker", "etcd");
    case Registry =>
      var s := "registry";
      forall i | 0 <= i <= |s| - |"etcd"|
        ensures !OccursAt(s, "etcd", i)
      {
        assert s[i..i + 4][0] == s[i] && s[i..i + 4][1] == s[i + 1];
      }
  }

  /** The "etcd" test is right exactly for cluster names and ids free of "etcd". */
  lemma EtcdTest(cluster: string, image: Image, id: string)
    ensures TestsAsEtcd(ContainerName(cluster, image, id)) <==>
            image == Etcd || Contains(cluster, "etcd") || Contains(id, "etcd")
  {
    assert '-' !in "etcd";
    ContainsInName(cluster, image, id, "etcd");
    ImageTests(image);
  }

  /** The "controller" test never depends on the id. */
  lemma ControllerTest(cluster: string, image: Image, id: string)
    requires IsId(id)
    ensures TestsAsController(ContainerName(cluster, image, id)) <==>
            image == Controller || Contains(cluster, "controller")
  {
    assert '-' !in "controller";
    ContainsInName(cluster, image, id, "controller");
    ImageTests(image);
  }

  // ---- certificate file names ----

  function PemName(name: string): string {
    name + ".pem"
  }

  function KeyName(name: string): string {
    name + "-key.pem"
  }

  /** cfssljson also leaves the signing request behind. */
  function CsrName(name: string): string {
    name + ".csr"
  }

  /** The base names of the certificates that are not a container's. */
  const FIXED_CERTS: seq<string> := [
    "ca", "ca-aggregation", "ca-etcd", "admin", "aggregation-client",
    "kube-controller-manager", "kube-scheduler", "kube-proxy", "etcd", "kubernetes"]

  /** The files one certificate is stored in. */
  predicate CertFile(f: string, name: string) {
    f == PemName(name) || f == KeyName(name) || f == CsrName(name)
  }

  /** Two different names have no certificate file in common, unless one is the other's "-key". */
  lemma CertFilesApart(x: string, y: string, f: string)
    requires CertFile(f, x) && CertFile(f, y)
    ensures x == y || x == y + "-key" || y == x + "-key"
  {
    var l := |f|;
    assert f == PemName(x) ==> f[..l - 4] == x && f[l - 4..] == ".pem";
    assert f == PemName(y) ==> f[..l - 4] == y && f[l - 4..] == ".pem";
    assert f == CsrName(x) ==> f[..l - 4] == x && f[l - 4..] == ".csr";
    assert f == CsrName(y) ==> f[..l - 4] == y && f[l - 4..] == ".csr";
    assert f == KeyName(x) ==> f[..l - 8] == x && f[..l - 4] == x + "-key" && f[l - 4..] == ".pem";
    assert f == KeyName(y) ==> f[..l - 8] == y && f[..l - 4] == y + "-key" && f[l - 4..] == ".pem";
    assert ".pem"[1] != ".csr"[1];
  }

  lemma LowerOfName(cluster: string, image: Image, id: string)
    requires IsId(id)
    ensures ToLower(ContainerName(cluster, image, id)) == "lxdk-" + ToLower(cluster) + "-" + image.Text() + "-" + id
  {
  }

  /** Lower-casing keeps the container names of one cluster apart. */
  lemma LowerInjective(x: string, y: string, cluster: string)
    requires OwnedBy(x, cluster) && OwnedBy(y, cluster) && ToLower(x) == ToLower(y)
    ensures x == y
  {
  }

  /** No lower-cased container name is another text with "-key" appended, nor a fixed name. */
  lemma LowerIsNoKey(x: string, cluster: string)
    requires OwnedBy(x, cluster)
    ensures forall y :: ToLower(x) != y + "-key"
    ensures HasPrefix(ToLower(x), "lxdk-")
  {
    var i :| NamedFor(x, cluster, i);
    var d :| IsId(d) && x == ContainerName(cluster, i, d);
    LowerOfName(cluster, i, d);
    var l := ToLower(x);
    assert l[|l| - 4] == d[1];
    forall y
      ensures l != y + "-key"
    {
      KeyHyphen(y);
    }
    assert l[..5] == "lxdk-";
  }

  lemma KeyHyphen(y: string)
    ensures (y + "-key")[|y + "-key"| - 4] == '-'
  {
  }

  /**
    Within one cluster no two containers share a certificate file, and none
    shares one with a fixed certificate.
   */
  lemma CertificatesNeverCollide(x: string, cluster: string, f: string)
    requires OwnedBy(x, cluster) && CertFile(f, ToLower(x))
    ensures forall y :: OwnedBy(y, cluster) && CertFile(f, ToLower(y)) ==> y == x
    ensures forall k | 0 <= k < |FIXED_CERTS| :: !CertFile(f, FIXED_CERTS[k])
  {
    LowerIsNoKey(x, cluster);
    forall y | OwnedBy(y, cluster) && CertFile(f, ToLower(y))
      ensures y == x
    {
      CertFilesApart(ToLower(x), ToLower(y), f);
      LowerIsNoKey(y, cluster);
      LowerInjective(x, y, cluster);
    }
    forall k | 0 <= k < |FIXED_CERTS|
      ensures !CertFile(f, FIXED_CERTS[k])
    {
      FixedFirstLetter(k);
      assert ToLower(x)[0] == 'l';
      FirstLettersDiffer(f, FIXED_CERTS[k]);
    }
  }

  lemma FirstLettersDiffer(f: string, name: string)
    requires |f| > 0 && |name| > 0 && f[0] != name[0]
    ensures !CertFile(f, name)
  {
  }

  lemma FixedFirstLetter(k: nat)
    requires k < |FIXED_CERTS|
    ensures |FIXED_CERTS[k]| > 0 && FIXED_CERTS[k][0] != 'l'
  {
  }

  /** The two files of one container differ, and so do the kubeconfigs of different containers. */
  lemma PairsApart(x: string, y: string, cluster: string)
    requires OwnedBy(x, cluster) && OwnedBy(y, cluster)
    ensures PemName(ToLower(x)) != KeyName(ToLower(y))
    ensures PemName(ToLower(x)) == PemName(ToLower(y)) <==> x == y
    ensures KeyName(ToLower(x)) == KeyName(ToLower(y)) <==> x == y
  {
    var l, m := ToLower(x), ToLower(y);
    LowerIsNoKey(x, cluster);
    assert PemName(l)[..|PemName(l)| - 4] == l;
    assert KeyName(m)[..|KeyName(m)| - 4] == m + "-key";
    if PemName(l) == PemName(m) {
      assert CertFile(PemName(l), l) && CertFile(PemName(l), m);
      CertificatesNeverCollide(x, cluster, PemName(l));
    }
    if KeyName(l) == KeyName(m) {
      assert CertFile(KeyName(l), l) && CertFile(KeyName(l), m);
      CertificatesNeverCollide(x, cluster, KeyName(l));
    }
  }
}
