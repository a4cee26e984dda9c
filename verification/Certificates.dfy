/**
  Certificates and kubeconfigs in the cache directory of one cluster: which
  files each cfssl and kubectl run reads, which it writes, and what they say.
 */
module Certificates {
  import opened Text
  import opened Paths
  import opened Names
  import opened Wrappers
  import opened Credentials
  import opened Worlds
  import opened Lxd

  /** Only cluster `c`'s directory changed, and nothing in it went away. */
  ghost predicate LocalGrows(cs: map<string, ClusterDir>, cs': map<string, ClusterDir>, c: string) {
    c in cs && c in cs' && cs' == cs[c := cs'[c]] && FilesGrow(cs[c], cs'[c])
  }

  lemma LocalGrowsTwice(cs0: map<string, ClusterDir>, cs1: map<string, ClusterDir>, cs2: map<string, ClusterDir>, c: string)
    requires LocalGrows(cs0, cs1, c) && LocalGrows(cs1, cs2, c)
    ensures LocalGrows(cs0, cs2, c)
  {
  }

  /** Of the files in `d` and `e` only those in `written` may differ. */
  ghost predicate OnlyWrites(d: ClusterDir, e: ClusterDir, written: set<string>) {
    forall f | f !in written :: SameFile(d, e, f)
  }

  /** certificates.CAConfig */
  datatype CAConfig = CAConfig(name: string, cn: string)

  /** certificates.CertConfig; `override` has the common name and the organization of its JSONOverride. */
  datatype CertConfig = CertConfig(name: string, fileName: string, cn: string, ca: string, hosts: string,
                                   override: Option<(string, string)>)

  /** The base name the certificate is saved under. */
  function SavedAs(conf: CertConfig): string {
    if conf.fileName == "" then conf.name else conf.fileName
  }

  /** Whose certificate it is: without an override the name doubles as organization. */
  function IdentityOf(conf: CertConfig): Identity {
    if conf.override.Some? then Identity(SavedAs(conf), conf.override.value.0, conf.override.value.1, conf.ca)
    else Identity(SavedAs(conf), conf.cn, conf.name, conf.ca)
  }

  function CertPaths(name: string): set<string> {
    {CertPath(PemName(name)), CertPath(KeyName(name)), CertPath(CsrName(name))}
  }

  /** The pair as cfssljson writes it, whatever request comes with it. */
  ghost predicate PairWritten(e: ClusterDir, name: string, pem: string, key: string) {
    HasPair(e, name) && e.files[CertPath(PemName(name))] == pem && e.files[CertPath(KeyName(name))] == key
  }

  /** "cfssljson -bare name": write the certificate, its key and its request. */
  method WritePair(cache: Cache, c: string, name: string, pem: string, key: string) returns (r: Outcome)
    requires c in cache.clusters
    modifies cache
    ensures LocalGrows(old(cache.clusters), cache.clusters, c)
    ensures OnlyWrites(old(cache.clusters)[c], cache.clusters[c], CertPaths(name))
    ensures cache.clusters[c].dirs == old(cache.clusters)[c].dirs
    ensures SameFile(old(cache.clusters)[c], cache.clusters[c], CertPath(PemName(name))) || PairWritten(cache.clusters[c], name, pem, key)
    ensures r == Done || r == Failed || r == Missing(CERT_DIR)
    ensures r == Done ==> PairWritten(cache.clusters[c], name, pem, key) && CERT_DIR in cache.clusters[c].dirs
    ensures r.Missing? ==> CERT_DIR !in old(cache.clusters)[c].dirs
    ensures cache.faults >= old(cache.faults)
    ensures cache.faults == old(cache.faults) ==> r == Done || r.Missing?
  {
    assert CertPath(PemName(name)) != CertPath(KeyName(name)) && CertPath(CsrName(name)) != CertPath(PemName(name)) by {
      PairPaths(name);
    }
    if CERT_DIR !in cache.clusters[c].dirs {
      assert cache.clusters == cache.clusters[c := cache.clusters[c]];
      return Missing(CERT_DIR);
    }
    var request: string := *;
    var ok := cache.WriteFile(c, CERT_DIR, CertPath(CsrName(name)), request);
    if !ok {
      return Failed;
    }
    ok := cache.WriteFile(c, CERT_DIR, CertPath(KeyName(name)), key);
    if !ok {
      return Failed;
    }
    ok := cache.WriteFile(c, CERT_DIR, CertPath(PemName(name)), pem);
    r := if ok then Done else Failed;
  }

  lemma PairPaths(name: string)
    ensures CertPath(PemName(name)) != CertPath(KeyName(name)) && CertPath(CsrName(name)) != CertPath(PemName(name))
    ensures CertPath(CsrName(name)) != CertPath(KeyName(name))
  {
    assert |CertPath(PemName(name))| != |CertPath(KeyName(name))| && |CertPath(CsrName(name))| != |CertPath(KeyName(name))|;
    var p, q := CertPath(PemName(name)), CertPath(CsrName(name));
    assert p[|p| - 3..] == "pem" && q[|q| - 3..] == "csr" && "pem"[0] != "csr"[0];
  }

  /** The authority's own certificate. */
  ghost predicate HasAuthority(d: ClusterDir, conf: CAConfig) {
    exists cn, key :: cn == conf.cn && PairWritten(d, conf.name, PrintAuthority(cn, key), key)
  }

  /** certificates.CreateCA */
  method CreateCA(cache: Cache, c: string, conf: CAConfig) returns (r: Outcome)
    requires c in cache.clusters
    modifies cache
    ensures LocalGrows(old(cache.clusters), cache.clusters, c)
    ensures OnlyWrites(old(cache.clusters)[c], cache.clusters[c], CertPaths(conf.name))
    ensures r == Done || r == Failed || r == Missing(CERT_DIR)
    ensures r == Done ==> HasAuthority(cache.clusters[c], conf) && CERT_DIR in cache.clusters[c].dirs
    ensures r.Missing? ==> CERT_DIR !in old(cache.clusters)[c].dirs
    ensures cache.faults >= old(cache.faults)
    ensures cache.faults == old(cache.faults) && CERT_DIR in old(cache.clusters)[c].dirs ==> r == Done
  {
    assert cache.clusters == cache.clusters[c := cache.clusters[c]];
    var ok := cache.Attempt(); // cfssl gencert -initca
    if !ok {
      return Failed;
    }
    var key: string := *;
    r := WritePair(cache, c, conf.name, PrintAuthority(conf.cn, key), key);
  }

  /** certificates.WriteCAConfig */
  method WriteCAConfig(cache: Cache, c: string) returns (r: Outcome)
    requires c in cache.clusters
    modifies cache
    ensures LocalGrows(old(cache.clusters), cache.clusters, c)
    ensures OnlyWrites(old(cache.clusters)[c], cache.clusters[c], {CaConfigPath()})
    ensures r == Done || r == Failed || r == Missing(CERT_DIR)
    ensures r == Done ==> CaConfigPath() in cache.clusters[c].files
    ensures r.Missing? ==> CERT_DIR !in old(cache.clusters)[c].dirs
    ensures cache.faults >= old(cache.faults)
    ensures cache.faults == old(cache.faults) && CERT_DIR in old(cache.clusters)[c].dirs ==> r == Done
  {
    if CERT_DIR !in cache.clusters[c].dirs {
      assert cache.clusters == cache.clusters[c := cache.clusters[c]];
      return Missing(CERT_DIR);
    }
    var data: string := *;
    var ok := cache.WriteFile(c, CERT_DIR, CaConfigPath(), data);
    r := if ok then Done else Failed;
  }

  /** What CreateCert reads. */
  predicate CanSign(d: ClusterDir, ca: string) {
    CERT_DIR in d.dirs && HasPair(d, ca) && CaConfigPath() in d.files
  }

  /** The certificate says what the configuration asks for. */
  ghost predicate IssuedFor(d: ClusterDir, conf: CertConfig) {
    IssuedWith(d, IdentityOf(conf), conf.hosts)
  }

  lemma IssuedForIsIssued(d: ClusterDir, conf: CertConfig)
    requires IssuedFor(d, conf)
    ensures Issued(d, IdentityOf(conf))
  {
    IssuedWithIsIssued(d, IdentityOf(conf), conf.hosts);
  }

  /** Saving the certificate does not overwrite its authority's. */
  predicate SavesApart(conf: CertConfig) {
    CertPath(PemName(conf.ca)) !in CertPaths(SavedAs(conf))
  }

  lemma WrittenIsIssued(d: ClusterDir, e: ClusterDir, conf: CertConfig, x: Certificate)
    requires OnlyWrites(d, e, CertPaths(SavedAs(conf))) && SavesApart(conf) && CertPath(PemName(conf.ca)) in d.files
    requires x == Certificate(IdentityOf(conf).cn, IdentityOf(conf).org, conf.hosts, d.files[CertPath(PemName(conf.ca))], x.key)
    requires PairWritten(e, SavedAs(conf), PrintCert(x), x.key)
    ensures IssuedFor(e, conf)
  {
    assert SameFile(d, e, CertPath(PemName(conf.ca)));
    assert IssuedAs(e, IdentityOf(conf), x);
    assert IssuedToHosts(e, IdentityOf(conf), conf.hosts);
  }

  /** certificates.CreateCert */
  method CreateCert(cache: Cache, c: string, conf: CertConfig) returns (r: Outcome)
    requires c in cache.clusters
    modifies cache
    ensures LocalGrows(old(cache.clusters), cache.clusters, c)
    ensures OnlyWrites(old(cache.clusters)[c], cache.clusters[c], CertPaths(SavedAs(conf)))
    ensures r != Refused
    ensures r == Done ==> HasPair(cache.clusters[c], SavedAs(conf)) && CanSign(cache.clusters[c], conf.ca)
    ensures r.Missing? ==> !CanSign(old(cache.clusters)[c], conf.ca)
    ensures r == Done && SavesApart(conf) ==> IssuedFor(cache.clusters[c], conf)
    ensures SavesApart(conf) ==> SameFile(old(cache.clusters)[c], cache.clusters[c], CertPath(PemName(SavedAs(conf)))) || IssuedFor(cache.clusters[c], conf)
    ensures cache.faults >= old(cache.faults)
    ensures cache.faults == old(cache.faults) ==> r == Done || r.Missing?
  {
    var d := cache.clusters[c];
    assert cache.clusters == cache.clusters[c := d];
    if CertPath(PemName(conf.ca)) !in d.files {
      return Missing(CertPath(PemName(conf.ca)));
    }
    if CertPath(KeyName(conf.ca)) !in d.files {
      return Missing(CertPath(KeyName(conf.ca)));
    }
    if CaConfigPath() !in d.files {
      return Missing(CaConfigPath());
    }
    var ok := cache.Attempt(); // cfssl gencert
    if !ok {
      return Failed;
    }
    var key: string := *;
    var subject := if conf.override.Some? then conf.override.value else (conf.cn, conf.name);
    var x := Certificate(subject.0, subject.1, conf.hosts, d.files[CertPath(PemName(conf.ca))], key);
    r := WritePair(cache, c, SavedAs(conf), PrintCert(x), key);
    if PairWritten(cache.clusters[c], SavedAs(conf), PrintCert(x), key) && SavesApart(conf) {
      WrittenIsIssued(d, cache.clusters[c], conf, x);
    }
  }

  /** No certificate of a base identity from the `i`-th on is there yet. */
  ghost predicate NotYetIssued(d: ClusterDir, i: nat) {
    forall j | i <= j < |BASE_IDENTITIES| :: CertPath(PemName(BASE_IDENTITIES[j].file)) !in d.files
  }

  /** The certificate authorities and the signing configuration. */
  predicate HasAuthorities(d: ClusterDir) {
    CanSign(d, "ca") && CanSign(d, "ca-aggregation") && CanSign(d, "ca-etcd")
  }

  /** The authorities createCerts makes, in order. */
  const AUTHORITIES := [CAConfig("ca", "Kubernetes"), CAConfig("ca-aggregation", "Kubernetes Front Proxy CA"), CAConfig("ca-etcd", "etcd")]

  /** The first `i` authorities are there, each with its common name. */
  ghost predicate AuthoritiesMade(d: ClusterDir, i: nat)
    requires i <= |AUTHORITIES|
  {
    forall a | 0 <= a < i :: HasAuthority(d, AUTHORITIES[a])
  }

  lemma AuthorityStays(d: ClusterDir, e: ClusterDir, conf: CAConfig, written: set<string>)
    requires HasAuthority(d, conf) && OnlyWrites(d, e, written)
    requires CertPath(PemName(conf.name)) !in written && CertPath(KeyName(conf.name)) !in written
    ensures HasAuthority(e, conf)
  {
    assert SameFile(d, e, CertPath(PemName(conf.name))) && SameFile(d, e, CertPath(KeyName(conf.name)));
    var cn, key :| cn == conf.cn && PairWritten(d, conf.name, PrintAuthority(cn, key), key);
    assert PairWritten(e, conf.name, PrintAuthority(cn, key), key);
  }

  // ---- no certificate overwrites another's files ----

  predicate NoKey(name: string) {
    !HasSuffix(name, "-key")
  }

  lemma SameCertPath(f: string, g: string)
    ensures CertPath(f) == CertPath(g) ==> f == g
  {
    assert CertPath(f)[|"certificates/"|..] == f;
    assert CertPath(g)[|"certificates/"|..] == g;
  }

  lemma PathsApart(x: string, y: string)
    requires x != y && NoKey(x) && NoKey(y)
    ensures CertPaths(x) !! CertPaths(y)
  {
    forall f, g | CertFile(f, x) && CertFile(g, y)
      ensures CertPath(f) != CertPath(g)
    {
      SameCertPath(f, g);
      assert HasSuffix(y + "-key", "-key") && HasSuffix(x + "-key", "-key");
      if f == g {
        CertFilesApart(x, y, f);
      }
    }
    assert forall p | p in CertPaths(x) :: p == CertPath(PemName(x)) || p == CertPath(KeyName(x)) || p == CertPath(CsrName(x));
    assert forall p | p in CertPaths(y) :: p == CertPath(PemName(y)) || p == CertPath(KeyName(y)) || p == CertPath(CsrName(y));
    assert CertFile(PemName(x), x) && CertFile(KeyName(x), x) && CertFile(CsrName(x), x);
    assert CertFile(PemName(y), y) && CertFile(KeyName(y), y) && CertFile(CsrName(y), y);
  }

  lemma ConfigApart(name: string)
    ensures CaConfigPath() !in CertPaths(name)
  {
    var p := CaConfigPath();
    assert p[|p| - 3..] == "son" && "son"[0] != "pem"[0] && "son"[0] != "csr"[0];
    var a, b, k := CertPath(PemName(name)), CertPath(CsrName(name)), CertPath(KeyName(name));
    assert a[|a| - 3..] == "pem" && b[|b| - 3..] == "csr" && k[|k| - 3..] == "pem";
  }

  lemma FixedNoKey(i: nat)
    requires i < |FIXED_CERTS|
    ensures NoKey(FIXED_CERTS[i])
  {
    var s := FIXED_CERTS[i];
    if HasSuffix(s, "-key") {
      assert s[|s| - 1] == 'y' && s[|s| - 2] == 'e';
      FixedEnds(i);
    }
  }

  lemma FixedEnds(i: nat)
    requires i < |FIXED_CERTS|
    ensures |FIXED_CERTS[i]| >= 2 && !(FIXED_CERTS[i][|FIXED_CERTS[i]| - 1] == 'y' && FIXED_CERTS[i][|FIXED_CERTS[i]| - 2] == 'e')
  {
  }

  lemma FixedApart(i: nat, j: nat)
    requires i < |FIXED_CERTS| && j < |FIXED_CERTS| && FIXED_CERTS[i] != FIXED_CERTS[j]
    ensures CertPaths(FIXED_CERTS[i]) !! CertPaths(FIXED_CERTS[j])
  {
    FixedNoKey(i);
    FixedNoKey(j);
    PathsApart(FIXED_CERTS[i], FIXED_CERTS[j]);
  }

  lemma FixedDiffer(i: nat, j: nat)
    requires i < j < |FIXED_CERTS|
    ensures FIXED_CERTS[i] != FIXED_CERTS[j]
  {
  }

  lemma BaseFiles(j: nat)
    requires j < |BASE_IDENTITIES|
    ensures BASE_IDENTITIES[j].file == FIXED_CERTS[3 + j]
    ensures BASE_IDENTITIES[j].ca == FIXED_CERTS[0] || BASE_IDENTITIES[j].ca == FIXED_CERTS[1]
  {
  }

  /** A certificate of a fixed name other than a base identity's leaves that identity's files alone. */
  lemma FixedLeavesBase(i: nat, j: nat)
    requires i < |FIXED_CERTS| && j < |BASE_IDENTITIES| && i != 3 + j
    ensures CertPath(PemName(BASE_IDENTITIES[j].file)) !in CertPaths(FIXED_CERTS[i])
    ensures CertPath(KeyName(BASE_IDENTITIES[j].file)) !in CertPaths(FIXED_CERTS[i])
  {
    BaseFiles(j);
    FixedDiffer(if i < 3 + j then i else 3 + j, if i < 3 + j then 3 + j else i);
    FixedApart(i, 3 + j);
    var name := BASE_IDENTITIES[j].file;
    assert CertPath(PemName(name)) in CertPaths(name) && CertPath(KeyName(name)) in CertPaths(name);
  }

  lemma NothingIssued(d: ClusterDir, e: ClusterDir, i: nat)
    requires i < 3 && NotYetIssued(d, 0) && OnlyWrites(d, e, CertPaths(FIXED_CERTS[i]))
    ensures NotYetIssued(e, 0)
  {
    forall j | 0 <= j < |BASE_IDENTITIES|
      ensures CertPath(PemName(BASE_IDENTITIES[j].file)) !in e.files
    {
      FixedLeavesBase(i, j);
      assert SameFile(d, e, CertPath(PemName(BASE_IDENTITIES[j].file)));
    }
  }

  lemma NothingIssuedYet(d: ClusterDir, e: ClusterDir)
    requires NotYetIssued(d, 0) && OnlyWrites(d, e, {CaConfigPath()})
    ensures NotYetIssued(e, 0)
  {
    forall j | 0 <= j < |BASE_IDENTITIES|
      ensures CertPath(PemName(BASE_IDENTITIES[j].file)) !in e.files
    {
      var name := BASE_IDENTITIES[j].file;
      ConfigApart(name);
      assert CertPath(PemName(name)) in CertPaths(name);
      assert SameFile(d, e, CertPath(PemName(name)));
    }
  }

  lemma AuthorityNames(a: nat)
    requires a < |AUTHORITIES|
    ensures AUTHORITIES[a].name == FIXED_CERTS[a]
  {
  }

  /** An authority stays as it is when another certificate of a fixed name is written. */
  lemma CertLeavesAuthority(d: ClusterDir, e: ClusterDir, a: nat, i: nat)
    requires a < |AUTHORITIES| && i < |FIXED_CERTS| && a != i && HasAuthority(d, AUTHORITIES[a])
    requires OnlyWrites(d, e, CertPaths(FIXED_CERTS[i]))
    ensures HasAuthority(e, AUTHORITIES[a])
  {
    AuthorityNames(a);
    FixedDiffer(if a < i then a else i, if a < i then i else a);
    FixedApart(a, i);
    var name := FIXED_CERTS[a];
    assert CertPath(PemName(name)) in CertPaths(name) && CertPath(KeyName(name)) in CertPaths(name);
    AuthorityStays(d, e, AUTHORITIES[a], CertPaths(FIXED_CERTS[i]));
  }

  lemma AuthoritiesStay(d: ClusterDir, e: ClusterDir, n: nat, i: nat)
    requires n <= |AUTHORITIES| && n <= i < |FIXED_CERTS| && AuthoritiesMade(d, n) && OnlyWrites(d, e, CertPaths(FIXED_CERTS[i]))
    ensures AuthoritiesMade(e, n)
  {
    forall a | 0 <= a < n
      ensures HasAuthority(e, AUTHORITIES[a])
    {
      CertLeavesAuthority(d, e, a, i);
    }
  }

  lemma ConfiguredAuthorities(d: ClusterDir, e: ClusterDir)
    requires AuthoritiesMade(d, |AUTHORITIES|) && OnlyWrites(d, e, {CaConfigPath()})
    ensures AuthoritiesMade(e, |AUTHORITIES|)
  {
    forall a | 0 <= a < |AUTHORITIES|
      ensures HasAuthority(e, AUTHORITIES[a])
    {
      var name := AUTHORITIES[a].name;
      ConfigApart(name);
      assert CertPath(PemName(name)) in CertPaths(name) && CertPath(KeyName(name)) in CertPaths(name);
      AuthorityStays(d, e, AUTHORITIES[a], {CaConfigPath()});
    }
  }

  /** What is known of the directory when `i` authorities have been made. */
  ghost predicate AuthoritiesUpTo(d: ClusterDir, i: nat)
    requires i <= |AUTHORITIES|
  {
    CERT_DIR in d.dirs && AuthoritiesMade(d, i)
  }

  method CreateAuthority(cache: Cache, c: string, i: nat) returns (r: Outcome)
    requires c in cache.clusters && i < |AUTHORITIES| && AuthoritiesUpTo(cache.clusters[c], i)
    modifies cache
    ensures LocalGrows(old(cache.clusters), cache.clusters, c)
    ensures r == Done || r == Failed
    ensures r == Done ==> AuthoritiesUpTo(cache.clusters[c], i + 1)
    ensures NotYetIssued(old(cache.clusters[c]), 0) ==> NotYetIssued(cache.clusters[c], 0)
    ensures cache.faults >= old(cache.faults) && (cache.faults == old(cache.faults) ==> r == Done)
  {
    ghost var d := cache.clusters[c];
    AuthorityNames(i);
    r := CreateCA(cache, c, AUTHORITIES[i]);
    if NotYetIssued(d, 0) {
      NothingIssued(d, cache.clusters[c], i);
    }
    AuthoritiesStay(d, cache.clusters[c], i, i);
  }

  method ConfigureSigning(cache: Cache, c: string) returns (r: Outcome)
    requires c in cache.clusters && AuthoritiesUpTo(cache.clusters[c], |AUTHORITIES|)
    modifies cache
    ensures LocalGrows(old(cache.clusters), cache.clusters, c)
    ensures r == Done || r == Failed
    ensures r == Done ==> HasAuthorities(cache.clusters[c])
    ensures AuthoritiesMade(cache.clusters[c], |AUTHORITIES|)
    ensures NotYetIssued(old(cache.clusters[c]), 0) ==> NotYetIssued(cache.clusters[c], 0)
    ensures cache.faults >= old(cache.faults) && (cache.faults == old(cache.faults) ==> r == Done)
  {
    ghost var d := cache.clusters[c];
    r := WriteCAConfig(cache, c);
    if NotYetIssued(d, 0) {
      NothingIssuedYet(d, cache.clusters[c]);
    }
    ConfiguredAuthorities(d, cache.clusters[c]);
    AuthoritiesAreThere(cache.clusters[c]);
  }

  /** The authorities, one after the other, and the signing configuration. */
  method CreateAuthorities(cache: Cache, c: string) returns (r: Outcome)
    requires c in cache.clusters && CERT_DIR in cache.clusters[c].dirs
    modifies cache
    ensures LocalGrows(old(cache.clusters), cache.clusters, c)
    ensures r == Done || r == Failed
    ensures r == Done ==> HasAuthorities(cache.clusters[c]) && AuthoritiesMade(cache.clusters[c], |AUTHORITIES|)
    ensures NotYetIssued(old(cache.clusters[c]), 0) ==> NotYetIssued(cache.clusters[c], 0)
    ensures cache.faults >= old(cache.faults) && (cache.faults == old(cache.faults) ==> r == Done)
  {
    ghost var cs := cache.clusters;
    assert cs == cs[c := cs[c]];
    var i := 0;
    while i < |AUTHORITIES|
      invariant 0 <= i <= |AUTHORITIES| && LocalGrows(cs, cache.clusters, c)
      invariant AuthoritiesUpTo(cache.clusters[c], i)
      invariant NotYetIssued(old(cache.clusters[c]), 0) ==> NotYetIssued(cache.clusters[c], 0)
      invariant cache.faults >= old(cache.faults)
    {
      ghost var cs1 := cache.clusters;
      r := CreateAuthority(cache, c, i);
      LocalGrowsTwice(cs, cs1, cache.clusters, c);
      if r != Done {
        return;
      }
      i := i + 1;
    }
    ghost var cs2 := cache.clusters;
    r := ConfigureSigning(cache, c);
    LocalGrowsTwice(cs, cs2, cache.clusters, c);
  }

  lemma AuthoritiesAreThere(d: ClusterDir)
    requires AuthoritiesMade(d, |AUTHORITIES|)
    ensures HasPair(d, "ca") && HasPair(d, "ca-aggregation") && HasPair(d, "ca-etcd")
  {
    assert HasAuthority(d, AUTHORITIES[0]) && HasAuthority(d, AUTHORITIES[1]) && HasAuthority(d, AUTHORITIES[2]);
  }

  // ---- the clients' certificates ----

  /** The certificates createCerts signs, in order. */
  const CLIENT_CERTS := [
    CertConfig("admin", "", "admin", "ca", "", Some(("admin", "system:masters"))),
    CertConfig("aggregation-client", "", "", "ca-aggregation", "", Some(("kube-apiserver", "kube-apiserver"))),
    CertConfig("kube-controller-manager", "", "system:kube-controller-manager", "ca", "",
               Some(("system:kube-controller-manager", "system:kube-controller-manager"))),
    CertConfig("system:kube-scheduler", "kube-scheduler", "system:kube-scheduler", "ca", "", None),
    CertConfig("system:node-proxier", "kube-proxy", "system:kube-proxy", "ca", "", None)]

  /** They are the base identities'. */
  lemma ClientIdentities(j: nat)
    requires j < |CLIENT_CERTS|
    ensures |CLIENT_CERTS| == |BASE_IDENTITIES| && IdentityOf(CLIENT_CERTS[j]) == BASE_IDENTITIES[j]
    ensures SavedAs(CLIENT_CERTS[j]) == BASE_IDENTITIES[j].file && CLIENT_CERTS[j].ca == BASE_IDENTITIES[j].ca
  {
  }

  lemma ClientSavesApart(i: nat)
    requires i < |CLIENT_CERTS|
    ensures SavesApart(CLIENT_CERTS[i])
  {
    ClientIdentities(i);
    BaseFiles(i);
    var a: nat := if BASE_IDENTITIES[i].ca == FIXED_CERTS[0] then 0 else 1;
    FixedDiffer(a, 3 + i);
    FixedApart(a, 3 + i);
    assert CertPath(PemName(FIXED_CERTS[a])) in CertPaths(FIXED_CERTS[a]);
  }

  /** The base certificates that are there are sound, and those from the `i`-th on are not there yet. */
  ghost predicate SoundUpTo(d: ClusterDir, i: nat) {
    BaseSound(d) && NotYetIssued(d, i)
  }

  /** What one more certificate does to those there are. */
  lemma OneMoreCert(d: ClusterDir, e: ClusterDir, i: nat)
    requires i < |CLIENT_CERTS| && SoundUpTo(d, i) && OnlyWrites(d, e, CertPaths(SavedAs(CLIENT_CERTS[i])))
    requires SameFile(d, e, CertPath(PemName(SavedAs(CLIENT_CERTS[i])))) || IssuedFor(e, CLIENT_CERTS[i])
    ensures SoundUpTo(e, i + 1)
  {
    ClientIdentities(i);
    BaseFiles(i);
    forall j | 0 <= j < |BASE_IDENTITIES|
      ensures j > i ==> CertPath(PemName(BASE_IDENTITIES[j].file)) !in e.files
      ensures HasChain(e, BASE_IDENTITIES[j]) ==> Issued(e, BASE_IDENTITIES[j])
    {
      if j == i {
        if HasChain(e, BASE_IDENTITIES[i]) {
          IssuedForIsIssued(e, CLIENT_CERTS[i]);
        }
      } else {
        OtherCert(d, e, i, j);
        if HasChain(e, BASE_IDENTITIES[j]) {
          BaseSays(d, j);
        }
      }
    }
    assert BaseIssued(e);
  }

  lemma OtherCert(d: ClusterDir, e: ClusterDir, i: nat, j: nat)
    requires i < |CLIENT_CERTS| && j < |BASE_IDENTITIES| && i != j && OnlyWrites(d, e, CertPaths(FIXED_CERTS[3 + i]))
    ensures SameChain(d, e, BASE_IDENTITIES[j])
    ensures HasChain(e, BASE_IDENTITIES[j]) && Issued(d, BASE_IDENTITIES[j]) ==> Issued(e, BASE_IDENTITIES[j])
    ensures HasChain(d, BASE_IDENTITIES[j]) <==> HasChain(e, BASE_IDENTITIES[j])
  {
    FixedLeavesBase(3 + i, j);
    BaseFiles(j);
    var a: nat := if BASE_IDENTITIES[j].ca == FIXED_CERTS[0] then 0 else 1;
    FixedDiffer(a, 3 + i);
    FixedApart(a, 3 + i);
    assert CertPath(PemName(FIXED_CERTS[a])) in CertPaths(FIXED_CERTS[a]);
    assert SameFile(d, e, CertPath(PemName(BASE_IDENTITIES[j].file))) && SameFile(d, e, CertPath(KeyName(BASE_IDENTITIES[j].file)));
    IssuedStays(d, e, BASE_IDENTITIES[j]);
  }

  /** The first `i` base identities have their certificates. */
  ghost predicate SignedUpTo(d: ClusterDir, i: nat)
    requires i <= |BASE_IDENTITIES|
  {
    forall j | 0 <= j < i :: Issued(d, BASE_IDENTITIES[j])
  }

  /** What is known of the directory when `i` client certificates have been made. */
  ghost predicate ClientsUpTo(d: ClusterDir, i: nat)
    requires i <= |CLIENT_CERTS|
  {
    && HasAuthorities(d) && AuthoritiesMade(d, |AUTHORITIES|)
    && SignedUpTo(d, i)
  }

  lemma ClientsStay(d: ClusterDir, e: ClusterDir, i: nat)
    requires i < |CLIENT_CERTS| && ClientsUpTo(d, i) && FilesGrow(d, e) && OnlyWrites(d, e, CertPaths(FIXED_CERTS[3 + i]))
    ensures ClientsUpTo(e, i) && (IssuedFor(e, CLIENT_CERTS[i]) ==> ClientsUpTo(e, i + 1))
  {
    AuthoritiesStay(d, e, |AUTHORITIES|, 3 + i);
    forall j | 0 <= j < i
      ensures Issued(e, BASE_IDENTITIES[j])
    {
      OtherCert(d, e, i, j);
      IssuedChain(d, BASE_IDENTITIES[j]);
    }
    ClientIdentities(i);
    if IssuedFor(e, CLIENT_CERTS[i]) {
      IssuedForIsIssued(e, CLIENT_CERTS[i]);
    }
  }

  method CreateNextClient(cache: Cache, c: string, i: nat) returns (r: Outcome)
    requires c in cache.clusters && i < |CLIENT_CERTS| && ClientsUpTo(cache.clusters[c], i)
    modifies cache
    ensures LocalGrows(old(cache.clusters), cache.clusters, c)
    ensures r == Done || r == Failed
    ensures r == Done ==> ClientsUpTo(cache.clusters[c], i + 1)
    ensures SoundUpTo(old(cache.clusters[c]), i) ==> SoundUpTo(cache.clusters[c], i + 1)
    ensures cache.faults >= old(cache.faults) && (cache.faults == old(cache.faults) ==> r == Done)
  {
    ghost var d := cache.clusters[c];
    ClientSavesApart(i);
    ClientIdentities(i);
    BaseFiles(i);
    r := CreateCert(cache, c, CLIENT_CERTS[i]);
    if SoundUpTo(d, i) {
      OneMoreCert(d, cache.clusters[c], i);
    }
    ClientsStay(d, cache.clusters[c], i);
  }

  method CreateClientCerts(cache: Cache, c: string) returns (r: Outcome)
    requires c in cache.clusters && HasAuthorities(cache.clusters[c]) && AuthoritiesMade(cache.clusters[c], |AUTHORITIES|)
    modifies cache
    ensures LocalGrows(old(cache.clusters), cache.clusters, c)
    ensures r == Done || r == Failed
    ensures r == Done ==> HasBase(cache.clusters[c]) && AuthoritiesMade(cache.clusters[c], |AUTHORITIES|) && BaseSound(cache.clusters[c])
    ensures SoundUpTo(old(cache.clusters[c]), 0) ==> BaseSound(cache.clusters[c])
    ensures cache.faults >= old(cache.faults) && (cache.faults == old(cache.faults) ==> r == Done)
  {
    ghost var cs := cache.clusters;
    assert cs == cs[c := cs[c]];
    var i := 0;
    while i < |CLIENT_CERTS|
      invariant 0 <= i <= |CLIENT_CERTS| && LocalGrows(cs, cache.clusters, c)
      invariant ClientsUpTo(cache.clusters[c], i)
      invariant SoundUpTo(old(cache.clusters[c]), 0) ==> SoundUpTo(cache.clusters[c], i)
      invariant cache.faults >= old(cache.faults)
    {
      ghost var cs1 := cache.clusters;
      r := CreateNextClient(cache, c, i);
      LocalGrowsTwice(cs, cs1, cache.clusters, c);
      if r != Done {
        return;
      }
      i := i + 1;
    }
    AllIssued(cache.clusters[c]);
    r := Done;
  }

  lemma AllIssued(d: ClusterDir)
    requires HasAuthorities(d) && SignedUpTo(d, |BASE_IDENTITIES|)
    ensures HasBase(d) && BaseSound(d)
  {
    forall j | 0 <= j < |BASE_IDENTITIES|
      ensures HasPair(d, BASE_IDENTITIES[j].file)
    {
      IssuedChain(d, BASE_IDENTITIES[j]);
    }
    assert BaseIssued(d);
    assert HasPair(d, BASE_IDENTITIES[0].file) && HasPair(d, BASE_IDENTITIES[1].file) && HasPair(d, BASE_IDENTITIES[2].file);
    assert HasPair(d, BASE_IDENTITIES[3].file) && HasPair(d, BASE_IDENTITIES[4].file);
  }

  lemma NotIssuedIsSound(d: ClusterDir)
    requires NotYetIssued(d, 0)
    ensures SoundUpTo(d, 0)
  {
    forall j | 0 <= j < |BASE_IDENTITIES|
      ensures !HasChain(d, BASE_IDENTITIES[j])
    {
      assert CertPath(PemName(BASE_IDENTITIES[j].file)) !in d.files;
    }
    assert BaseIssued(d);
  }

  /** The three authorities are there, each with its common name. */
  ghost predicate AllAuthorities(d: ClusterDir) {
    forall x: ClusterDir | x == d :: EachAuthority(x)
  }

  ghost predicate EachAuthority(d: ClusterDir) {
    && HasAuthority(d, CAConfig("ca", "Kubernetes")) && HasAuthority(d, CAConfig("ca-aggregation", "Kubernetes Front Proxy CA"))
    && HasAuthority(d, CAConfig("ca-etcd", "etcd"))
  }

  lemma AuthoritiesAreAll(d: ClusterDir)
    requires AuthoritiesMade(d, |AUTHORITIES|)
    ensures AllAuthorities(d)
  {
    assert HasAuthority(d, AUTHORITIES[0]) && HasAuthority(d, AUTHORITIES[1]) && HasAuthority(d, AUTHORITIES[2]);
    assert EachAuthority(d);
  }

  /** createCerts: every certificate that does not depend on a running container. */
  method CreateCerts(cache: Cache, c: string) returns (r: Outcome)
    requires c in cache.clusters
    modifies cache
    ensures LocalGrows(old(cache.clusters), cache.clusters, c)
    ensures r == Done || r == Failed
    ensures r == Done ==> HasBase(cache.clusters[c]) && AllAuthorities(cache.clusters[c]) && BaseSound(cache.clusters[c])
    ensures NotYetIssued(old(cache.clusters[c]), 0) ==> BaseSound(cache.clusters[c])
    ensures cache.faults >= old(cache.faults) && (cache.faults == old(cache.faults) ==> r == Done)
  {
    ghost var d := cache.clusters[c];
    if NotYetIssued(d, 0) {
      NotIssuedIsSound(d);
    }
    var ok := cache.MakeDir(c, CERT_DIR);
    if !ok {
      return Failed;
    }
    r := CreateAuthorities(cache, c);
    if NotYetIssued(d, 0) {
      NotIssuedIsSound(cache.clusters[c]);
    }
    if r != Done {
      return;
    }
    r := CreateClientCerts(cache, c);
    if r == Done {
      AuthoritiesAreAll(cache.clusters[c]);
    }
  }

  // ---- kubeconfigs ----

  /** What the kubectl runs that build a kubeconfig with a pair read. */
  predicate CanConfigure(d: ClusterDir, pair: string) {
    KUBECONFIG_DIR in d.dirs && CertPath(PemName("ca")) in d.files && HasPair(d, pair)
  }

  /** One run of "kubectl config", with the certificate files it embeds. */
  datatype Edit =
    | SetCluster(server: string, ca: string)
    | SetCredentials(user: string, cert: string, key: string)
    | SetContext(user: string)
    | UseContext(context: string)

  /** The files the run reads. */
  function InputsOf(edit: Edit): seq<string> {
    match edit
    case SetCluster(_, ca) => [ca]
    case SetCredentials(_, cert, key) => [cert, key]
    case _ => []
  }

  function Edited(k: Kubeconfig, edit: Edit, files: map<string, string>): Kubeconfig
    requires forall f | f in InputsOf(edit) :: f in files
  {
    match edit
    case SetCluster(server, ca) =>
      assert InputsOf(edit)[0] == ca;
      k.(server := server, ca := files[ca])
    case SetCredentials(user, cert, key) =>
      assert InputsOf(edit)[0] == cert && InputsOf(edit)[1] == key;
      k.(user := user, cert := files[cert], key := files[key])
    case SetContext(user) => k.(context := user)
    case UseContext(context) => k.(current := context)
  }

  /** The kubeconfig in a file; a file that is not there counts as an empty one. */
  function ConfigAt(d: ClusterDir, file: string): Kubeconfig {
    if KubeconfigPath(file) !in d.files then EMPTY_CONFIG
    else
      var k := ReadConfig(d.files[KubeconfigPath(file)]);
      if k.Some? then k.value else EMPTY_CONFIG
  }

  lemma KubectlReads(d: ClusterDir, file: string, k: Kubeconfig)
    requires KubeconfigPath(file) in d.files && d.files[KubeconfigPath(file)] == PrintConfig(k)
    ensures ConfigAt(d, file) == k && ConfigThere(d, file)
  {
    ConfigReadsBack(k);
  }

  /** The file holds a printed kubeconfig. */
  predicate ConfigThere(d: ClusterDir, file: string) {
    KubeconfigPath(file) in d.files && d.files[KubeconfigPath(file)] == PrintConfig(ConfigAt(d, file))
  }

  /** What a successful run of kubectl does. */
  ghost predicate Ran(d: ClusterDir, e: ClusterDir, edit: Edit, file: string) {
    && (forall f | f in InputsOf(edit) :: f in d.files)
    && ConfigThere(e, file) && ConfigAt(e, file) == Edited(ConfigAt(d, file), edit, d.files)
  }

  /** Kubeconfigs lie apart from certificates and from each other. */
  lemma KubeconfigsApart(file: string, f: string)
    ensures KubeconfigPath(file) != CertPath(f)
    ensures KubeconfigPath(file) == KubeconfigPath(f) ==> file == f
  {
    assert KubeconfigPath(file)[0] == 'k' && CertPath(f)[0] == 'c';
    assert KubeconfigPath(file)[|"kubeconfigs/"|..] == file && KubeconfigPath(f)[|"kubeconfigs/"|..] == f;
  }

  lemma KubectlKeepsCerts(d: ClusterDir, e: ClusterDir, file: string)
    requires OnlyWrites(d, e, {KubeconfigPath(file)})
    ensures CertsSame(d, e)
  {
    forall f
      ensures SameFile(d, e, CertPath(f))
    {
      KubeconfigsApart(file, f);
    }
  }

  lemma OnlyWritesTwice(d0: ClusterDir, d1: ClusterDir, d2: ClusterDir, written: set<string>)
    requires OnlyWrites(d0, d1, written) && OnlyWrites(d1, d2, written)
    ensures OnlyWrites(d0, d2, written)
  {
    forall f | f !in written
      ensures SameFile(d0, d2, f)
    {
      assert SameFile(d0, d1, f) && SameFile(d1, d2, f);
    }
  }

  lemma CertsSameTwice(d0: ClusterDir, d1: ClusterDir, d2: ClusterDir)
    requires CertsSame(d0, d1) && CertsSame(d1, d2)
    ensures CertsSame(d0, d2)
  {
    forall f
      ensures SameFile(d0, d2, CertPath(f))
    {
      assert SameFile(d0, d1, CertPath(f)) && SameFile(d1, d2, CertPath(f));
    }
  }

  /** Only this kubeconfig of the cluster's was written. */
  ghost predicate WritesConfigTo(cs: map<string, ClusterDir>, cs': map<string, ClusterDir>, c: string, file: string) {
    LocalGrows(cs, cs', c) && OnlyWrites(cs[c], cs'[c], {KubeconfigPath(file)}) && SameCerts(cs[c], cs'[c])
  }

  /** The same, written with a quantifier so that provers look inside only where `WritesConfigTo` is spoken of. */
  ghost predicate WritesConfig(cs: map<string, ClusterDir>, cs': map<string, ClusterDir>, c: string, file: string) {
    forall f | f == file :: WritesConfigTo(cs, cs', c, f)
  }

  /** The certificates and the directories are as they were. */
  ghost predicate SameCerts(d: ClusterDir, e: ClusterDir) {
    CertsSame(d, e) && e.dirs == d.dirs
  }

  lemma WritesConfigMeans(cs: map<string, ClusterDir>, cs': map<string, ClusterDir>, c: string, file: string)
    requires WritesConfig(cs, cs', c, file)
    ensures WritesConfigTo(cs, cs', c, file)
  {
  }

  lemma WritesNothing(cs: map<string, ClusterDir>, c: string, file: string)
    requires c in cs
    ensures WritesConfig(cs, cs, c, file)
  {
    assert cs == cs[c := cs[c]];
    assert WritesConfigTo(cs, cs, c, file);
  }

  lemma WritesConfigTwice(cs0: map<string, ClusterDir>, cs1: map<string, ClusterDir>, cs2: map<string, ClusterDir>, c: string, file: string)
    requires WritesConfig(cs0, cs1, c, file) && WritesConfig(cs1, cs2, c, file)
    ensures WritesConfig(cs0, cs2, c, file)
  {
    assert WritesConfigTo(cs0, cs1, c, file) && WritesConfigTo(cs1, cs2, c, file);
    LocalGrowsTwice(cs0, cs1, cs2, c);
    OnlyWritesTwice(cs0[c], cs1[c], cs2[c], {KubeconfigPath(file)});
    CertsSameTwice(cs0[c], cs1[c], cs2[c]);
  }

  /** One kubectl run: embed the files it is given, rewrite the kubeconfig. */
  method Kubectl(cache: Cache, c: string, edit: Edit, file: string) returns (r: Outcome)
    requires c in cache.clusters
    modifies cache
    ensures WritesConfig(old(cache.clusters), cache.clusters, c, file) && c in cache.clusters
    ensures r != Refused
    ensures r == Done ==> KUBECONFIG_DIR in cache.clusters[c].dirs && Ran(old(cache.clusters)[c], cache.clusters[c], edit, file)
    ensures r.Missing? ==> KUBECONFIG_DIR !in old(cache.clusters)[c].dirs ||
                           exists f | f in InputsOf(edit) :: f !in old(cache.clusters)[c].files
    ensures cache.faults >= old(cache.faults)
    ensures cache.faults == old(cache.faults) ==> r == Done || r.Missing?
  {
    ghost var d := cache.clusters[c];
    WritesNothing(cache.clusters, c, file);
    var inputs := InputsOf(edit);
    for i := 0 to |inputs|
      invariant cache.clusters == old(cache.clusters) && cache.faults == old(cache.faults)
      invariant forall j | 0 <= j < i :: inputs[j] in cache.clusters[c].files
    {
      if inputs[i] !in cache.clusters[c].files {
        return Missing(inputs[i]);
      }
    }
    if KUBECONFIG_DIR !in cache.clusters[c].dirs {
      return Missing(KUBECONFIG_DIR);
    }
    var k := Edited(ConfigAt(cache.clusters[c], file), edit, cache.clusters[c].files);
    var ok := cache.WriteFile(c, KUBECONFIG_DIR, KubeconfigPath(file), PrintConfig(k));
    KubectlKeepsCerts(d, cache.clusters[c], file);
    assert WritesConfigTo(old(cache.clusters), cache.clusters, c, file);
    r := Failed;
    if ok {
      KubectlReads(cache.clusters[c], file, k);
      r := Done;
    }
  }

  /** The kubeconfig holds this server and user, the authority's certificate and the pair saved under a name. */
  predicate Configured(d: ClusterDir, file: string, server: string, user: string, pair: string) {
    && CanConfigure(d, pair) && ConfigThere(d, file)
    && ConfigAt(d, file) == Kubeconfig(server, d.files[CertPath(PemName("ca"))], user,
                                       d.files[CertPath(PemName(pair))], d.files[CertPath(KeyName(pair))], user, "default")
  }

  lemma CertsSameBoth(d: ClusterDir, e: ClusterDir, pair: string)
    requires CertsSame(d, e) && e.dirs == d.dirs
    ensures CanConfigure(d, pair) <==> CanConfigure(e, pair)
  {
    assert SameFile(d, e, CertPath(PemName("ca"))) && SameFile(d, e, CertPath(PemName(pair))) && SameFile(d, e, CertPath(KeyName(pair)));
  }

  /** The kubeconfig has the entries of its cluster and its user. */
  predicate Entered(d: ClusterDir, server: string, user: string, pair: string, file: string)
    requires CanConfigure(d, pair)
  {
    var k := ConfigAt(d, file);
    && k.server == server && k.ca == d.files[CertPath(PemName("ca"))] && k.user == user
    && k.cert == d.files[CertPath(PemName(pair))] && k.key == d.files[CertPath(KeyName(pair))]
  }

  /** The files set-cluster and set-credentials read. */
  lemma InputsAre(server: string, user: string, pair: string)
    ensures forall f :: f in InputsOf(ClusterEdit(server)) <==> f == CertPath(PemName("ca"))
    ensures forall f :: f in InputsOf(UserEdit(user, pair)) <==> f == CertPath(PemName(pair)) || f == CertPath(KeyName(pair))
  {
    assert InputsOf(ClusterEdit(server))[0] == CertPath(PemName("ca"));
    assert InputsOf(UserEdit(user, pair))[0] == CertPath(PemName(pair)) && InputsOf(UserEdit(user, pair))[1] == CertPath(KeyName(pair));
  }

  function ClusterEdit(server: string): Edit {
    SetCluster(server, CertPath(PemName("ca")))
  }

  function UserEdit(user: string, pair: string): Edit {
    SetCredentials(user, CertPath(PemName(pair)), CertPath(KeyName(pair)))
  }

  lemma FirstTwoEdits(cs0: map<string, ClusterDir>, cs1: map<string, ClusterDir>, cs2: map<string, ClusterDir>, c: string,
                      server: string, user: string, pair: string, file: string)
    requires WritesConfigTo(cs0, cs1, c, file) && Ran(cs0[c], cs1[c], ClusterEdit(server), file)
    requires WritesConfigTo(cs1, cs2, c, file) && Ran(cs1[c], cs2[c], UserEdit(user, pair), file) && KUBECONFIG_DIR in cs2[c].dirs
    ensures CanConfigure(cs2[c], pair) && Entered(cs2[c], server, user, pair, file)
  {
    var d0, d1, d2 := cs0[c], cs1[c], cs2[c];
    InputsAre(server, user, pair);
    assert SameFile(d0, d1, CertPath(PemName("ca"))) && SameFile(d1, d2, CertPath(PemName("ca")));
    assert SameFile(d1, d2, CertPath(PemName(pair))) && SameFile(d1, d2, CertPath(KeyName(pair)));
  }

  lemma MissingInputs(cs0: map<string, ClusterDir>, cs1: map<string, ClusterDir>, c: string, server: string, user: string, pair: string, file: string)
    requires WritesConfigTo(cs0, cs1, c, file)
    requires KUBECONFIG_DIR !in cs1[c].dirs || exists f | f in InputsOf(UserEdit(user, pair)) :: f !in cs1[c].files
    ensures !CanConfigure(cs0[c], pair)
  {
    InputsAre(server, user, pair);
    assert SameFile(cs0[c], cs1[c], CertPath(PemName(pair))) && SameFile(cs0[c], cs1[c], CertPath(KeyName(pair)));
  }

  /** set-cluster and set-credentials. */
  method SetEntries(cache: Cache, c: string, server: string, user: string, pair: string, file: string) returns (r: Outcome)
    requires c in cache.clusters
    modifies cache
    ensures WritesConfig(old(cache.clusters), cache.clusters, c, file) && c in cache.clusters
    ensures r != Refused
    ensures r == Done ==> CanConfigure(cache.clusters[c], pair) && Entered(cache.clusters[c], server, user, pair, file)
    ensures r.Missing? ==> !CanConfigure(old(cache.clusters)[c], pair)
    ensures cache.faults >= old(cache.faults)
    ensures cache.faults == old(cache.faults) ==> r == Done || r.Missing?
  {
    ghost var cs0 := cache.clusters;
    InputsAre(server, user, pair);
    r := Kubectl(cache, c, ClusterEdit(server), file);
    if r == Done {
      ghost var cs1 := cache.clusters;
      r := Kubectl(cache, c, UserEdit(user, pair), file);
      WritesConfigTwice(cs0, cs1, cache.clusters, c, file);
      WritesConfigMeans(cs0, cs1, c, file);
      if r == Done {
        WritesConfigMeans(cs1, cache.clusters, c, file);
        FirstTwoEdits(cs0, cs1, cache.clusters, c, server, user, pair, file);
      } else if r.Missing? {
        MissingInputs(cs0, cs1, c, server, user, pair, file);
      }
    }
  }

  lemma LastTwoEdits(cs2: map<string, ClusterDir>, cs3: map<string, ClusterDir>, cs4: map<string, ClusterDir>, c: string,
                     server: string, user: string, pair: string, file: string)
    requires WritesConfigTo(cs2, cs3, c, file) && Ran(cs2[c], cs3[c], SetContext(user), file)
    requires WritesConfigTo(cs3, cs4, c, file) && Ran(cs3[c], cs4[c], UseContext("default"), file)
    requires CanConfigure(cs2[c], pair) && Entered(cs2[c], server, user, pair, file)
    ensures Configured(cs4[c], file, server, user, pair)
  {
    var d2, d3, d4 := cs2[c], cs3[c], cs4[c];
    assert SameFile(d2, d3, CertPath(PemName("ca"))) && SameFile(d3, d4, CertPath(PemName("ca")));
    assert SameFile(d2, d3, CertPath(PemName(pair))) && SameFile(d3, d4, CertPath(PemName(pair)));
    assert SameFile(d2, d3, CertPath(KeyName(pair))) && SameFile(d3, d4, CertPath(KeyName(pair)));
  }

  /** A run that reads no certificate finds nothing missing. */
  method UseEdit(cache: Cache, c: string, edit: Edit, file: string) returns (r: Outcome)
    requires c in cache.clusters && KUBECONFIG_DIR in cache.clusters[c].dirs && (edit.SetContext? || edit.UseContext?)
    modifies cache
    ensures WritesConfig(old(cache.clusters), cache.clusters, c, file) && c in cache.clusters
    ensures r == Done || r == Failed
    ensures KUBECONFIG_DIR in cache.clusters[c].dirs
    ensures r == Done ==> Ran(old(cache.clusters)[c], cache.clusters[c], edit, file)
    ensures cache.faults >= old(cache.faults)
    ensures cache.faults == old(cache.faults) ==> r == Done
  {
    ghost var cs := cache.clusters;
    r := Kubectl(cache, c, edit, file);
    WritesConfigMeans(cs, cache.clusters, c, file);
    assert InputsOf(edit) == [];
  }

  /** set-context and use-context. */
  method UseEntries(cache: Cache, c: string, server: string, user: string, pair: string, file: string) returns (r: Outcome)
    requires c in cache.clusters && CanConfigure(cache.clusters[c], pair) && Entered(cache.clusters[c], server, user, pair, file)
    modifies cache
    ensures WritesConfig(old(cache.clusters), cache.clusters, c, file) && c in cache.clusters
    ensures r == Done || r == Failed
    ensures r == Done ==> Configured(cache.clusters[c], file, server, user, pair)
    ensures cache.faults >= old(cache.faults)
    ensures cache.faults == old(cache.faults) ==> r == Done
  {
    ghost var cs2 := cache.clusters;
    r := UseEdit(cache, c, SetContext(user), file);
    if r == Done {
      ghost var cs3 := cache.clusters;
      r := UseEdit(cache, c, UseContext("default"), file);
      WritesConfigTwice(cs2, cs3, cache.clusters, c, file);
      if r == Done {
        WritesConfigMeans(cs2, cs3, c, file);
        WritesConfigMeans(cs3, cache.clusters, c, file);
        LastTwoEdits(cs2, cs3, cache.clusters, c, server, user, pair, file);
      }
    }
  }

  /** The four kubectl runs every kubeconfig is built with: set-cluster, set-credentials, set-context, use-context. */
  method MakeKubeconfig(cache: Cache, c: string, server: string, user: string, pair: string, file: string) returns (r: Outcome)
    requires c in cache.clusters
    modifies cache
    ensures WritesConfig(old(cache.clusters), cache.clusters, c, file) && c in cache.clusters
    ensures r != Refused
    ensures r == Done ==> Configured(cache.clusters[c], file, server, user, pair)
    ensures r.Missing? ==> !CanConfigure(old(cache.clusters)[c], pair)
    ensures cache.faults >= old(cache.faults)
    ensures cache.faults == old(cache.faults) ==> r == Done || r.Missing?
  {
    ghost var cs0 := cache.clusters;
    r := SetEntries(cache, c, server, user, pair, file);
    if r == Done {
      ghost var cs1 := cache.clusters;
      r := UseEntries(cache, c, server, user, pair, file);
      WritesConfigTwice(cs0, cs1, cache.clusters, c, file);
    }
  }

  /** The address of an API server. */
  function ServerAt(host: string): string {
    "https://" + host + ":6443"
  }

  /** The host can be told from it. */
  lemma ServerTells(host: string)
    ensures HasPrefix(ServerAt(host), "https://") && HasSuffix(ServerAt(host), ":6443")
    ensures ServerAt(host)[|"https://"|..|ServerAt(host)| - |":6443"|] == host
  {
    var s := ServerAt(host);
    assert s[..8] == "https://" && s[|s| - 5..] == ":6443";
  }

  /** A kubeconfig stays as it is when another one is written. */
  lemma ConfigStays(cs: map<string, ClusterDir>, cs': map<string, ClusterDir>, c: string, file: string, server: string, user: string,
                    pair: string, other: string)
    requires WritesConfigTo(cs, cs', c, other) && Configured(cs[c], file, server, user, pair) && file != other
    ensures Configured(cs'[c], file, server, user, pair)
  {
    var d, e := cs[c], cs'[c];
    KubeconfigsApart(file, other);
    CertsSameBoth(d, e, pair);
    assert SameFile(d, e, KubeconfigPath(file)) && SameFile(d, e, CertPath(PemName("ca")));
    assert SameFile(d, e, CertPath(PemName(pair))) && SameFile(d, e, CertPath(KeyName(pair)));
  }

  /** Kubeconfigs were made; the certificates and everything else of the cluster's are as they were. */
  ghost predicate Configures(cs: map<string, ClusterDir>, cs': map<string, ClusterDir>, c: string) {
    LocalGrows(cs, cs', c) && SameCerts(cs[c], cs'[c])
  }

  lemma ConfiguresTwice(cs0: map<string, ClusterDir>, cs1: map<string, ClusterDir>, cs2: map<string, ClusterDir>, c: string)
    requires Configures(cs0, cs1, c) && Configures(cs1, cs2, c)
    ensures Configures(cs0, cs2, c)
  {
    LocalGrowsTwice(cs0, cs1, cs2, c);
    CertsSameTwice(cs0[c], cs1[c], cs2[c]);
  }

  /** Two kubeconfigs, one after the other. */
  method MakeTwo(cache: Cache, c: string, server0: string, user0: string, pair0: string, file0: string,
                 server1: string, user1: string, pair1: string, file1: string) returns (r: Outcome)
    requires c in cache.clusters && file0 != file1
    modifies cache
    ensures Configures(old(cache.clusters), cache.clusters, c)
    ensures r != Refused
    ensures r == Done ==> Configured(cache.clusters[c], file0, server0, user0, pair0) && Configured(cache.clusters[c], file1, server1, user1, pair1)
    ensures r.Missing? ==> !CanConfigure(old(cache.clusters)[c], pair0) || !CanConfigure(old(cache.clusters)[c], pair1)
    ensures cache.faults >= old(cache.faults)
    ensures cache.faults == old(cache.faults) ==> r == Done || r.Missing?
  {
    ghost var cs0 := cache.clusters;
    r := MakeKubeconfig(cache, c, server0, user0, pair0, file0);
    ghost var cs1 := cache.clusters;
    WritesConfigMeans(cs0, cs1, c, file0);
    if r == Done {
      r := MakeKubeconfig(cache, c, server1, user1, pair1, file1);
      WritesConfigMeans(cs1, cache.clusters, c, file1);
      ConfigStays(cs1, cache.clusters, c, file0, server0, user0, pair0, file1);
      CertsSameBoth(cs0[c], cs1[c], pair1);
      ConfiguresTwice(cs0, cs1, cache.clusters, c);
    }
  }

  /** The controller's kubeconfigs: the controller manager's and the scheduler's, each with its own pair. */
  ghost predicate ManagersConfigured(d: ClusterDir, ip: string, controllerIP: string) {
    forall x | x == ip :: ConfiguredManagers(d, x, controllerIP)
  }

  lemma ManagerConfigsOpen(d: ClusterDir, ip: string, controllerIP: string)
    requires ManagersConfigured(d, ip, controllerIP)
    ensures ConfiguredManagers(d, ip, controllerIP)
  {
  }

  /** The same, written out. */
  predicate ConfiguredManagers(d: ClusterDir, ip: string, controllerIP: string) {
    && Configured(d, "kube-controller-manager.kubeconfig", ServerAt(ip), "kube-controller-manager", "kube-controller-manager")
    && Configured(d, "kube-scheduler.kubeconfig", ServerAt(controllerIP), "kube-scheduler", "kube-scheduler")
  }

  /** createControllerKubeconfig, once the controller's address is known; for the scheduler the one start found is used. */
  method CreateControllerKubeconfig(cache: Cache, c: string, ip: string, controllerIP: string) returns (r: Outcome)
    requires c in cache.clusters
    modifies cache
    ensures Configures(old(cache.clusters), cache.clusters, c)
    ensures r != Refused
    ensures r.Missing? ==> !CanConfigure(old(cache.clusters)[c], "kube-controller-manager") ||
                           !CanConfigure(old(cache.clusters)[c], "kube-scheduler")
    ensures r == Done ==> ManagersConfigured(cache.clusters[c], ip, controllerIP)
    ensures cache.faults >= old(cache.faults)
    ensures cache.faults == old(cache.faults) ==> r == Done || r.Missing?
  {
    r := MakeTwo(cache, c, ServerAt(ip), "kube-controller-manager", "kube-controller-manager", "kube-controller-manager.kubeconfig",
                 ServerAt(controllerIP), "kube-scheduler", "kube-scheduler", "kube-scheduler.kubeconfig");
    assert r == Done ==> ConfiguredManagers(cache.clusters[c], ip, controllerIP);
  }

  function KubeletConfigName(node: string): string {
    node + "-kubelet.kubeconfig"
  }

  lemma NodeConfigsDiffer(node: string)
    ensures KubeletConfigName(node) != "kube-proxy.kubeconfig"
  {
    var a, b := KubeletConfigName(node), "kube-proxy.kubeconfig";
    assert a[|a| - 12] == 't' && b[|b| - 12] == 'y';
  }

  /** A node's kubeconfigs: kube-proxy's with kube-proxy's pair, the kubelet's with the node's own. */
  ghost predicate NodeConfigured(d: ClusterDir, node: string, server: string) {
    forall x | x == node :: ConfiguredNode(d, x, server)
  }

  /** The same, written out. */
  predicate ConfiguredNode(d: ClusterDir, node: string, server: string) {
    && Configured(d, "kube-proxy.kubeconfig", server, "kube-proxy", "kube-proxy")
    && Configured(d, KubeletConfigName(node), server, NodeUser(node), node)
  }

  /** createWorkerKubeconfig for a node's lower-cased name. */
  method CreateWorkerKubeconfig(cache: Cache, c: string, node: string, controllerIP: string) returns (r: Outcome)
    requires c in cache.clusters
    modifies cache
    ensures Configures(old(cache.clusters), cache.clusters, c)
    ensures r != Refused
    ensures r.Missing? ==> !CanConfigure(old(cache.clusters)[c], "kube-proxy") || !CanConfigure(old(cache.clusters)[c], node)
    ensures r == Done ==> NodeConfigured(cache.clusters[c], node, ServerAt(controllerIP))
    ensures cache.faults >= old(cache.faults)
    ensures cache.faults == old(cache.faults) ==> r == Done || r.Missing?
  {
    NodeConfigsDiffer(node);
    r := MakeTwo(cache, c, ServerAt(controllerIP), "kube-proxy", "kube-proxy", "kube-proxy.kubeconfig",
                 ServerAt(controllerIP), NodeUser(node), node, KubeletConfigName(node));
    assert r == Done ==> ConfiguredNode(cache.clusters[c], node, ServerAt(controllerIP));
  }

  lemma NodeConfigsOpen(d: ClusterDir, node: string, server: string)
    requires NodeConfigured(d, node, server)
    ensures ConfiguredNode(d, node, server)
  {
  }

  /** The users' kubeconfigs: both hold the administrator's pair. */
  ghost predicate UsersConfigured(d: ClusterDir, controllerIP: string, remote: string) {
    forall x | x == controllerIP :: ConfiguredUsers(d, x, remote)
  }

  /** Which kubeconfigs there are does not depend on the record. */
  lemma UsersWithRecord(d: ClusterDir, e: ClusterDir, controllerIP: string, remote: string)
    requires UsersConfigured(d, controllerIP, remote) && e == d.(record := e.record)
    ensures UsersConfigured(e, controllerIP, remote)
  {
    assert ConfiguredUsers(d, controllerIP, remote);
    ConfiguredWithRecord(d, e, "admin.kubeconfig", ServerAt(controllerIP), "admin", "admin");
    ConfiguredWithRecord(d, e, "client.kubeconfig", ServerAt(remote), "admin", "admin");
    assert ConfiguredUsers(e, controllerIP, remote);
  }

  lemma ConfiguredWithRecord(d: ClusterDir, e: ClusterDir, file: string, server: string, user: string, pair: string)
    requires Configured(d, file, server, user, pair) && e == d.(record := e.record)
    ensures Configured(e, file, server, user, pair)
  {
  }

  /** The same, written out. */
  predicate ConfiguredUsers(d: ClusterDir, controllerIP: string, remote: string) {
    && Configured(d, "admin.kubeconfig", ServerAt(controllerIP), "admin", "admin")
    && Configured(d, "client.kubeconfig", ServerAt(remote), "admin", "admin")
  }

  /** createAdminKubeconfig and createClientKubeconfig. */
  method MakeUserKubeconfigs(cache: Cache, c: string, controllerIP: string, remote: string) returns (r: Outcome)
    requires c in cache.clusters
    modifies cache
    ensures Configures(old(cache.clusters), cache.clusters, c)
    ensures r != Refused
    ensures r.Missing? ==> !CanConfigure(old(cache.clusters)[c], "admin")
    ensures r == Done ==> UsersConfigured(cache.clusters[c], controllerIP, remote)
    ensures cache.faults >= old(cache.faults)
    ensures cache.faults == old(cache.faults) ==> r == Done || r.Missing?
  {
    r := MakeTwo(cache, c, ServerAt(controllerIP), "admin", "admin", "admin.kubeconfig",
                 ServerAt(remote), "admin", "admin", "client.kubeconfig");
    assert r == Done ==> ConfiguredUsers(cache.clusters[c], controllerIP, remote);
  }
}
