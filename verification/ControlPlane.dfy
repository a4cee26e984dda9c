/** What start does between starting the containers and writing the record. */
module ControlPlane {
  import opened Text
  import opened Paths
  import opened Trees
  import opened Rooms
  import opened Names
  import opened Wrappers
  import opened Worlds
  import opened Addresses
  import opened Lxd
  import opened Upload
  import opened Certificates
  import opened Containers
  import opened Provision
  import opened Workers

  // ---- certificates that depend on addresses ----

  lemma ServerLeavesBase(d: ClusterDir, e: ClusterDir, k: nat)
    requires 8 <= k < |FIXED_CERTS| && OnlyWrites(d, e, CertPaths(FIXED_CERTS[k]))
    ensures BaseSame(d, e)
  {
    forall j | 0 <= j < |BASE_IDENTITIES|
      ensures SameChain(d, e, BASE_IDENTITIES[j])
    {
      BaseFiles(j);
      ServerLeaves(d, e, k, 3 + j);
      ServerLeaves(d, e, k, if BASE_IDENTITIES[j].ca == FIXED_CERTS[0] then 0 else 1);
    }
    assert SameBase(d, e);
  }

  lemma ServerLeaves(d: ClusterDir, e: ClusterDir, k: nat, i: nat)
    requires k < |FIXED_CERTS| && OnlyWrites(d, e, CertPaths(FIXED_CERTS[k])) && i < |FIXED_CERTS| && i != k
    ensures SameFile(d, e, CertPath(PemName(FIXED_CERTS[i]))) && SameFile(d, e, CertPath(KeyName(FIXED_CERTS[i])))
  {
    FixedDiffer(if i < k then i else k, if i < k then k else i);
    FixedApart(i, k);
    var name := FIXED_CERTS[i];
    assert CertPath(PemName(name)) in CertPaths(name) && CertPath(KeyName(name)) in CertPaths(name);
  }

  lemma ServerSavesApart(conf: CertConfig, k: nat, a: nat)
    requires a < 3 && 8 <= k < |FIXED_CERTS| && conf.name == FIXED_CERTS[k] && conf.ca == FIXED_CERTS[a] && conf.fileName == ""
    ensures SavesApart(conf)
  {
    FixedDiffer(a, k);
    FixedApart(a, k);
    assert CertPath(PemName(conf.ca)) in CertPaths(conf.ca);
  }

  /** A certificate that is not a container's: it bears its own name throughout. */
  function ServerIdentity(name: string, ca: string): Identity {
    Identity(name, name, name, ca)
  }

  /** Wait for a container's address and issue a server's certificate for it. */
  method IssueCert(lxd: Server, cache: Cache, c: string, container: string, name: string, ca: string, before: string, hostname: string,
                   ghost k: nat, ghost a: nat)
    returns (r: Outcome, ip: string)
    requires c in cache.clusters && a < 3 && 8 <= k < |FIXED_CERTS| && name == FIXED_CERTS[k] && ca == FIXED_CERTS[a]
    modifies cache, lxd`faults, lxd`asked
    ensures Provisions(old(Snapshot(lxd, cache)), Snapshot(lxd, cache), c, {}) && c in cache.clusters
    ensures OnlyWrites(old(cache.clusters)[c], cache.clusters[c], CertPaths(name))
    ensures r != Refused
    ensures r == Done ==> HasPair(cache.clusters[c], name) && CanSign(cache.clusters[c], ca)
    ensures r == Done ==> IssuedWith(cache.clusters[c], ServerIdentity(name, ca), before + ip + ",127.0.0.1," + hostname)
    ensures r == Done ==> '\n' !in ip && (container, ip) in lxd.reports
    ensures r.Missing? ==> !CanSign(old(cache.clusters)[c], ca)
    ensures hostname == "" ==> r != Done
    ensures Faults(lxd, cache) >= old(Faults(lxd, cache)) && old(lxd.asked) <= lxd.asked
    ensures Faults(lxd, cache) == old(Faults(lxd, cache)) ==>
              r == Done || r.Missing? || GaveUp(old(lxd.asked), lxd.asked, {container}, [hostname])
  {
    ghost var w := Snapshot(lxd, cache);
    var found := WaitContainerIP(lxd, container, [hostname]);
    r, ip := Failed, "";
    ProvisionsNothing(w, c, {});
    if found.Some? {
      ip := found.value;
      IPv4HasNoNewline(ip);
      var conf := CertConfig(name, "", name, ca, before + ip + ",127.0.0.1," + hostname, None);
      ServerSavesApart(conf, k, a);
      r := CreateCert(cache, c, conf);
      ServerLeavesBase(w.clusters[c], cache.clusters[c], k);
      LocalProvisions(w, Snapshot(lxd, cache), c, {});
    } else {
      WaitedInVain(old(lxd.asked), lxd.asked, container, {container}, [hostname]);
    }
  }

  /** The node's certificate is for an address reported for it. */
  ghost predicate NodeNamed(d: ClusterDir, n: string, reports: set<(string, string)>) {
    exists ip :: (n, ip) in reports && NodeIssued(d, n, ip)
  }

  lemma NamedIsIssued(d: ClusterDir, n: string, reports: set<(string, string)>)
    requires NodeNamed(d, n, reports)
    ensures Issued(d, NodeIdentity(ToLower(n)))
  {
    var ip :| (n, ip) in reports && NodeIssued(d, n, ip);
    IssuedWithIsIssued(d, NodeIdentity(ToLower(n)), ip + "," + n);
  }

  lemma NodeNamedStays(d: ClusterDir, e: ClusterDir, n: string, reports: set<(string, string)>)
    requires NodeNamed(d, n, reports) && SameChain(d, e, NodeIdentity(ToLower(n)))
    ensures NodeNamed(e, n, reports)
  {
    var ip :| (n, ip) in reports && NodeIssued(d, n, ip);
    IssuedWithStays(d, e, NodeIdentity(ToLower(n)), ip + "," + n);
    assert NodeIssued(e, n, ip);
  }

  /** Another node's certificate leaves this node's alone. */
  lemma NodeLeavesNode(d: ClusterDir, e: ClusterDir, x: string, y: string, cluster: string)
    requires OwnedBy(x, cluster) && OwnedBy(y, cluster) && x != y && OnlyWrites(d, e, CertPaths(ToLower(x)))
    ensures SameChain(d, e, NodeIdentity(ToLower(y)))
  {
    var name := ToLower(y);
    assert CertFile(PemName(name), name) && CertFile(KeyName(name), name);
    WorkerCertsApart(d, e, x, cluster, PemName(name));
    WorkerCertsApart(d, e, x, cluster, KeyName(name));
    NodeLeavesFixed(d, e, x, cluster, 0);
  }

  /** The certificates of the first nodes are there and say what they are to say. */
  ghost predicate NodesNamed(d: ClusterDir, nodes: seq<string>, n: nat, reports: set<(string, string)>)
    requires n <= |nodes|
  {
    forall j | 0 <= j < n :: NodeNamed(d, nodes[j], reports)
  }

  lemma NodesNamedNext(d: ClusterDir, e: ClusterDir, nodes: seq<string>, i: nat, cluster: string, reports: set<(string, string)>)
    requires i < |nodes| && (forall j | 0 <= j < |nodes| :: OwnedBy(nodes[j], cluster)) && NodesNamed(d, nodes, i, reports)
    requires OnlyWrites(d, e, CertPaths(ToLower(nodes[i]))) && NodeNamed(e, nodes[i], reports)
    ensures NodesNamed(e, nodes, i + 1, reports)
  {
    forall j | 0 <= j < i + 1
      ensures NodeNamed(e, nodes[j], reports)
    {
      if nodes[j] != nodes[i] {
        NodeLeavesNode(d, e, nodes[i], nodes[j], cluster);
        NodeNamedStays(d, e, nodes[j], reports);
      }
    }
  }

  /** The certificates of etcd's and the API server's are as they were. */
  ghost predicate ServersSame(d: ClusterDir, e: ClusterDir) {
    SameChain(d, e, ETCD_IDENTITY) && SameChain(d, e, API_IDENTITY)
  }

  lemma NodeLeavesServers(d: ClusterDir, e: ClusterDir, container: string, cluster: string)
    requires OwnedBy(container, cluster) && OnlyWrites(d, e, CertPaths(ToLower(container)))
    ensures ServersSame(d, e)
  {
    NodeLeavesFixed(d, e, container, cluster, 8);
    NodeLeavesFixed(d, e, container, cluster, 9);
    NodeLeavesFixed(d, e, container, cluster, 2);
    NodeLeavesFixed(d, e, container, cluster, 0);
  }

  lemma ServersSameTwice(d0: ClusterDir, d1: ClusterDir, d2: ClusterDir)
    requires ServersSame(d0, d1) && ServersSame(d1, d2)
    ensures ServersSame(d0, d2)
  {
  }

  lemma ServersSameSelf(d: ClusterDir)
    ensures ServersSame(d, d)
  {
  }

  /** The loop of start over workers and controller. */
  method IssueNodeCerts(lxd: Server, cache: Cache, c: string, nodes: seq<string>, hostname: string) returns (r: Outcome)
    requires c in cache.clusters && forall i | 0 <= i < |nodes| :: OwnedBy(nodes[i], c)
    modifies cache, lxd`faults, lxd`asked
    ensures Provisions(old(Snapshot(lxd, cache)), Snapshot(lxd, cache), c, {}) && c in cache.clusters
    ensures ServersSame(old(cache.clusters)[c], cache.clusters[c])
    ensures r != Refused
    ensures r == Done ==> NodesNamed(cache.clusters[c], nodes, |nodes|, lxd.reports)
    ensures r.Missing? ==> !CanSign(old(cache.clusters)[c], "ca")
    ensures Faults(lxd, cache) >= old(Faults(lxd, cache)) && old(lxd.asked) <= lxd.asked
    ensures Faults(lxd, cache) == old(Faults(lxd, cache)) ==>
              r == Done || r.Missing? || GaveUp(old(lxd.asked), lxd.asked, NameSet(nodes), [hostname])
  {
    ghost var w := Snapshot(lxd, cache);
    ProvisionsNothing(w, c, {});
    ServersSameSelf(w.clusters[c]);
    r := Done;
    var i := 0;
    while i < |nodes| && r == Done
      invariant 0 <= i <= |nodes| && c in cache.clusters && r != Refused
      invariant Provisions(w, Snapshot(lxd, cache), c, {}) && ServersSame(w.clusters[c], cache.clusters[c])
      invariant r == Done ==> NodesNamed(cache.clusters[c], nodes, i, lxd.reports)
      invariant r.Missing? ==> !CanSign(w.clusters[c], "ca")
      invariant Faults(lxd, cache) >= old(Faults(lxd, cache)) && old(lxd.asked) <= lxd.asked
      invariant Faults(lxd, cache) == old(Faults(lxd, cache)) ==>
                  r == Done || r.Missing? || GaveUp(old(lxd.asked), lxd.asked, NameSet(nodes), [hostname])
      decreases |nodes| - i
    {
      r := IssueNodeCert(lxd, cache, c, nodes, i, hostname, w, old(lxd.asked));
      i := i + 1;
    }
  }

  /** One turn of it. */
  method IssueNodeCert(lxd: Server, cache: Cache, c: string, nodes: seq<string>, i: nat, hostname: string,
                       ghost w: World, ghost asked: seq<Ask>)
    returns (r: Outcome)
    requires c in cache.clusters && i < |nodes| && forall j | 0 <= j < |nodes| :: OwnedBy(nodes[j], c)
    requires Provisions(w, Snapshot(lxd, cache), c, {}) && ServersSame(w.clusters[c], cache.clusters[c])
    requires NodesNamed(cache.clusters[c], nodes, i, lxd.reports) && asked <= lxd.asked
    modifies cache, lxd`faults, lxd`asked
    ensures c in cache.clusters && Provisions(w, Snapshot(lxd, cache), c, {}) && ServersSame(w.clusters[c], cache.clusters[c])
    ensures r != Refused
    ensures r == Done ==> NodesNamed(cache.clusters[c], nodes, i + 1, lxd.reports)
    ensures r.Missing? ==> !CanSign(w.clusters[c], "ca")
    ensures Faults(lxd, cache) >= old(Faults(lxd, cache)) && asked <= lxd.asked
    ensures Faults(lxd, cache) == old(Faults(lxd, cache)) ==>
              r == Done || r.Missing? || GaveUp(asked, lxd.asked, NameSet(nodes), [hostname])
  {
    ghost var w1 := Snapshot(lxd, cache);
    r := CreateWorkerCert(lxd, cache, c, nodes[i], hostname);
    ghost var w2 := Snapshot(lxd, cache);
    ProvisionsTwice(w, w1, w2, c, {});
    DirGrows(w, w1, c, {});
    NodeLeavesServers(w1.clusters[c], w2.clusters[c], nodes[i], c);
    ServersSameTwice(w.clusters[c], w1.clusters[c], w2.clusters[c]);
    if r == Done {
      NodesNamedNext(w1.clusters[c], w2.clusters[c], nodes, i, c, lxd.reports);
    } else if GaveUp(old(lxd.asked), lxd.asked, {nodes[i]}, [hostname]) {
      GaveUpWider(asked, old(lxd.asked), lxd.asked, lxd.asked, {nodes[i]}, NameSet(nodes), [hostname]);
    }
  }

  /** The local files of the cluster have only become more, and the base certificates are as they were. */
  lemma DirGrows(w: World, w': World, c: string, names: set<string>)
    requires Provisions(w, w', c, names)
    ensures c in w.clusters && c in w'.clusters && FilesGrow(w.clusters[c], w'.clusters[c]) && BaseSame(w.clusters[c], w'.clusters[c])
  {
  }

  /** Everything start issues before it configures any container. */
  ghost predicate CertsIssued(d: ClusterDir, nodes: seq<string>) {
    && HasPair(d, "etcd") && HasPair(d, "kubernetes") && CanSign(d, "ca") && CanSign(d, "ca-etcd")
    && forall i | 0 <= i < |nodes| :: HasPair(d, ToLower(nodes[i]))
  }

  /** What etcd's and the API server's certificates say: whose they are, which authority issued them, and for which hosts. */
  ghost predicate ServersNamed(d: ClusterDir, etcdIP: string, controllerIP: string, hostname: string) {
    && IssuedWith(d, ETCD_IDENTITY, etcdIP + ",127.0.0.1," + hostname)
    && IssuedWith(d, API_IDENTITY, "10.32.0.1," + controllerIP + ",127.0.0.1," + hostname)
  }

  lemma ServersNamedStay(d: ClusterDir, e: ClusterDir, etcdIP: string, controllerIP: string, hostname: string)
    requires ServersNamed(d, etcdIP, controllerIP, hostname) && ServersSame(d, e)
    ensures ServersNamed(e, etcdIP, controllerIP, hostname)
  {
    IssuedWithStays(d, e, ETCD_IDENTITY, etcdIP + ",127.0.0.1," + hostname);
    IssuedWithStays(d, e, API_IDENTITY, "10.32.0.1," + controllerIP + ",127.0.0.1," + hostname);
  }

  lemma EtcdStaysIssued(d: ClusterDir, e: ClusterDir, hosts: string)
    requires IssuedWith(d, ETCD_IDENTITY, hosts) && OnlyWrites(d, e, CertPaths("kubernetes"))
    ensures IssuedWith(e, ETCD_IDENTITY, hosts)
  {
    ServerLeaves(d, e, 9, 8);
    ServerLeaves(d, e, 9, 2);
    IssuedWithStays(d, e, ETCD_IDENTITY, hosts);
  }

  /** etcd's certificate, then the API server's. */
  method IssueServerCerts(lxd: Server, cache: Cache, c: string, s: ClusterState, hostname: string)
    returns (r: Outcome, etcdIP: string, controllerIP: string)
    requires c in cache.clusters
    modifies cache, lxd`faults, lxd`asked
    ensures Provisions(old(Snapshot(lxd, cache)), Snapshot(lxd, cache), c, {}) && c in cache.clusters
    ensures r != Refused
    ensures r == Done ==> ServersNamed(cache.clusters[c], etcdIP, controllerIP, hostname)
    ensures r == Done ==> CanSign(cache.clusters[c], "ca") && CanSign(cache.clusters[c], "ca-etcd")
    ensures r == Done ==> '\n' !in etcdIP && (s.etcd, etcdIP) in lxd.reports && (s.controller, controllerIP) in lxd.reports
    ensures r.Missing? ==> !HasBase(old(cache.clusters)[c])
    ensures hostname == "" ==> r != Done
    ensures Faults(lxd, cache) >= old(Faults(lxd, cache)) && old(lxd.asked) <= lxd.asked
    ensures Faults(lxd, cache) == old(Faults(lxd, cache)) ==>
              r == Done || r.Missing? || GaveUp(old(lxd.asked), lxd.asked, {s.etcd, s.controller}, [hostname])
  {
    ghost var w0 := Snapshot(lxd, cache);
    controllerIP := "";
    r, etcdIP := IssueCert(lxd, cache, c, s.etcd, "etcd", "ca-etcd", "", hostname, 8, 2);
    ghost var w1, asked := Snapshot(lxd, cache), lxd.asked;
    assert "" + etcdIP + ",127.0.0.1," + hostname == etcdIP + ",127.0.0.1," + hostname;
    DirGrows(w0, w1, c, {});
    if r == Done {
      r, controllerIP := IssueCert(lxd, cache, c, s.controller, "kubernetes", "ca", "10.32.0.1,", hostname, 9, 0);
      ghost var w2 := Snapshot(lxd, cache);
      DirGrows(w1, w2, c, {});
      ProvisionsTwice(w0, w1, w2, c, {});
      EtcdStaysIssued(w1.clusters[c], w2.clusters[c], etcdIP + ",127.0.0.1," + hostname);
      if GaveUp(asked, lxd.asked, {s.controller}, [hostname]) {
        GaveUpWider(old(lxd.asked), asked, lxd.asked, lxd.asked, {s.controller}, {s.etcd, s.controller}, [hostname]);
      }
    } else if GaveUp(old(lxd.asked), lxd.asked, {s.etcd}, [hostname]) {
      GaveUpWider(old(lxd.asked), old(lxd.asked), lxd.asked, lxd.asked, {s.etcd}, {s.etcd, s.controller}, [hostname]);
    }
  }

  lemma NamedAreIssued(d: ClusterDir, nodes: seq<string>, reports: set<(string, string)>, etcdIP: string, controllerIP: string, hostname: string)
    requires ServersNamed(d, etcdIP, controllerIP, hostname) && NodesNamed(d, nodes, |nodes|, reports)
    requires CanSign(d, "ca") && CanSign(d, "ca-etcd")
    ensures CertsIssued(d, nodes) && CertsTrusted(d, nodes)
  {
    forall i | 0 <= i < |nodes|
      ensures Issued(d, NodeIdentity(ToLower(nodes[i]))) && HasPair(d, ToLower(nodes[i]))
    {
      NamedIsIssued(d, nodes[i], reports);
      IssuedChain(d, NodeIdentity(ToLower(nodes[i])));
    }
    IssuedWithIsIssued(d, ETCD_IDENTITY, etcdIP + ",127.0.0.1," + hostname);
    IssuedWithIsIssued(d, API_IDENTITY, "10.32.0.1," + controllerIP + ",127.0.0.1," + hostname);
    IssuedChain(d, ETCD_IDENTITY);
    IssuedChain(d, API_IDENTITY);
  }

  /** The certificates start issues are their owners', each issued by its authority. */
  ghost predicate CertsTrusted(d: ClusterDir, nodes: seq<string>) {
    && Issued(d, ETCD_IDENTITY) && Issued(d, API_IDENTITY)
    && forall i | 0 <= i < |nodes| :: Issued(d, NodeIdentity(ToLower(nodes[i])))
  }

  /** The certificates start issues, in the source's order. */
  method IssueStartCerts(lxd: Server, cache: Cache, c: string, s: ClusterState, nodes: seq<string>, hostname: string)
    returns (r: Outcome, etcdIP: string, controllerIP: string)
    requires c in cache.clusters && forall i | 0 <= i < |nodes| :: OwnedBy(nodes[i], c)
    modifies cache, lxd`faults, lxd`asked
    ensures Provisions(old(Snapshot(lxd, cache)), Snapshot(lxd, cache), c, {}) && c in cache.clusters
    ensures r != Refused
    ensures r == Done ==> ServersNamed(cache.clusters[c], etcdIP, controllerIP, hostname) && NodesNamed(cache.clusters[c], nodes, |nodes|, lxd.reports)
    ensures r == Done ==> CertsIssued(cache.clusters[c], nodes) && CertsTrusted(cache.clusters[c], nodes)
    ensures r == Done ==> '\n' !in etcdIP && (s.etcd, etcdIP) in lxd.reports && (s.controller, controllerIP) in lxd.reports
    ensures r.Missing? ==> !HasBase(old(cache.clusters)[c])
    ensures hostname == "" ==> r != Done
    ensures Faults(lxd, cache) >= old(Faults(lxd, cache)) && old(lxd.asked) <= lxd.asked
    ensures Faults(lxd, cache) == old(Faults(lxd, cache)) ==>
              r == Done || r.Missing? || GaveUp(old(lxd.asked), lxd.asked, {s.etcd, s.controller} + NameSet(nodes), [hostname])
  {
    ghost var w0, all := Snapshot(lxd, cache), {s.etcd, s.controller} + NameSet(nodes);
    r, etcdIP, controllerIP := IssueServerCerts(lxd, cache, c, s, hostname);
    ghost var w1, asked := Snapshot(lxd, cache), lxd.asked;
    if r == Done {
      r := IssueNodeCerts(lxd, cache, c, nodes, hostname);
      ghost var w2 := Snapshot(lxd, cache);
      DirGrows(w1, w2, c, {});
      ProvisionsTwice(w0, w1, w2, c, {});
      ServersNamedStay(w1.clusters[c], w2.clusters[c], etcdIP, controllerIP, hostname);
      if r == Done {
        NamedAreIssued(w2.clusters[c], nodes, lxd.reports, etcdIP, controllerIP, hostname);
      } else if GaveUp(asked, lxd.asked, NameSet(nodes), [hostname]) {
        GaveUpWider(old(lxd.asked), asked, lxd.asked, lxd.asked, NameSet(nodes), all, [hostname]);
      }
    } else if GaveUp(old(lxd.asked), lxd.asked, {s.etcd, s.controller}, [hostname]) {
      GaveUpWider(old(lxd.asked), old(lxd.asked), lxd.asked, lxd.asked, {s.etcd, s.controller}, all, [hostname]);
    }
  }

  // ---- etcd and registry ----

  const ETCD_FILES := [PemName("etcd"), KeyName("etcd"), PemName("ca-etcd")]

  lemma EtcdNames()
    ensures PushedNames(ETCD_FILES) && PushDir(ETCD_DIR) && IsFolder("certificates/") && PushedName("env")
  {
    PushedPair("etcd");
    PushedPair("ca-etcd");
  }

  lemma EtcdLocal(d: ClusterDir)
    requires Issued(d, ETCD_IDENTITY)
    ensures HasLocal(d, "certificates/", ETCD_FILES)
  {
    IssuedChain(d, ETCD_IDENTITY);
  }

  lemma EtcdFileNames()
    ensures PemName("etcd") in ETCD_FILES && KeyName("etcd") in ETCD_FILES && PemName("ca-etcd") in ETCD_FILES
    ensures "env" !in ETCD_FILES
  {
    assert ETCD_FILES[0] == PemName("etcd") && ETCD_FILES[1] == KeyName("etcd") && ETCD_FILES[2] == PemName("ca-etcd");
    assert |ETCD_FILES[0]| > 3 && |ETCD_FILES[1]| > 3 && |ETCD_FILES[2]| > 3;
  }

  /** A service that needs an environment file is ready once that and its files are there and it can be trusted. */
  lemma ReadyWithEnv(t: Nodes, container: string, service: Service, more: seq<string>)
    requires NamedFiles(service, container) == [UnitPath(service)] + more && EnvFile(service).Some?
    requires HasAll(t, [UnitPath(service)]) && HasAll(t, more) && Trusted(t, container, service)
    requires HoldsEtcdEnv(t, EnvFile(service).value)
    ensures ReadyIn(t, container, service)
  {
    HasAllJoin(t, [UnitPath(service)], more);
  }

  lemma EnvIsThere(t: Nodes, path: string)
    requires HoldsEtcdEnv(t, path)
    ensures HasAll(t, [path])
  {
  }

  lemma EtcdNamed(container: string)
    ensures NamedFiles(EtcdService, container) == [UnitPath(EtcdService)] + ([ETCD_DIR + "env"] + Under(ETCD_DIR, ETCD_FILES))
  {
    var files := Under(ETCD_DIR, ETCD_FILES);
    assert files == [ETCD_DIR + PemName("etcd"), ETCD_DIR + KeyName("etcd"), ETCD_DIR + PemName("ca-etcd")];
  }

  lemma EtcdReady(t: Nodes, d: ClusterDir, container: string)
    requires Copied(t, ETCD_DIR, d, "certificates/", ETCD_FILES) && Issued(d, ETCD_IDENTITY)
    requires FitsRole(t, Etcd) && HoldsEtcdEnv(t, ETCD_DIR + "env")
    ensures ReadyIn(t, container, EtcdService)
  {
    FitsOpens(t, Etcd);
    EtcdFileNames();
    PairCopied(t, ETCD_DIR, d, ETCD_FILES, ETCD_IDENTITY);
    CopiedHasAll(t, ETCD_DIR, d, "certificates/", ETCD_FILES);
    EnvIsThere(t, ETCD_DIR + "env");
    HasAllJoin(t, [ETCD_DIR + "env"], Under(ETCD_DIR, ETCD_FILES));
    EtcdNamed(container);
    ReadyWithEnv(t, container, EtcdService, [ETCD_DIR + "env"] + Under(ETCD_DIR, ETCD_FILES));
  }

  const ETCD_COMMANDS := [Exec, Exec, Systemctl(EtcdService)]
  const REGISTRY_COMMANDS := [Exec, Exec, Systemctl(RegistryService)]

  lemma OneServiceReady(t: Nodes, container: string, commands: seq<Command>, service: Service)
    requires ReadyIn(t, container, service) && forall s | Systemctl(s) in commands :: s == service
    ensures CommandsReady(t, container, commands)
  {
  }

  lemma SingleServices()
    ensures Systemctl(EtcdService) in ETCD_COMMANDS && forall s | Systemctl(s) in ETCD_COMMANDS :: s == EtcdService
    ensures Systemctl(RegistryService) in REGISTRY_COMMANDS && forall s | Systemctl(s) in REGISTRY_COMMANDS :: s == RegistryService
  {
    assert ETCD_COMMANDS[2] == Systemctl(EtcdService) && REGISTRY_COMMANDS[2] == Systemctl(RegistryService);
  }

  /** RunCommands of commands that start one service. */
  method RunService(lxd: Server, cache: Cache, c: string, container: string, commands: seq<Command>, ghost service: Service) returns (r: Outcome)
    requires c in cache.clusters && Systemctl(service) in commands && forall s | Systemctl(s) in commands :: s == service
    requires container in lxd.instances ==> ReadyIn(lxd.instances[container].tree, container, service)
    modifies lxd`starts, lxd`faults
    ensures Provisions(old(Snapshot(lxd, cache)), Snapshot(lxd, cache), c, {container})
    ensures r == Done || r == Failed
    ensures r == Done ==> WasStarted(old(lxd.starts), lxd.starts, container, service)
    ensures lxd.faults >= old(lxd.faults) && (lxd.faults == old(lxd.faults) && container in lxd.instances ==> r == Done)
  {
    if container in lxd.instances {
      OneServiceReady(lxd.instances[container].tree, container, commands, service);
    }
    r := RunAll(lxd, cache, c, container, commands);
    if r == Done {
      StartedWithIsStarted(old(lxd.starts), lxd.starts, container, service, lxd.instances[container].tree);
    }
  }

  /** etcd's part of start. */
  method ConfigureEtcd(lxd: Server, cache: Cache, c: string, container: string, etcdIP: string) returns (r: Outcome)
    requires '\n' !in etcdIP && c in cache.clusters && Issued(cache.clusters[c], ETCD_IDENTITY) && FitsIn(lxd.instances, container, Etcd)
    modifies lxd`instances, lxd`starts, lxd`faults
    ensures Provisions(old(Snapshot(lxd, cache)), Snapshot(lxd, cache), c, {container})
    ensures r == Done || r == Failed
    ensures r == Done ==> WasStarted(old(lxd.starts), lxd.starts, container, EtcdService)
    ensures r == Done ==> container in lxd.instances && Holds(lxd.instances[container].tree, ETCD_DIR + "env", EtcdEnv(etcdIP))
    ensures lxd.faults >= old(lxd.faults) && (lxd.faults == old(lxd.faults) && container in old(lxd.instances) ==> r == Done)
  {
    ghost var w0 := Snapshot(lxd, cache);
    EtcdNames();
    EtcdLocal(cache.clusters[c]);
    if container in lxd.instances {
      FitsHasRoom(lxd.instances[container].tree, Etcd);
    }
    r := PushLocal(lxd, cache, c, "certificates/", ETCD_FILES, ETCD_DIR, container);
    if r == Done {
      ghost var w1 := Snapshot(lxd, cache);
      FitsKept(w0, w1, c, {container}, container, Etcd);
      r := StartEtcd(lxd, cache, c, container, etcdIP);
      ProvisionsTwice(w0, w1, Snapshot(lxd, cache), c, {container});
    }
  }

  method StartEtcd(lxd: Server, cache: Cache, c: string, container: string, etcdIP: string) returns (r: Outcome)
    requires '\n' !in etcdIP && c in cache.clusters && Issued(cache.clusters[c], ETCD_IDENTITY) && FitsIn(lxd.instances, container, Etcd)
    requires container in lxd.instances && Copied(lxd.instances[container].tree, ETCD_DIR, cache.clusters[c], "certificates/", ETCD_FILES)
    modifies lxd`instances, lxd`starts, lxd`faults
    ensures Provisions(old(Snapshot(lxd, cache)), Snapshot(lxd, cache), c, {container})
    ensures r == Done || r == Failed
    ensures r == Done ==> WasStarted(old(lxd.starts), lxd.starts, container, EtcdService)
    ensures r == Done ==> container in lxd.instances && Holds(lxd.instances[container].tree, ETCD_DIR + "env", EtcdEnv(etcdIP))
    ensures lxd.faults >= old(lxd.faults) && (lxd.faults == old(lxd.faults) ==> r == Done)
  {
    ghost var w0 := Snapshot(lxd, cache);
    EtcdNames();
    FitsHasRoom(lxd.instances[container].tree, Etcd);
    r := PushData(lxd, cache, c, EtcdEnv(etcdIP), ETCD_DIR, "env", container);
    if r == Done {
      ghost var w1 := Snapshot(lxd, cache);
      FitsKept(w0, w1, c, {container}, container, Etcd);
      EtcdEnvLeavesReady(w0.instances[container].tree, w1.instances[container].tree, cache.clusters[c], container, etcdIP);
      SingleServices();
      assert lxd.starts == w0.starts;
      r := RunService(lxd, cache, c, container, ETCD_COMMANDS, EtcdService);
      assert lxd.instances == w1.instances;
      ProvisionsTwice(w0, w1, Snapshot(lxd, cache), c, {container});
    }
  }

  lemma EtcdEnvLeavesReady(t: Nodes, u: Nodes, d: ClusterDir, container: string, etcdIP: string)
    requires Copied(t, ETCD_DIR, d, "certificates/", ETCD_FILES) && Issued(d, ETCD_IDENTITY) && OthersKept(t, u, ["env"])
    requires FitsRole(u, Etcd) && '\n' !in etcdIP && Holds(u, ETCD_DIR + "env", EtcdEnv(etcdIP))
    ensures ReadyIn(u, container, EtcdService)
  {
    EtcdNames();
    EtcdFileNames();
    CopiedKept(t, u, ETCD_DIR, d, "certificates/", ETCD_FILES, ["env"]);
    EtcdReady(u, d, container);
  }

  lemma RegistryReady(t: Nodes, container: string)
    requires FitsRole(t, Registry)
    ensures ReadyIn(t, container, RegistryService)
  {
    FitsOpens(t, Registry);
    assert NamedFiles(RegistryService, container) == RoleFiles(Registry);
  }

  /** The registry's part of start. */
  method ConfigureRegistry(lxd: Server, cache: Cache, c: string, container: string) returns (r: Outcome)
    requires c in cache.clusters && FitsIn(lxd.instances, container, Registry)
    modifies lxd`starts, lxd`faults
    ensures Provisions(old(Snapshot(lxd, cache)), Snapshot(lxd, cache), c, {container})
    ensures r == Done || r == Failed
    ensures r == Done ==> WasStarted(old(lxd.starts), lxd.starts, container, RegistryService)
    ensures lxd.faults >= old(lxd.faults) && (lxd.faults == old(lxd.faults) && container in lxd.instances ==> r == Done)
  {
    if container in lxd.instances {
      RegistryReady(lxd.instances[container].tree, container);
    }
    SingleServices();
    r := RunService(lxd, cache, c, container, REGISTRY_COMMANDS, RegistryService);
  }

  // ---- controller ----

  const CONTROLLER_CERTS := [
    PemName("kubernetes"), KeyName("kubernetes"), PemName("ca"), KeyName("ca"), PemName("etcd"), KeyName("etcd"),
    PemName("ca-etcd"), PemName("ca-aggregation"), PemName("aggregation-client"), KeyName("aggregation-client")]

  const CONTROLLER_KUBECONFIGS := ["kube-controller-manager.kubeconfig", "kube-scheduler.kubeconfig"]

  lemma ControllerCertNames(a: string, b: string, e: string, f: string, g: string, h: string)
    requires '/' !in a && '/' !in b && '/' !in e && '/' !in f && '/' !in g && '/' !in h
    ensures PemNames([PemName(a), KeyName(a), PemName(b), KeyName(b), PemName(e), KeyName(e), PemName(f), PemName(g), PemName(h), KeyName(h)])
  {
    PemOf(a);
    PemOf(b);
    PemOf(e);
    PemOf(f);
    PemOf(g);
    PemOf(h);
    var one := [PemName(a), KeyName(a)] + [PemName(b), KeyName(b)];
    var two := [PemName(e), KeyName(e)] + [PemName(f)];
    var three := [PemName(g)] + [PemName(h), KeyName(h)];
    PemNamesJoin([PemName(a), KeyName(a)], [PemName(b), KeyName(b)]);
    PemNamesJoin([PemName(e), KeyName(e)], [PemName(f)]);
    PemNamesJoin([PemName(g)], [PemName(h), KeyName(h)]);
    PemNamesJoin(one, two);
    PemNamesJoin(one + two, three);
    assert [PemName(a), KeyName(a), PemName(b), KeyName(b), PemName(e), KeyName(e), PemName(f), PemName(g), PemName(h), KeyName(h)]
        == one + two + three;
  }

  lemma ControllerNames()
    ensures PushedNames(CONTROLLER_CERTS) && PushedNames(CONTROLLER_KUBECONFIGS) && Apart(CONTROLLER_CERTS, CONTROLLER_KUBECONFIGS)
    ensures "env" !in CONTROLLER_CERTS + CONTROLLER_KUBECONFIGS
  {
    ControllerCertNames("kubernetes", "ca", "etcd", "ca-etcd", "ca-aggregation", "aggregation-client");
    WorkerConfigNames("kube-controller-manager", "kube-scheduler");
    assert "kube-controller-manager" + ".kubeconfig" == "kube-controller-manager.kubeconfig";
    assert "kube-scheduler" + ".kubeconfig" == "kube-scheduler.kubeconfig";
    SuffixesApart(CONTROLLER_CERTS, CONTROLLER_KUBECONFIGS);
  }

  /** The certificates start pushes to the controller. */
  predicate HasControllerCerts(d: ClusterDir) {
    && HasPair(d, "kubernetes") && HasPair(d, "ca") && HasPair(d, "etcd") && HasPair(d, "ca-etcd")
    && HasPair(d, "ca-aggregation") && HasPair(d, "aggregation-client")
    && HasPair(d, "kube-controller-manager") && HasPair(d, "kube-scheduler")
  }

  lemma ControllerLocal(d: ClusterDir, e: ClusterDir)
    requires HasControllerCerts(d) && FilesGrow(d, e)
    ensures HasLocal(e, "certificates/", CONTROLLER_CERTS)
  {
  }

  lemma ControllerCertsAre()
    ensures PemName("kubernetes") in CONTROLLER_CERTS && KeyName("kubernetes") in CONTROLLER_CERTS
    ensures PemName("ca") in CONTROLLER_CERTS && KeyName("ca") in CONTROLLER_CERTS
    ensures PemName("etcd") in CONTROLLER_CERTS && KeyName("etcd") in CONTROLLER_CERTS && PemName("ca-etcd") in CONTROLLER_CERTS
    ensures PemName("aggregation-client") in CONTROLLER_CERTS && KeyName("aggregation-client") in CONTROLLER_CERTS
    ensures PemName("ca-aggregation") in CONTROLLER_CERTS
  {
    assert CONTROLLER_CERTS[0] == PemName("kubernetes") && CONTROLLER_CERTS[1] == KeyName("kubernetes");
    assert CONTROLLER_CERTS[2] == PemName("ca") && CONTROLLER_CERTS[3] == KeyName("ca");
    assert CONTROLLER_CERTS[4] == PemName("etcd") && CONTROLLER_CERTS[5] == KeyName("etcd");
    assert CONTROLLER_CERTS[6] == PemName("ca-etcd") && CONTROLLER_CERTS[7] == PemName("ca-aggregation");
    assert CONTROLLER_CERTS[8] == PemName("aggregation-client") && CONTROLLER_CERTS[9] == KeyName("aggregation-client");
  }

  lemma ControllerConfigsAre()
    ensures CONTROLLER_KUBECONFIGS[0] == "kube-controller-manager.kubeconfig" && CONTROLLER_KUBECONFIGS[1] == "kube-scheduler.kubeconfig"
    ensures CONTROLLER_KUBECONFIGS[0] in CONTROLLER_KUBECONFIGS && CONTROLLER_KUBECONFIGS[1] in CONTROLLER_KUBECONFIGS
  {
  }

  /** Which of create's and start's certificates the controller's services rest on. */
  ghost predicate PlaneCertified(d: ClusterDir) {
    BaseSound(d) && Issued(d, ETCD_IDENTITY) && Issued(d, API_IDENTITY)
  }

  lemma PlaneStaysCertified(d: ClusterDir, e: ClusterDir)
    requires PlaneCertified(d) && CertsSame(d, e)
    ensures PlaneCertified(e)
  {
    CertsSameBase(d, e);
    BaseStaysSound(d, e);
    CertsSameChain(d, e, ETCD_IDENTITY);
    IssuedStays(d, e, ETCD_IDENTITY);
    CertsSameChain(d, e, API_IDENTITY);
    IssuedStays(d, e, API_IDENTITY);
  }

  /** The controller's tree holds its secrets as they are in the cache. */
  ghost predicate PlaneSecrets(t: Nodes, d: ClusterDir) {
    SecretsAt(t, d, CONTROLLER_CERTS, CONTROLLER_KUBECONFIGS)
  }

  /** An identity's pair, copied with its authority's certificate, is there. */
  lemma ChainThere(t: Nodes, to: string, d: ClusterDir, certs: seq<string>, id: Identity)
    requires Copied(t, to, d, "certificates/", certs)
    requires PemName(id.file) in certs && KeyName(id.file) in certs && PemName(id.ca) in certs
    ensures HasChain(d, id)
  {
    assert CopiedOne(t, to, d, "certificates/", PemName(id.file)) && CopiedOne(t, to, d, "certificates/", KeyName(id.file));
    assert CopiedOne(t, to, d, "certificates/", PemName(id.ca));
  }

  lemma BaseNames()
    ensures BASE_IDENTITIES[1].file == "aggregation-client" && BASE_IDENTITIES[1].ca == "ca-aggregation"
    ensures BASE_IDENTITIES[2].file == "kube-controller-manager" && BASE_IDENTITIES[2].ca == "ca"
    ensures BASE_IDENTITIES[3].file == "kube-scheduler" && BASE_IDENTITIES[3].ca == "ca"
  {
  }

  lemma ApiServerTrusted(t: Nodes, d: ClusterDir, container: string)
    requires PlaneSecrets(t, d) && PlaneCertified(d)
    ensures Trusted(t, container, ApiServer)
  {
    ControllerCertsAre();
    BaseNames();
    ChainThere(t, KUBE_DIR, d, CONTROLLER_CERTS, BASE_IDENTITIES[1]);
    BaseSays(d, 1);
    PairCopied(t, KUBE_DIR, d, CONTROLLER_CERTS, API_IDENTITY);
    PairCopied(t, KUBE_DIR, d, CONTROLLER_CERTS, ETCD_IDENTITY);
    PairCopied(t, KUBE_DIR, d, CONTROLLER_CERTS, BASE_IDENTITIES[1]);
  }

  lemma ApiServerFiles()
    ensures forall x | x in API_SERVER_FILES :: x in CONTROLLER_CERTS
  {
  }

  lemma ApiServerNamed(container: string)
    ensures NamedFiles(ApiServer, container) == [UnitPath(ApiServer)] + ([LXDK_DIR + "env"] + Under(KUBE_DIR, API_SERVER_FILES))
  {
  }

  /** The controller's image brings the units of its services, and the scheduler's configuration. */
  lemma ControllerUnits(t: Nodes)
    requires FitsRole(t, Controller)
    ensures HasAll(t, [UnitPath(ApiServer)]) && HasAll(t, [UnitPath(ControllerManager)]) && HasAll(t, [UnitPath(Scheduler)])
    ensures HasAll(t, [SCHEDULER_CONFIG]) && FitsRole(t, Worker)
  {
    FitsOpens(t, Controller);
    var files := RoleFiles(Controller);
    assert files[2] == UnitPath(ApiServer) && files[3] == UnitPath(ControllerManager) && files[4] == UnitPath(Scheduler);
    assert files[5] == SCHEDULER_CONFIG;
    HasAllMember(t, files, files[2]);
    HasAllMember(t, files, files[3]);
    HasAllMember(t, files, files[4]);
    HasAllMember(t, files, files[5]);
    ControllerServesNodes(t);
  }

  lemma ControllerServesNodes(t: Nodes)
    requires HasAll(t, RoleFiles(Controller)) && Roomy(t)
    ensures FitsRole(t, Worker)
  {
    assert RoleFiles(Worker)[0] == RoleFiles(Controller)[0] && RoleFiles(Worker)[1] == RoleFiles(Controller)[1];
    assert RoleFits(t, Worker);
  }

  lemma ApiServerReady(t: Nodes, d: ClusterDir, container: string)
    requires PlaneSecrets(t, d) && PlaneCertified(d) && HoldsEtcdEnv(t, LXDK_DIR + "env") && FitsRole(t, Controller)
    ensures ReadyIn(t, container, ApiServer)
  {
    ControllerUnits(t);
    ApiServerTrusted(t, d, container);
    CopiedHasAll(t, KUBE_DIR, d, "certificates/", CONTROLLER_CERTS);
    ApiServerFiles();
    HasAllOf(t, KUBE_DIR, API_SERVER_FILES, CONTROLLER_CERTS);
    EnvIsThere(t, LXDK_DIR + "env");
    HasAllJoin(t, [LXDK_DIR + "env"], Under(KUBE_DIR, API_SERVER_FILES));
    ApiServerNamed(container);
    ReadyWithEnv(t, container, ApiServer, [LXDK_DIR + "env"] + Under(KUBE_DIR, API_SERVER_FILES));
  }

  /** A kubeconfig made with a base identity's pair is the identity's in the container. */
  lemma BaseConfigCopied(t: Nodes, d: ClusterDir, file: string, server: string, user: string, i: nat)
    requires PlaneSecrets(t, d) && BaseSound(d) && i < |BASE_IDENTITIES| && BASE_IDENTITIES[i].ca == "ca" && file in CONTROLLER_KUBECONFIGS
    requires Configured(d, file, server, user, BASE_IDENTITIES[i].file)
    ensures HoldsConfig(t, file, user, BASE_IDENTITIES[i])
  {
    ControllerCertsAre();
    BaseSays(d, i);
    ConfigCopied(t, d, CONTROLLER_CERTS, CONTROLLER_KUBECONFIGS, file, server, user, BASE_IDENTITIES[i]);
  }

  lemma ManagersTrusted(t: Nodes, d: ClusterDir, container: string, ip: string, controllerIP: string)
    requires PlaneSecrets(t, d) && PlaneCertified(d) && ManagersConfigured(d, ip, controllerIP)
    ensures Trusted(t, container, ControllerManager) && Trusted(t, container, Scheduler)
  {
    ManagerConfigsOpen(d, ip, controllerIP);
    ControllerConfigsAre();
    BaseNames();
    BaseConfigCopied(t, d, "kube-controller-manager.kubeconfig", ServerAt(ip), "kube-controller-manager", 2);
    BaseConfigCopied(t, d, "kube-scheduler.kubeconfig", ServerAt(controllerIP), "kube-scheduler", 3);
  }

  lemma ManagersNamed(container: string)
    ensures NamedFiles(ControllerManager, container) ==
            [UnitPath(ControllerManager)] + ([KUBE_DIR + PemName("ca")] + [KUBE_DIR + KeyName("ca")] + [KUBE_DIR + "kube-controller-manager.kubeconfig"])
    ensures NamedFiles(Scheduler, container) == [UnitPath(Scheduler)] + ([SCHEDULER_CONFIG] + [KUBE_DIR + "kube-scheduler.kubeconfig"])
  {
  }

  lemma CopiedThere(t: Nodes, to: string, d: ClusterDir, folder: string, files: seq<string>, f: string)
    requires Copied(t, to, d, folder, files) && f in files
    ensures HasAll(t, [to + f])
  {
    assert CopiedOne(t, to, d, folder, f);
  }

  lemma ManagerFiles(t: Nodes, d: ClusterDir)
    requires PlaneSecrets(t, d)
    ensures HasAll(t, [KUBE_DIR + PemName("ca")] + [KUBE_DIR + KeyName("ca")] + [KUBE_DIR + "kube-controller-manager.kubeconfig"])
    ensures HasAll(t, [KUBE_DIR + "kube-scheduler.kubeconfig"])
  {
    ControllerCertsAre();
    ControllerConfigsAre();
    CopiedThere(t, KUBE_DIR, d, "certificates/", CONTROLLER_CERTS, PemName("ca"));
    CopiedThere(t, KUBE_DIR, d, "certificates/", CONTROLLER_CERTS, KeyName("ca"));
    CopiedThere(t, KUBE_DIR, d, "kubeconfigs/", CONTROLLER_KUBECONFIGS, "kube-controller-manager.kubeconfig");
    CopiedThere(t, KUBE_DIR, d, "kubeconfigs/", CONTROLLER_KUBECONFIGS, "kube-scheduler.kubeconfig");
    HasAllJoin(t, [KUBE_DIR + PemName("ca")], [KUBE_DIR + KeyName("ca")]);
    HasAllJoin(t, [KUBE_DIR + PemName("ca")] + [KUBE_DIR + KeyName("ca")], [KUBE_DIR + "kube-controller-manager.kubeconfig"]);
  }

  lemma ManagersReady(t: Nodes, d: ClusterDir, container: string, ip: string, controllerIP: string)
    requires PlaneSecrets(t, d) && PlaneCertified(d) && ManagersConfigured(d, ip, controllerIP) && FitsRole(t, Controller)
    ensures ReadyIn(t, container, ControllerManager) && ReadyIn(t, container, Scheduler)
  {
    ControllerUnits(t);
    ManagersTrusted(t, d, container, ip, controllerIP);
    ManagerFiles(t, d);
    ManagersNamed(container);
    HasAllJoin(t, [SCHEDULER_CONFIG], [KUBE_DIR + "kube-scheduler.kubeconfig"]);
    ReadyWith(t, container, ControllerManager,
              [KUBE_DIR + PemName("ca")] + [KUBE_DIR + KeyName("ca")] + [KUBE_DIR + "kube-controller-manager.kubeconfig"]);
    ReadyWith(t, container, Scheduler, [SCHEDULER_CONFIG] + [KUBE_DIR + "kube-scheduler.kubeconfig"]);
  }

  const CONTROLLER_COMMANDS := [
    Exec, Exec, Systemctl(ApiServer), Exec, Systemctl(ControllerManager), Exec, Systemctl(Scheduler), Exec]

  lemma ControllerCommandsStart()
    ensures Systemctl(ApiServer) in CONTROLLER_COMMANDS && Systemctl(ControllerManager) in CONTROLLER_COMMANDS
    ensures Systemctl(Scheduler) in CONTROLLER_COMMANDS
    ensures forall x | Systemctl(x) in CONTROLLER_COMMANDS :: x == ApiServer || x == ControllerManager || x == Scheduler
  {
    assert CONTROLLER_COMMANDS[2] == Systemctl(ApiServer) && CONTROLLER_COMMANDS[4] == Systemctl(ControllerManager);
    assert CONTROLLER_COMMANDS[6] == Systemctl(Scheduler);
  }

  lemma ThreeServicesReady(t: Nodes, container: string, commands: seq<Command>, x: Service, y: Service, z: Service)
    requires ReadyIn(t, container, x) && ReadyIn(t, container, y) && ReadyIn(t, container, z)
    requires forall s | Systemctl(s) in commands :: s == x || s == y || s == z
    ensures CommandsReady(t, container, commands)
  {
  }

  lemma ControllerCommandsReady(t: Nodes, d: ClusterDir, container: string, ip: string, controllerIP: string)
    requires PlaneSecrets(t, d) && PlaneCertified(d) && ManagersConfigured(d, ip, controllerIP) && FitsRole(t, Controller)
    requires HoldsEtcdEnv(t, LXDK_DIR + "env")
    ensures CommandsReady(t, container, CONTROLLER_COMMANDS)
  {
    ApiServerReady(t, d, container);
    ManagersReady(t, d, container, ip, controllerIP);
    ControllerCommandsStart();
    ThreeServicesReady(t, container, CONTROLLER_COMMANDS, ApiServer, ControllerManager, Scheduler);
  }

  /** What createControllerKubeconfig reads. */
  predicate CanConfigureManagers(d: ClusterDir) {
    CanConfigure(d, "kube-controller-manager") && CanConfigure(d, "kube-scheduler")
  }

  /** Both kubeconfigs of the controller were made, one of them with an address reported for it just now. */
  ghost predicate ManagersMade(d: ClusterDir, container: string, controllerIP: string, reports: set<(string, string)>) {
    exists ip :: (container, ip) in reports && ManagersConfigured(d, ip, controllerIP)
  }

  /** createControllerKubeconfig: wait for the address, then make both kubeconfigs. */
  method MakeControllerKubeconfigs(lxd: Server, cache: Cache, c: string, container: string, controllerIP: string, hostname: string)
    returns (r: Outcome)
    requires c in cache.clusters
    modifies cache, lxd`faults, lxd`asked
    ensures Provisions(old(Snapshot(lxd, cache)), Snapshot(lxd, cache), c, {container})
    ensures c in cache.clusters && CertsSame(old(cache.clusters)[c], cache.clusters[c])
    ensures r != Refused
    ensures r.Missing? ==> !CanConfigureManagers(old(cache.clusters)[c])
    ensures r == Done ==> ManagersMade(cache.clusters[c], container, controllerIP, lxd.reports)
    ensures Faults(lxd, cache) >= old(Faults(lxd, cache)) && old(lxd.asked) <= lxd.asked
    ensures Faults(lxd, cache) == old(Faults(lxd, cache)) ==>
              r == Done || r.Missing? || GaveUp(old(lxd.asked), lxd.asked, {container}, [hostname])
  {
    ghost var w := Snapshot(lxd, cache);
    ProvisionsNothing(w, c, {container});
    var ip := WaitContainerIP(lxd, container, [hostname]);
    r := Failed;
    if ip.Some? {
      r := CreateControllerKubeconfig(cache, c, ip.value, controllerIP);
      CertsSameBase(w.clusters[c], cache.clusters[c]);
      LocalProvisions(w, Snapshot(lxd, cache), c, {container});
    } else {
      WaitedInVain(old(lxd.asked), lxd.asked, container, {container}, [hostname]);
    }
  }

  /** The first environment file, then the kubeconfigs. */
  method PushEnvAndConfigs(lxd: Server, cache: Cache, c: string, container: string, etcdIP: string, controllerIP: string, hostname: string)
    returns (r: Outcome)
    requires '\n' !in etcdIP && c in cache.clusters
    modifies cache, lxd`instances, lxd`faults, lxd`asked
    ensures Provisions(old(Snapshot(lxd, cache)), Snapshot(lxd, cache), c, {container})
    ensures c in cache.clusters && CertsSame(old(cache.clusters)[c], cache.clusters[c])
    ensures r != Refused
    ensures r.Missing? ==> !CanConfigureManagers(old(cache.clusters)[c])
    ensures r == Done ==>
              && container in lxd.instances && HoldsEtcdEnv(lxd.instances[container].tree, LXDK_DIR + "env")
              && ManagersMade(cache.clusters[c], container, controllerIP, lxd.reports)
    ensures Faults(lxd, cache) >= old(Faults(lxd, cache)) && old(lxd.asked) <= lxd.asked
    ensures Faults(lxd, cache) == old(Faults(lxd, cache)) && RoomIn(old(lxd.instances), container) ==>
              r == Done || r.Missing? || GaveUp(old(lxd.asked), lxd.asked, {container}, [hostname])
  {
    ghost var w0 := Snapshot(lxd, cache);
    EnvIsPushed();
    r := PushData(lxd, cache, c, EtcdEnv(etcdIP), LXDK_DIR, "env", container);
    if r == Done {
      ghost var w1 := Snapshot(lxd, cache);
      r := MakeControllerKubeconfigs(lxd, cache, c, container, controllerIP, hostname);
      ProvisionsTwice(w0, w1, Snapshot(lxd, cache), c, {container});
    }
  }

  lemma ManagersConfigurable(d: ClusterDir, e: ClusterDir)
    requires HasControllerCerts(d) && FilesGrow(d, e) && KUBECONFIG_DIR in e.dirs
    ensures CanConfigureManagers(e)
  {
  }

  lemma OnlyDirsMore(d: ClusterDir, e: ClusterDir)
    requires e == d.(dirs := e.dirs)
    ensures CertsSame(d, e)
  {
  }

  /** The controller's environment and kubeconfigs are made; the quantifier keeps provers from looking inside where they need not. */
  ghost predicate ControllerPrepared(m: map<string, Instance>, d: ClusterDir, container: string, controllerIP: string,
                                     reports: set<(string, string)>) {
    forall x | x == container :: PreparedController(m, d, x, controllerIP, reports)
  }

  ghost predicate PreparedController(m: map<string, Instance>, d: ClusterDir, container: string, controllerIP: string,
                                     reports: set<(string, string)>) {
    && container in m && HoldsEtcdEnv(m[container].tree, LXDK_DIR + "env") && ManagersMade(d, container, controllerIP, reports)
    && KUBECONFIG_DIR in d.dirs
  }

  lemma PreparedOpens(m: map<string, Instance>, d: ClusterDir, container: string, controllerIP: string, reports: set<(string, string)>)
    requires ControllerPrepared(m, d, container, controllerIP, reports)
    ensures PreparedController(m, d, container, controllerIP, reports)
  {
  }

  /** The kubeconfigs directory and the first environment file, then the kubeconfigs. */
  method PrepareController(lxd: Server, cache: Cache, c: string, container: string, etcdIP: string, controllerIP: string, hostname: string)
    returns (r: Outcome)
    requires '\n' !in etcdIP && c in cache.clusters
    modifies cache, lxd`instances, lxd`faults, lxd`asked
    ensures Provisions(old(Snapshot(lxd, cache)), Snapshot(lxd, cache), c, {container})
    ensures c in cache.clusters && CertsSame(old(cache.clusters)[c], cache.clusters[c])
    ensures r != Refused
    ensures r.Missing? ==> !HasControllerCerts(old(cache.clusters)[c])
    ensures r == Done ==> ControllerPrepared(lxd.instances, cache.clusters[c], container, controllerIP, lxd.reports)
    ensures Faults(lxd, cache) >= old(Faults(lxd, cache)) && old(lxd.asked) <= lxd.asked
    ensures Faults(lxd, cache) == old(Faults(lxd, cache)) && RoomIn(old(lxd.instances), container) ==>
              r == Done || r.Missing? || GaveUp(old(lxd.asked), lxd.asked, {container}, [hostname])
  {
    ghost var w0 := Snapshot(lxd, cache);
    var ok := cache.MakeDir(c, KUBECONFIG_DIR);
    ghost var w1 := Snapshot(lxd, cache);
    OnlyDirsMore(w0.clusters[c], w1.clusters[c]);
    CertsSameBase(w0.clusters[c], w1.clusters[c]);
    LocalProvisions(w0, w1, c, {container});
    r := Failed;
    if ok {
      if HasControllerCerts(w0.clusters[c]) {
        ManagersConfigurable(w0.clusters[c], w1.clusters[c]);
      }
      r := PushEnvAndConfigs(lxd, cache, c, container, etcdIP, controllerIP, hostname);
      ghost var w2 := Snapshot(lxd, cache);
      ProvisionsTwice(w0, w1, w2, c, {container});
      DirGrows(w1, w2, c, {container});
      CertsSameTwice(w0.clusters[c], w1.clusters[c], w2.clusters[c]);
      assert r == Done ==> PreparedController(lxd.instances, w2.clusters[c], container, controllerIP, lxd.reports);
    }
  }

  /** The three services of the controller were started. */
  ghost predicate ManagersStarted(a: seq<ServiceStart>, b: seq<ServiceStart>, container: string) {
    forall s | OfController(s) :: WasStarted(a, b, container, s)
  }

  /** The services of the controller besides those of every node. */
  predicate OfController(s: Service) {
    s == ApiServer || s == ControllerManager || s == Scheduler
  }

  /** The kubeconfigs of the controller's two clients of the API server name it by these addresses. */
  ghost predicate ServersIn(t: Nodes, ip: string, controllerIP: string) {
    forall x | x == ip :: BothServers(t, x, controllerIP)
  }

  ghost predicate BothServers(t: Nodes, ip: string, controllerIP: string) {
    HasServer(t, "kube-controller-manager.kubeconfig", ServerAt(ip)) && HasServer(t, "kube-scheduler.kubeconfig", ServerAt(controllerIP))
  }

  /** The controller manager and the scheduler were started, knowing the API server by an address reported for it and by this one. */
  ghost predicate PlaneTold(a: seq<ServiceStart>, b: seq<ServiceStart>, container: string, controllerIP: string, reports: set<(string, string)>) {
    exists ip, t :: (container, ip) in reports && PlaneToldAs(a, b, container, ip, controllerIP, t)
  }

  ghost predicate PlaneToldAs(a: seq<ServiceStart>, b: seq<ServiceStart>, container: string, ip: string, controllerIP: string, t: Nodes) {
    && ServersIn(t, ip, controllerIP)
    && StartedWith(a, b, container, ControllerManager, t) && StartedWith(a, b, container, Scheduler, t)
  }

  lemma StartedWithWider(a0: seq<ServiceStart>, a: seq<ServiceStart>, b: seq<ServiceStart>, b1: seq<ServiceStart>,
                         container: string, service: Service, t: Nodes)
    requires StartedWith(a, b, container, service, t) && a0 <= a && b <= b1
    ensures StartedWith(a0, b1, container, service, t)
  {
    var k :| |a| <= k < |b| && IsStart(b[k], container, service) && b[k].tree == t;
    assert b1[k] == b[k];
  }

  lemma PlaneToldWider(a0: seq<ServiceStart>, a: seq<ServiceStart>, b: seq<ServiceStart>, b1: seq<ServiceStart>,
                       container: string, controllerIP: string, reports: set<(string, string)>)
    requires PlaneTold(a, b, container, controllerIP, reports) && a0 <= a && b <= b1
    ensures PlaneTold(a0, b1, container, controllerIP, reports)
  {
    var ip, t :| (container, ip) in reports && PlaneToldAs(a, b, container, ip, controllerIP, t);
    StartedWithWider(a0, a, b, b1, container, ControllerManager, t);
    StartedWithWider(a0, a, b, b1, container, Scheduler, t);
    assert PlaneToldAs(a0, b1, container, ip, controllerIP, t);
  }

  /** The services were started when the kubeconfigs in the container named these servers. */
  lemma PlaneIsTold(a: seq<ServiceStart>, b: seq<ServiceStart>, container: string, controllerIP: string, reports: set<(string, string)>, t: Nodes)
    requires forall s | Systemctl(s) in CONTROLLER_COMMANDS :: StartedWith(a, b, container, s, t)
    requires ToldIn(t, container, controllerIP, reports)
    ensures PlaneTold(a, b, container, controllerIP, reports)
  {
    ControllerCommandsStart();
    var ip :| (container, ip) in reports && ServersIn(t, ip, controllerIP);
    assert PlaneToldAs(a, b, container, ip, controllerIP, t);
  }

  ghost predicate ToldIn(t: Nodes, container: string, controllerIP: string, reports: set<(string, string)>) {
    exists ip :: (container, ip) in reports && ServersIn(t, ip, controllerIP)
  }

  lemma ServersCopied(t: Nodes, d: ClusterDir, container: string, ip: string, controllerIP: string)
    requires PlaneSecrets(t, d) && ManagersConfigured(d, ip, controllerIP)
    ensures ServersIn(t, ip, controllerIP)
  {
    ManagerConfigsOpen(d, ip, controllerIP);
    ControllerConfigsAre();
    ServerCopied(t, d, CONTROLLER_KUBECONFIGS, "kube-controller-manager.kubeconfig", ServerAt(ip), "kube-controller-manager", "kube-controller-manager");
    ServerCopied(t, d, CONTROLLER_KUBECONFIGS, "kube-scheduler.kubeconfig", ServerAt(controllerIP), "kube-scheduler", "kube-scheduler");
    assert BothServers(t, ip, controllerIP);
  }

  lemma EtcdEnvKept(t: Nodes, u: Nodes, dir: string, name: string, files: seq<string>)
    requires HoldsEtcdEnv(t, dir + name) && IsFolder(dir) && ProperName(name) && OthersKept(t, u, files) && name !in files
    ensures HoldsEtcdEnv(u, dir + name)
  {
    var ip :| '\n' !in ip && Holds(t, dir + name, EtcdEnv(ip));
    HoldsKept(t, u, dir, name, EtcdEnv(ip), files);
  }

  lemma EnvFolder()
    ensures IsFolder(LXDK_DIR) && ProperName("env")
  {
  }

  lemma ControllerEnvKept(t: Nodes, u: Nodes)
    requires HoldsEtcdEnv(t, LXDK_DIR + "env") && OthersKept(t, u, CONTROLLER_CERTS + CONTROLLER_KUBECONFIGS)
    ensures HoldsEtcdEnv(u, LXDK_DIR + "env")
  {
    EnvFolder();
    ControllerNames();
    EtcdEnvKept(t, u, LXDK_DIR, "env", CONTROLLER_CERTS + CONTROLLER_KUBECONFIGS);
  }

  /** The controller's secrets are in place, and everything else it needs was. */
  lemma SecretsLeaveReady(m: map<string, Instance>, m': map<string, Instance>, container: string, d: ClusterDir, controllerIP: string,
                          reports: set<(string, string)>)
    requires HasSecrets(m, m', container, d, CONTROLLER_CERTS, CONTROLLER_KUBECONFIGS)
    requires container in m && HoldsEtcdEnv(m[container].tree, LXDK_DIR + "env") && FitsIn(m', container, Controller)
    requires ManagersMade(d, container, controllerIP, reports) && PlaneCertified(d)
    ensures container in m' && CommandsReady(m'[container].tree, container, CONTROLLER_COMMANDS)
    ensures ToldIn(m'[container].tree, container, controllerIP, reports)
  {
    var t, u :| HaveTrees(m, m', container, t, u) && SecretsAt(u, d, CONTROLLER_CERTS, CONTROLLER_KUBECONFIGS) &&
                OthersKept(t, u, CONTROLLER_CERTS + CONTROLLER_KUBECONFIGS);
    var ip :| (container, ip) in reports && ManagersConfigured(d, ip, controllerIP);
    ControllerEnvKept(t, u);
    ControllerCommandsReady(u, d, container, ip, controllerIP);
    ServersCopied(u, d, container, ip, controllerIP);
  }

  lemma ManagersMadeLocal(d: ClusterDir, container: string, controllerIP: string, reports: set<(string, string)>)
    requires ManagersMade(d, container, controllerIP, reports)
    ensures HasLocal(d, "kubeconfigs/", CONTROLLER_KUBECONFIGS)
  {
    var ip :| (container, ip) in reports && ManagersConfigured(d, ip, controllerIP);
    ManagerConfigsOpen(d, ip, controllerIP);
    ControllerConfigsAre();
  }

  lemma ManagersWereStarted(a: seq<ServiceStart>, b: seq<ServiceStart>, container: string, tree: Nodes)
    requires forall s | Systemctl(s) in CONTROLLER_COMMANDS :: StartedWith(a, b, container, s, tree)
    ensures ManagersStarted(a, b, container)
  {
    ControllerCommandsStart();
    forall s | OfController(s)
      ensures WasStarted(a, b, container, s)
    {
      StartedWithIsStarted(a, b, container, s, tree);
    }
  }

  /** Push the controller's files and start its services. */
  method StartController(lxd: Server, cache: Cache, c: string, container: string, ghost controllerIP: string) returns (r: Outcome)
    requires c in cache.clusters && PlaneCertified(cache.clusters[c])
    requires ControllerPrepared(lxd.instances, cache.clusters[c], container, controllerIP, lxd.reports)
    requires FitsIn(lxd.instances, container, Controller)
    modifies lxd`instances, lxd`starts, lxd`faults
    ensures Provisions(old(Snapshot(lxd, cache)), Snapshot(lxd, cache), c, {container})
    ensures r != Refused
    ensures r.Missing? ==> !HasLocal(cache.clusters[c], "certificates/", CONTROLLER_CERTS)
    ensures r == Done ==> ManagersStarted(old(lxd.starts), lxd.starts, container) && KUBECONFIG_DIR in cache.clusters[c].dirs
    ensures r == Done ==> PlaneTold(old(lxd.starts), lxd.starts, container, controllerIP, lxd.reports)
    ensures lxd.faults >= old(lxd.faults) && (lxd.faults == old(lxd.faults) ==> r == Done || r.Missing?)
  {
    ghost var w0 := Snapshot(lxd, cache);
    PreparedOpens(lxd.instances, cache.clusters[c], container, controllerIP, lxd.reports);
    ControllerNames();
    ManagersMadeLocal(cache.clusters[c], container, controllerIP, lxd.reports);
    FitsHasRoom(lxd.instances[container].tree, Controller);
    r := PushSecrets(lxd, cache, c, CONTROLLER_CERTS, CONTROLLER_KUBECONFIGS, container);
    if r == Done {
      ghost var w1 := Snapshot(lxd, cache);
      FitsKept(w0, w1, c, {container}, container, Controller);
      SecretsLeaveReady(w0.instances, w1.instances, container, cache.clusters[c], controllerIP, lxd.reports);
      assert lxd.starts == w0.starts;
      r := RunAll(lxd, cache, c, container, CONTROLLER_COMMANDS);
      ProvisionsTwice(w0, w1, Snapshot(lxd, cache), c, {container});
      if r == Done {
        ManagersWereStarted(w1.starts, lxd.starts, container, lxd.instances[container].tree);
        PlaneIsTold(w1.starts, lxd.starts, container, controllerIP, lxd.reports, lxd.instances[container].tree);
      }
    }
  }

  /** The second half: what the controller's certificates are is as it was, and so is whether they are all there. */
  method StartPrepared(lxd: Server, cache: Cache, c: string, container: string, ghost controllerIP: string, ghost w0: World) returns (r: Outcome)
    requires c in cache.clusters && c in w0.clusters && PlaneCertified(w0.clusters[c]) && CertsSame(w0.clusters[c], cache.clusters[c])
    requires Provisions(w0, Snapshot(lxd, cache), c, {container})
    requires ControllerPrepared(lxd.instances, cache.clusters[c], container, controllerIP, lxd.reports)
    requires FitsIn(w0.instances, container, Controller)
    modifies lxd`instances, lxd`starts, lxd`faults
    ensures Provisions(w0, Snapshot(lxd, cache), c, {container})
    ensures r != Refused
    ensures r.Missing? ==> !HasControllerCerts(w0.clusters[c])
    ensures r == Done ==> ManagersStarted(old(lxd.starts), lxd.starts, container) && KUBECONFIG_DIR in cache.clusters[c].dirs
    ensures r == Done ==> PlaneTold(old(lxd.starts), lxd.starts, container, controllerIP, lxd.reports)
    ensures lxd.faults >= old(lxd.faults) && (lxd.faults == old(lxd.faults) ==> r == Done || r.Missing?)
  {
    ghost var w1 := Snapshot(lxd, cache);
    DirGrows(w0, w1, c, {container});
    if HasControllerCerts(w0.clusters[c]) {
      ControllerLocal(w0.clusters[c], w1.clusters[c]);
    }
    FitsKept(w0, w1, c, {container}, container, Controller);
    PlaneStaysCertified(w0.clusters[c], w1.clusters[c]);
    r := StartController(lxd, cache, c, container, controllerIP);
    ProvisionsTwice(w0, w1, Snapshot(lxd, cache), c, {container});
  }

  /** The controller's part of start. */
  method ConfigureController(lxd: Server, cache: Cache, c: string, container: string, etcdIP: string, controllerIP: string, hostname: string)
    returns (r: Outcome)
    requires '\n' !in etcdIP && c in cache.clusters && FitsIn(lxd.instances, container, Controller) && PlaneCertified(cache.clusters[c])
    modifies cache, lxd`instances, lxd`starts, lxd`faults, lxd`asked
    ensures Provisions(old(Snapshot(lxd, cache)), Snapshot(lxd, cache), c, {container})
    ensures c in cache.clusters && CertsSame(old(cache.clusters)[c], cache.clusters[c])
    ensures r != Refused
    ensures r.Missing? ==> !HasControllerCerts(old(cache.clusters)[c])
    ensures r == Done ==> KUBECONFIG_DIR in cache.clusters[c].dirs
    ensures r == Done ==> ManagersStarted(old(lxd.starts), lxd.starts, container)
    ensures r == Done ==> PlaneTold(old(lxd.starts), lxd.starts, container, controllerIP, lxd.reports)
    ensures Faults(lxd, cache) >= old(Faults(lxd, cache)) && old(lxd.asked) <= lxd.asked
    ensures Faults(lxd, cache) == old(Faults(lxd, cache)) && container in old(lxd.instances) ==>
              r == Done || r.Missing? || GaveUp(old(lxd.asked), lxd.asked, {container}, [hostname])
  {
    ghost var w0 := Snapshot(lxd, cache);
    if container in lxd.instances {
      FitsHasRoom(lxd.instances[container].tree, Controller);
    }
    r := PrepareController(lxd, cache, c, container, etcdIP, controllerIP, hostname);
    if r == Done {
      assert lxd.starts == w0.starts;
      r := StartPrepared(lxd, cache, c, container, controllerIP, w0);
    }
  }
}
