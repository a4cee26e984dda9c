/** configureWorker and createWorkerCert: making a running container a node of the cluster. */
module Workers {
  import opened Text
  import opened Paths
  import opened Trees
  import opened Rooms
  import opened Names
  import opened Wrappers
  import opened Credentials
  import opened Worlds
  import opened Addresses
  import opened Lxd
  import opened Upload
  import opened Certificates
  import opened Containers
  import opened Provision

  lemma IPv4HasNoNewline(s: string)
    requires IPv4Text(s)
    ensures '\n' !in s
  {
    var parts := Split(s, ".");
    JoinSplit(s, '.');
    assert forall i | 0 <= i < 4 :: Octet(parts[i]);
    JoinHasNoNewline(parts);
  }

  lemma {:induction false} JoinHasNoNewline(parts: seq<string>)
    requires |parts| >= 1 && forall i | 0 <= i < |parts| :: '\n' !in parts[i]
    ensures '\n' !in Join(parts, ".")
  {
    if |parts| > 1 {
      assert forall i | 0 <= i < |parts| - 1 :: parts[1..][i] == parts[i + 1];
      JoinHasNoNewline(parts[1..]);
    }
  }

  /** kubernetes.WorkerRegistriesConfig: its prefixes and locations that name the registry, line by line. */
  function RegistryLines(registryName: string, registryIP: string): seq<string> {
    [registryName + ":5000", registryName + ":5000", registryName + ":5000",
     registryIP + ":-127.0.0.1}:5000", registryIP + ":-127.0.0.1}:5000"]
  }

  /** A worker's registry configuration, as far as it names the registry. */
  function RegistriesConfig(registryName: string, registryIP: string): string {
    Join(RegistryLines(registryName, registryIP), "\n")
  }

  /** kubernetes.KubeletConfig, as far as it names files. */
  function KubeletConfig(node: string): string {
    Join(KubeletConfigFiles(node), "\n")
  }

  /** kubernetes.KubeletUnitConfig, as far as it names files. */
  function KubeletUnit(node: string): string {
    Join(KubeletUnitFiles(node), "\n")
  }

  /**
    The registry's lines are its name at port 5000, three times, and its address
    with something between it and the port; so no line is the address at port 5000.
   */
  lemma RegistriesTell(registryName: string, registryIP: string)
    requires '\n' !in registryName && IPv4Text(registryIP) && HasPrefix(registryName, "lxdk-")
    ensures Bindings(RegistriesConfig(registryName, registryIP)) == RegistryLines(registryName, registryIP)
    ensures registryName + ":5000" in Bindings(RegistriesConfig(registryName, registryIP))
    ensures registryIP + ":5000" !in Bindings(RegistriesConfig(registryName, registryIP))
  {
    IPv4HasNoNewline(registryIP);
    var lines := RegistryLines(registryName, registryIP);
    LinesBack(lines);
    assert lines[0] == registryName + ":5000";
    AddressStarts(registryIP);
    assert registryName[0] == 'l' && (registryIP + ":5000")[0] == registryIP[0];
    assert (registryIP + ":5000")[|registryIP| + 1] == '5' && (registryIP + ":-127.0.0.1}:5000")[|registryIP| + 1] == '-';
  }

  /** An address starts with a digit. */
  lemma AddressStarts(s: string)
    requires IPv4Text(s)
    ensures s != "" && s[0] != 'l'
  {
    var parts := Split(s, ".");
    JoinSplit(s, '.');
    assert Octet(parts[0]);
    assert parts[0] != "" && s[0] == parts[0][0];
  }

  /** The files the kubelet is to use: the authority's certificate and the node's own pair, its configuration and its kubeconfig. */
  lemma KubeletTells(node: string)
    requires '\n' !in node
    ensures Bindings(KubeletConfig(node)) ==
            ["/etc/kubernetes/ca.pem", "/etc/kubernetes/" + node + ".pem", "/etc/kubernetes/" + node + "-key.pem"]
    ensures Bindings(KubeletUnit(node)) == ["/etc/kubernetes/config/kubelet.yaml", "/etc/kubernetes/" + node + "-kubelet.kubeconfig"]
  {
    KubeletFilesAre(node);
    LinesBack(KubeletConfigFiles(node));
    LinesBack(KubeletUnitFiles(node));
  }

  lemma LinesBack(lines: seq<string>)
    requires lines != [] && forall i | 0 <= i < |lines| :: '\n' !in lines[i]
    ensures Bindings(Join(lines, "\n")) == lines
  {
    SplitJoin(lines, '\n');
    assert ['\n'] == "\n";
  }

  lemma KubeletFilesAre(node: string)
    requires '\n' !in node
    ensures KubeletConfigFiles(node) == ["/etc/kubernetes/ca.pem", "/etc/kubernetes/" + node + ".pem", "/etc/kubernetes/" + node + "-key.pem"]
    ensures KubeletUnitFiles(node) == ["/etc/kubernetes/config/kubelet.yaml", "/etc/kubernetes/" + node + "-kubelet.kubeconfig"]
    ensures forall i | 0 <= i < 3 :: '\n' !in KubeletConfigFiles(node)[i]
    ensures forall i | 0 <= i < 2 :: '\n' !in KubeletUnitFiles(node)[i]
  {
    assert "/etc/kubernetes/" + (node + ".pem") == "/etc/kubernetes/" + node + ".pem";
    assert "/etc/kubernetes/" + (node + "-key.pem") == "/etc/kubernetes/" + node + "-key.pem";
    assert "/etc/kubernetes/" + (node + "-kubelet.kubeconfig") == "/etc/kubernetes/" + node + "-kubelet.kubeconfig";
    assert KUBE_DIR + PemName("ca") == "/etc/kubernetes/ca.pem" && KUBE_CONFIG_DIR + "kubelet.yaml" == "/etc/kubernetes/config/kubelet.yaml";
  }

  /** The node's certificate names the node, its address and the container, and is issued by the cluster's authority. */
  ghost predicate NodeIssued(d: ClusterDir, container: string, ip: string) {
    IssuedWith(d, NodeIdentity(ToLower(container)), ip + "," + container)
  }

  /** createWorkerCert */
  method CreateWorkerCert(lxd: Server, cache: Cache, c: string, container: string, hostname: string) returns (r: Outcome)
    requires c in cache.clusters && OwnedBy(container, c)
    modifies cache, lxd`faults, lxd`asked
    ensures Provisions(old(Snapshot(lxd, cache)), Snapshot(lxd, cache), c, {}) && c in cache.clusters
    ensures OnlyWrites(old(cache.clusters)[c], cache.clusters[c], CertPaths(ToLower(container)))
    ensures r != Refused
    ensures r == Done ==> HasPair(cache.clusters[c], ToLower(container)) && CanSign(cache.clusters[c], "ca")
    ensures r == Done ==> exists ip :: (container, ip) in lxd.reports && NodeIssued(cache.clusters[c], container, ip)
    ensures r.Missing? ==> !CanSign(old(cache.clusters)[c], "ca")
    ensures hostname == "" ==> r != Done
    ensures Faults(lxd, cache) >= old(Faults(lxd, cache)) && old(lxd.asked) <= lxd.asked
    ensures Faults(lxd, cache) == old(Faults(lxd, cache)) ==>
              r == Done || r.Missing? || GaveUp(old(lxd.asked), lxd.asked, {container}, [hostname])
  {
    ghost var w := Snapshot(lxd, cache);
    var ip := WaitContainerIP(lxd, container, [hostname]);
    if ip.None? {
      ProvisionsNothing(w, c, {});
      WaitedInVain(old(lxd.asked), lxd.asked, container, {container}, [hostname]);
      return Failed;
    }
    var node := ToLower(container);
    var conf := CertConfig("node:" + node, node, "system:node:" + node, "ca", ip.value + "," + container,
                           Some(("system:node:" + node, "system:nodes")));
    NodeSavesApart(container, c, conf);
    r := CreateCert(cache, c, conf);
    NodeLeavesBase(w.clusters[c], cache.clusters[c], container, c);
    LocalProvisions(w, Snapshot(lxd, cache), c, {});
    if r == Done {
      assert NodeIssued(cache.clusters[c], container, ip.value);
    }
  }

  lemma NodeSavesApart(container: string, cluster: string, conf: CertConfig)
    requires OwnedBy(container, cluster) && conf.fileName == ToLower(container) && conf.ca == "ca"
    ensures SavedAs(conf) == ToLower(container) && SavesApart(conf)
  {
    LowerIsNoKey(container, cluster);
    assert ToLower(container)[..5] == "lxdk-";
    FixedNoKey(0);
    NodeNoKey(container, cluster);
    PathsApart(ToLower(container), FIXED_CERTS[0]);
    assert CertPath(PemName("ca")) in CertPaths("ca");
  }

  lemma KeySuffix(l: string)
    ensures HasSuffix(l, "-key") ==> l == l[..|l| - 4] + "-key"
  {
  }

  lemma NodeNoKey(container: string, cluster: string)
    requires OwnedBy(container, cluster)
    ensures NoKey(ToLower(container)) && forall k | 0 <= k < |FIXED_CERTS| :: ToLower(container) != FIXED_CERTS[k]
  {
    LowerIsNoKey(container, cluster);
    var l := ToLower(container);
    KeySuffix(l);
    forall k | 0 <= k < |FIXED_CERTS|
      ensures l != FIXED_CERTS[k]
    {
      FixedFirstLetter(k);
      assert l[0] == 'l';
    }
  }

  /** A new certificate of one container leaves every other container's and every fixed certificate as it was. */
  lemma WorkerCertsApart(d: ClusterDir, e: ClusterDir, container: string, cluster: string, f: string)
    requires OwnedBy(container, cluster) && OnlyWrites(d, e, CertPaths(ToLower(container)))
    requires (exists y :: OwnedBy(y, cluster) && y != container && CertFile(f, ToLower(y))) ||
             (exists k :: 0 <= k < |FIXED_CERTS| && CertFile(f, FIXED_CERTS[k]))
    ensures SameFile(d, e, CertPath(f))
  {
    var node := ToLower(container);
    if CertPath(f) in CertPaths(node) {
      SameCertPath(f, PemName(node));
      SameCertPath(f, KeyName(node));
      SameCertPath(f, CsrName(node));
      assert CertFile(f, node);
      CertificatesNeverCollide(container, cluster, f);
    }
  }

  lemma NodeLeavesFixed(d: ClusterDir, e: ClusterDir, container: string, cluster: string, k: nat)
    requires OwnedBy(container, cluster) && OnlyWrites(d, e, CertPaths(ToLower(container))) && k < |FIXED_CERTS|
    ensures SameFile(d, e, CertPath(PemName(FIXED_CERTS[k]))) && SameFile(d, e, CertPath(KeyName(FIXED_CERTS[k])))
  {
    var name := FIXED_CERTS[k];
    assert CertFile(PemName(name), name) && CertFile(KeyName(name), name);
    WorkerCertsApart(d, e, container, cluster, PemName(name));
    WorkerCertsApart(d, e, container, cluster, KeyName(name));
  }

  lemma NodeLeavesBase(d: ClusterDir, e: ClusterDir, container: string, cluster: string)
    requires OwnedBy(container, cluster) && OnlyWrites(d, e, CertPaths(ToLower(container)))
    ensures BaseSame(d, e)
  {
    forall j | 0 <= j < |BASE_IDENTITIES|
      ensures SameChain(d, e, BASE_IDENTITIES[j])
    {
      BaseFiles(j);
      NodeLeavesFixed(d, e, container, cluster, 3 + j);
      NodeLeavesFixed(d, e, container, cluster, if BASE_IDENTITIES[j].ca == FIXED_CERTS[0] then 0 else 1);
    }
    assert SameBase(d, e);
  }

  /** What is needed for a node's services to be trusted: the certificates create made, and the node's own. */
  ghost predicate Certified(d: ClusterDir, node: string) {
    BaseSound(d) && Issued(d, NodeIdentity(node))
  }

  lemma CertifiedStays(d: ClusterDir, e: ClusterDir, node: string)
    requires Certified(d, node) && CertsSame(d, e)
    ensures Certified(e, node)
  {
    CertsSameBase(d, e);
    BaseStaysSound(d, e);
    CertsSameChain(d, e, NodeIdentity(node));
    IssuedStays(d, e, NodeIdentity(node));
  }

  lemma CertifiedJoins(d: ClusterDir, node: string)
    requires Certified(d, node) && CanConfigure(d, "kube-proxy")
    ensures NodeCertified(d, node)
  {
    BaseSays(d, 4);
  }

  /** A container's tree holds what a node needs. */
  ghost predicate NodeFiles(t: Nodes, container: string) {
    && HasAll(t, Under(KUBE_DIR, WorkerCerts(ToLower(container))))
    && HasAll(t, Under(KUBE_DIR, WorkerKubeconfigs(ToLower(container))))
  }

  lemma SecretsAreNodeFiles(t: Nodes, d: ClusterDir, container: string)
    requires NodeSecrets(t, d, ToLower(container))
    ensures NodeFiles(t, container)
  {
    CopiedHasAll(t, KUBE_DIR, d, "certificates/", WorkerCerts(ToLower(container)));
    CopiedHasAll(t, KUBE_DIR, d, "kubeconfigs/", WorkerKubeconfigs(ToLower(container)));
  }

  /** Nothing but files pushed to a node's directories changed. */
  ghost predicate NodeFilesOnly(t: Nodes, u: Nodes, container: string) {
    OthersKept(t, u, WorkerCerts(ToLower(container)) + WorkerKubeconfigs(ToLower(container)))
  }

  lemma LastOfEnv()
    ensures Locate(ENV_PATH) == Locate(LXDK_DIR) + ["env"]
  {
    assert ENV_PATH == LXDK_DIR + "env";
    LocateUnder(LXDK_DIR, "env");
  }

  lemma EnvStays(t: Nodes, u: Nodes, container: string, data: string)
    requires GoodName(container) && NodeFilesOnly(t, u, container) && Holds(t, ENV_PATH, data)
    ensures Holds(u, ENV_PATH, data)
  {
    LastOfEnv();
    LowerPlain(container);
    WorkerNames(ToLower(container));
  }

  /** The container holds a node's certificates and kubeconfigs as they are in the cache, and its kubeconfigs are the node's own. */
  ghost predicate NodeReadied(m: map<string, Instance>, d: ClusterDir, container: string, server: string) {
    container in m && Secured(m[container].tree, d, container, server)
  }

  /** Written with a quantifier so that provers look inside only where `SecuredNode` is spoken of. */
  ghost predicate Secured(t: Nodes, d: ClusterDir, container: string, server: string) {
    forall x | x == container :: SecuredNode(t, d, x, server)
  }

  ghost predicate SecuredNode(t: Nodes, d: ClusterDir, container: string, server: string) {
    && NodeSecrets(t, d, ToLower(container)) && NodeConfigured(d, ToLower(container), server)
    && NodeCertified(d, ToLower(container)) && CanJoin(d, ToLower(container))
  }

  lemma SecuredOpens(t: Nodes, d: ClusterDir, container: string, server: string)
    requires Secured(t, d, container, server)
    ensures SecuredNode(t, d, container, server)
  {
  }

  lemma SecuredMeans(t: Nodes, d: ClusterDir, container: string, server: string)
    requires Secured(t, d, container, server)
    ensures NodeFiles(t, container) && CanJoin(d, ToLower(container))
  {
    SecuredOpens(t, d, container, server);
    SecretsAreNodeFiles(t, d, container);
  }

  lemma UploadsPossible(d: ClusterDir, container: string, server: string)
    requires GoodName(container) && NodeConfigured(d, ToLower(container), server)
    ensures var certs, kubeconfigs := WorkerCerts(ToLower(container)), WorkerKubeconfigs(ToLower(container));
            && PushedNames(certs) && PushedNames(kubeconfigs) && Apart(certs, kubeconfigs)
            && HasLocal(d, "kubeconfigs/", kubeconfigs) && (HasLocal(d, "certificates/", certs) <==> CanJoin(d, ToLower(container)))
  {
    var node := ToLower(container);
    LowerPlain(container);
    WorkerNames(node);
    NodeConfigsOpen(d, node, server);
    WorkerCertsLocal(d, node);
    WorkerKubeconfigsLocal(d, node);
  }

  lemma UploadsSecure(m: map<string, Instance>, m': map<string, Instance>, container: string, d: ClusterDir, server: string)
    requires HasSecrets(m, m', container, d, WorkerCerts(ToLower(container)), WorkerKubeconfigs(ToLower(container)))
    requires GoodName(container) && NodeConfigured(d, ToLower(container), server) && Certified(d, ToLower(container))
    ensures NodeReadied(m', d, container, server) && container in m
    ensures NodeFilesOnly(m[container].tree, m'[container].tree, container)
  {
    var node := ToLower(container);
    var t, u :| HaveTrees(m, m', container, t, u) && SecretsAt(u, d, WorkerCerts(node), WorkerKubeconfigs(node)) &&
                OthersKept(t, u, WorkerCerts(node) + WorkerKubeconfigs(node));
    CopiedHasAll(u, KUBE_DIR, d, "certificates/", WorkerCerts(node));
    UploadsPossible(d, container, server);
    CertifiedJoins(d, node);
    assert SecuredNode(u, d, container, server);
  }

  method PushNodeUploads(lxd: Server, cache: Cache, c: string, container: string, ghost server: string) returns (r: Outcome)
    requires c in cache.clusters && GoodName(container)
    requires NodeConfigured(cache.clusters[c], ToLower(container), server) && Certified(cache.clusters[c], ToLower(container))
    modifies lxd`instances, lxd`faults
    ensures Provisions(old(Snapshot(lxd, cache)), Snapshot(lxd, cache), c, {container})
    ensures r != Refused
    ensures r.Missing? ==> !CanJoin(cache.clusters[c], ToLower(container))
    ensures r == Done ==>
              && NodeReadied(lxd.instances, cache.clusters[c], container, server) && container in old(lxd.instances)
              && NodeFilesOnly(old(lxd.instances)[container].tree, lxd.instances[container].tree, container)
    ensures lxd.faults >= old(lxd.faults)
    ensures lxd.faults == old(lxd.faults) && RoomIn(old(lxd.instances), container) ==> r == Done || r.Missing?
  {
    UploadsPossible(cache.clusters[c], container, server);
    r := PushSecrets(lxd, cache, c, WorkerCerts(ToLower(container)), WorkerKubeconfigs(ToLower(container)), container);
    if r == Done {
      UploadsSecure(old(lxd.instances), lxd.instances, container, cache.clusters[c], server);
    }
  }

  /** Make the node's kubeconfigs and push them and its certificates. */
  method PushNodeSecrets(lxd: Server, cache: Cache, c: string, container: string, controllerIP: string) returns (r: Outcome)
    requires c in cache.clusters && GoodName(container) && Certified(cache.clusters[c], ToLower(container))
    modifies cache, lxd`instances, lxd`faults
    ensures Provisions(old(Snapshot(lxd, cache)), Snapshot(lxd, cache), c, {container})
    ensures c in cache.clusters && CertsSame(old(cache.clusters)[c], cache.clusters[c])
    ensures r != Refused
    ensures r.Missing? ==> !CanJoin(old(cache.clusters)[c], ToLower(container))
    ensures r == Done ==>
              && NodeReadied(lxd.instances, cache.clusters[c], container, ServerAt(controllerIP)) && container in old(lxd.instances)
              && NodeFilesOnly(old(lxd.instances)[container].tree, lxd.instances[container].tree, container)
    ensures Faults(lxd, cache) >= old(Faults(lxd, cache))
    ensures Faults(lxd, cache) == old(Faults(lxd, cache)) && RoomIn(old(lxd.instances), container) ==> r == Done || r.Missing?
  {
    ghost var w0 := Snapshot(lxd, cache);
    r := CreateWorkerKubeconfig(cache, c, ToLower(container), controllerIP);
    ghost var w1 := Snapshot(lxd, cache);
    CertsSameBase(w0.clusters[c], w1.clusters[c]);
    LocalProvisions(w0, w1, c, {container});
    if r == Done {
      CertifiedStays(w0.clusters[c], w1.clusters[c], ToLower(container));
      r := PushNodeUploads(lxd, cache, c, container, ServerAt(controllerIP));
      ProvisionsTwice(w0, w1, Snapshot(lxd, cache), c, {container});
    }
  }

  /** The first half of configureWorker: environment, kubeconfigs, and the files pushed to the container. */
  method PushNodeFiles(lxd: Server, cache: Cache, c: string, container: string, etcdIP: string, controllerIP: string) returns (r: Outcome)
    requires c in cache.clusters && GoodName(container) && Certified(cache.clusters[c], ToLower(container))
    modifies cache, lxd`instances, lxd`faults
    ensures Provisions(old(Snapshot(lxd, cache)), Snapshot(lxd, cache), c, {container})
    ensures c in cache.clusters && CertsSame(old(cache.clusters)[c], cache.clusters[c])
    ensures r != Refused
    ensures r.Missing? ==> !CanJoin(old(cache.clusters)[c], ToLower(container))
    ensures r == Done ==>
              && NodeReadied(lxd.instances, cache.clusters[c], container, ServerAt(controllerIP))
              && Holds(lxd.instances[container].tree, ENV_PATH, WorkerEnv(container, etcdIP))
    ensures Faults(lxd, cache) >= old(Faults(lxd, cache))
    ensures Faults(lxd, cache) == old(Faults(lxd, cache)) && RoomIn(old(lxd.instances), container) ==> r == Done || r.Missing?
  {
    ghost var w0 := Snapshot(lxd, cache);
    EnvIsPushed();
    r := PushData(lxd, cache, c, WorkerEnv(container, etcdIP), LXDK_DIR, "env", container);
    if r == Done {
      ghost var w1 := Snapshot(lxd, cache);
      RoomStaysIn(w0, w1, c, {container}, container);
      r := PushNodeSecrets(lxd, cache, c, container, controllerIP);
      ProvisionsTwice(w0, w1, Snapshot(lxd, cache), c, {container});
      if r == Done {
        EnvStays(w1.instances[container].tree, lxd.instances[container].tree, container, WorkerEnv(container, etcdIP));
      }
    }
  }

  lemma EnvIsPushed()
    ensures PushDir(LXDK_DIR) && PushedName("env") && LXDK_DIR + "env" == ENV_PATH
  {
  }

  /** The environment file is as it was. */
  ghost predicate EnvKept(t: Nodes, u: Nodes) {
    NodeKept(t, u, Locate(ENV_PATH))
  }

  lemma EnvUntouched(t: Nodes, u: Nodes, files: seq<string>)
    requires OthersKept(t, u, files) && "env" !in files
    ensures EnvKept(t, u)
  {
    LastOfEnv();
  }

  lemma HoldsKept(t: Nodes, u: Nodes, dir: string, name: string, data: string, files: seq<string>)
    requires Holds(t, dir + name, data) && IsFolder(dir) && ProperName(name) && OthersKept(t, u, files) && name !in files
    ensures Holds(u, dir + name, data)
  {
    LocateUnder(dir, name);
  }

  const REGISTRIES := "registries.conf"
  const YAML := "kubelet.yaml"
  const UNIT := "kubelet.service"

  lemma SettingsPushed()
    ensures PushedName(REGISTRIES) && PushedName(YAML) && PushedName(UNIT)
    ensures PushDir(CONTAINERS_DIR) && PushDir(KUBE_CONFIG_DIR) && PushDir(UNIT_DIR)
  {
  }

  lemma SettingsPlain()
    ensures ProperName(REGISTRIES) && ProperName(YAML) && ProperName(UNIT)
    ensures IsFolder(CONTAINERS_DIR) && IsFolder(KUBE_CONFIG_DIR) && IsFolder(UNIT_DIR)
  {
  }

  lemma SettingsApart()
    ensures REGISTRIES !in [YAML] + [UNIT] && YAML !in [UNIT] && "env" !in [REGISTRIES] + ([YAML] + [UNIT])
  {
    assert |REGISTRIES| == 15 && |YAML| == 12 && |"env"| == 3 && YAML[8] != UNIT[8] && UNIT[0] != REGISTRIES[0];
  }

  /** What pushing settings files of these names leaves: the files pushed before, and the environment. */
  ghost predicate SettingsOnly(m: map<string, Instance>, m': map<string, Instance>, container: string, names: seq<string>) {
    && container in m && container in m' && OnlyGrows(m, m', container) && RoomKept(m, m', container)
    && OthersKept(m[container].tree, m'[container].tree, names)
  }

  /** The six mkdir and ln commands of configureWorker. */
  const NODE_SETUP := [Exec, Exec, Exec, Exec, Exec, Exec]

  /** daemon-reload, then enable and start per service. */
  const NODE_SERVICES := [Exec, Exec, Systemctl(Crio), Exec, Systemctl(Kubelet), Exec, Systemctl(KubeProxy)]

  lemma SetupStartsNothing()
    ensures forall s :: Systemctl(s) !in NODE_SETUP
  {
  }

  lemma NodeServices()
    ensures forall s | Systemctl(s) in NODE_SERVICES :: s == Crio || s == Kubelet || s == KubeProxy
    ensures Systemctl(Crio) in NODE_SERVICES && Systemctl(Kubelet) in NODE_SERVICES && Systemctl(KubeProxy) in NODE_SERVICES
  {
    assert NODE_SERVICES[2] == Systemctl(Crio) && NODE_SERVICES[4] == Systemctl(Kubelet) && NODE_SERVICES[6] == Systemctl(KubeProxy);
  }

  ghost predicate HasRegistries(t: Nodes, registryName: string, registryIP: string) {
    Holds(t, CONTAINERS_DIR + REGISTRIES, RegistriesConfig(registryName, registryIP))
  }

  ghost predicate HasKubeletYaml(t: Nodes, container: string) {
    Holds(t, KUBE_CONFIG_DIR + YAML, KubeletConfig(ToLower(container)))
  }

  ghost predicate HasKubeletUnit(t: Nodes, container: string) {
    Holds(t, UNIT_DIR + UNIT, KubeletUnit(ToLower(container)))
  }

  /** The node's three settings files are in place. */
  ghost predicate SettingsDone(t: Nodes, container: string, registryName: string, registryIP: string) {
    forall x | x == container :: SettingsIn(t, x, registryName, registryIP)
  }

  lemma SettingsOpen(t: Nodes, container: string, registryName: string, registryIP: string)
    requires SettingsDone(t, container, registryName, registryIP)
    ensures SettingsIn(t, container, registryName, registryIP)
  {
  }

  /** The same, written out. */
  ghost predicate SettingsIn(t: Nodes, container: string, registryName: string, registryIP: string) {
    HasRegistries(t, registryName, registryIP) && HasKubeletYaml(t, container) && HasKubeletUnit(t, container)
  }

  lemma YamlKept(t: Nodes, u: Nodes, container: string)
    requires HasKubeletYaml(t, container) && OthersKept(t, u, [UNIT])
    ensures HasKubeletYaml(u, container)
  {
    SettingsPlain();
    SettingsApart();
    HoldsKept(t, u, KUBE_CONFIG_DIR, YAML, KubeletConfig(ToLower(container)), [UNIT]);
  }

  lemma RegistriesKept(t: Nodes, u: Nodes, registryName: string, registryIP: string)
    requires HasRegistries(t, registryName, registryIP) && OthersKept(t, u, [YAML] + [UNIT])
    ensures HasRegistries(u, registryName, registryIP)
  {
    SettingsPlain();
    SettingsApart();
    HoldsKept(t, u, CONTAINERS_DIR, REGISTRIES, RegistriesConfig(registryName, registryIP), [YAML] + [UNIT]);
  }

  lemma SettingsOnlyTwice(m0: map<string, Instance>, m1: map<string, Instance>, m2: map<string, Instance>, container: string,
                          a: seq<string>, b: seq<string>)
    requires SettingsOnly(m0, m1, container, a) && SettingsOnly(m1, m2, container, b)
    ensures SettingsOnly(m0, m2, container, a + b)
  {
    OnlyGrowsTwice(m0, m1, m2, container);
    OthersKeptTwice(m0[container].tree, m1[container].tree, m2[container].tree, a, b);
  }

  lemma FewerSettings(m: map<string, Instance>, m': map<string, Instance>, container: string, few: seq<string>, more: seq<string>)
    requires SettingsOnly(m, m', container, few)
    ensures SettingsOnly(m, m', container, few + more)
  {
  }

  lemma ConfigsNotEmpty(node: string)
    ensures KubeletConfig(node) != "" && KubeletUnit(node) != ""
  {
  }

  /** Push the kubelet's two settings files. */
  method PushKubeletSettings(lxd: Server, container: string) returns (done: bool)
    requires container in lxd.instances
    modifies lxd`instances, lxd`faults
    ensures SettingsOnly(old(lxd.instances), lxd.instances, container, [YAML] + [UNIT])
    ensures done ==> HasKubeletYaml(lxd.instances[container].tree, container)
    ensures done ==> HasKubeletUnit(lxd.instances[container].tree, container)
    ensures lxd.faults >= old(lxd.faults)
    ensures lxd.faults == old(lxd.faults) && RoomIn(old(lxd.instances), container) ==> done
  {
    ghost var m0 := lxd.instances;
    SettingsPushed();
    ConfigsNotEmpty(ToLower(container));
    done := PushBytes(lxd, KubeletConfig(ToLower(container)), KUBE_CONFIG_DIR, YAML, container);
    ghost var m1 := lxd.instances;
    FewerSettings(m0, m1, container, [YAML], [UNIT]);
    if done {
      done := PushBytes(lxd, KubeletUnit(ToLower(container)), UNIT_DIR, UNIT, container);
      YamlKept(m1[container].tree, lxd.instances[container].tree, container);
      SettingsOnlyTwice(m0, m1, lxd.instances, container, [YAML], [UNIT]);
    }
  }

  /** Push the settings files; `done` says that all three arrived. */
  method PushNodeSettings(lxd: Server, container: string, registryName: string, registryIP: string) returns (done: bool)
    requires container in lxd.instances
    modifies lxd`instances, lxd`faults
    ensures SettingsOnly(old(lxd.instances), lxd.instances, container, [REGISTRIES] + ([YAML] + [UNIT]))
    ensures done ==> SettingsDone(lxd.instances[container].tree, container, registryName, registryIP)
    ensures lxd.faults >= old(lxd.faults)
    ensures lxd.faults == old(lxd.faults) && RoomIn(old(lxd.instances), container) ==> done
  {
    ghost var m0 := lxd.instances;
    SettingsPushed();
    done := PushBytes(lxd, RegistriesConfig(registryName, registryIP), CONTAINERS_DIR, REGISTRIES, container);
    ghost var m1 := lxd.instances;
    FewerSettings(m0, m1, container, [REGISTRIES], [YAML] + [UNIT]);
    if done {
      done := PushKubeletSettings(lxd, container);
      RegistriesKept(m1[container].tree, lxd.instances[container].tree, registryName, registryIP);
      SettingsOnlyTwice(m0, m1, lxd.instances, container, [REGISTRIES], [YAML] + [UNIT]);
    }
  }

  // ---- devices ----

  /** An entry of /dev that configureWorker passes on. */
  predicate IsLoopDevice(name: string) {
    |name| == 5 && Contains(name, "loop")
  }

  const TUN := "net-tun"

  /** The devices a node is given: the loop devices of the machine under their names, and the tunnel; all others stay. */
  ghost predicate NodeDevices(before: map<string, string>, devices: map<string, string>, dev: seq<string>) {
    forall n :: DeviceGiven(before, devices, dev, n)
  }

  ghost predicate DeviceGiven(before: map<string, string>, devices: map<string, string>, dev: seq<string>, n: string) {
    if n == TUN then n in devices && devices[n] == "/dev/net/tun"
    else LoopGiven(before, devices, dev, n)
  }

  ghost predicate LoopGiven(before: map<string, string>, devices: map<string, string>, dev: seq<string>, n: string) {
    if IsLoopDevice(n) && n in dev then n in devices && devices[n] == "/dev/" + n
    else (n in devices <==> n in before) && (n in before ==> devices[n] == before[n])
  }

  ghost predicate LoopsGiven(before: map<string, string>, devices: map<string, string>, dev: seq<string>) {
    forall n :: LoopGiven(before, devices, dev, n)
  }

  function WithLoop(devices: map<string, string>, entry: string): map<string, string> {
    if IsLoopDevice(entry) then devices[entry := "/dev/" + entry] else devices
  }

  /** The loop over the entries of /dev. */
  method AddLoopDevices(before: map<string, string>, dev: seq<string>) returns (devices: map<string, string>)
    ensures LoopsGiven(before, devices, dev)
  {
    devices := before;
    for i := 0 to |dev|
      invariant LoopsGiven(before, devices, dev[..i])
    {
      var entry := dev[i];
      LoopOneMore(before, devices, dev, i);
      if Contains(entry, "loop") && |entry| == 5 {
        devices := devices[entry := "/dev/" + entry];
      }
    }
    assert dev[..|dev|] == dev;
  }

  lemma LoopOneMore(before: map<string, string>, devices: map<string, string>, dev: seq<string>, i: nat)
    requires i < |dev| && LoopsGiven(before, devices, dev[..i])
    ensures LoopsGiven(before, WithLoop(devices, dev[i]), dev[..i + 1])
  {
    TakeNext(dev, i);
    var more, front := WithLoop(devices, dev[i]), dev[..i + 1];
    forall n
      ensures LoopGiven(before, more, front, n)
    {
      assert LoopGiven(before, devices, dev[..i], n);
    }
  }

  /** The tunnel comes last. */
  lemma TunnelLast(before: map<string, string>, devices: map<string, string>, dev: seq<string>)
    requires LoopsGiven(before, devices, dev)
    ensures NodeDevices(before, devices[TUN := "/dev/net/tun"], dev)
  {
    var more := devices[TUN := "/dev/net/tun"];
    forall n
      ensures DeviceGiven(before, more, dev, n)
    {
      assert LoopGiven(before, devices, dev, n);
    }
  }

  lemma GivenKeepsNames(before: map<string, string>, devices: map<string, string>, dev: seq<string>)
    requires NodeDevices(before, devices, dev)
    ensures before.Keys <= devices.Keys && HasDevices(devices, dev)
  {
    forall n | n in before
      ensures n in devices
    {
      assert DeviceGiven(before, devices, dev, n);
    }
    forall n | n in dev && IsLoopDevice(n)
      ensures n in devices
    {
      assert DeviceGiven(before, devices, dev, n);
    }
    assert DeviceGiven(before, devices, dev, TUN);
  }

  /** Every loop device of the machine and the tunnel are among the devices. */
  ghost predicate HasDevices(devices: map<string, string>, dev: seq<string>) {
    TUN in devices && forall n | n in dev && IsLoopDevice(n) :: n in devices
  }

  /** Attach the node's devices. */
  method AttachDevices(lxd: Server, cache: Cache, container: string) returns (ok: bool)
    modifies cache`faults, lxd`instances, lxd`faults
    ensures lxd.instances == old(lxd.instances) || OnlyDevices(old(lxd.instances), lxd.instances, container)
    ensures ok ==> container in old(lxd.instances) && container in lxd.instances
    ensures ok ==> NodeDevices(old(lxd.instances)[container].devices, lxd.instances[container].devices, cache.dev)
    ensures Faults(lxd, cache) >= old(Faults(lxd, cache))
    ensures Faults(lxd, cache) == old(Faults(lxd, cache)) && container in old(lxd.instances) ==> ok
  {
    var devices;
    ok, devices := lxd.GetInstance(container);
    if !ok {
      return;
    }
    ok := cache.Attempt(); // os.ReadDir
    if !ok {
      return;
    }
    var more := AddLoopDevices(devices, cache.dev);
    TunnelLast(devices, more, cache.dev);
    more := more["net-tun" := "/dev/net/tun"];
    GivenKeepsNames(devices, more, cache.dev);
    ok := lxd.UpdateInstance(container, more);
  }

  /** Attach the node's devices and run the setup commands. */
  method SetUpNode(lxd: Server, cache: Cache, c: string, container: string) returns (r: Outcome)
    requires c in cache.clusters
    modifies cache`faults, lxd`instances, lxd`starts, lxd`faults
    ensures lxd.starts == old(lxd.starts)
    ensures lxd.instances == old(lxd.instances) || OnlyDevices(old(lxd.instances), lxd.instances, container)
    ensures r == Done || r == Failed
    ensures r == Done ==> container in old(lxd.instances) && container in lxd.instances
    ensures r == Done ==> NodeDevices(old(lxd.instances)[container].devices, lxd.instances[container].devices, cache.dev)
    ensures Faults(lxd, cache) >= old(Faults(lxd, cache))
    ensures Faults(lxd, cache) == old(Faults(lxd, cache)) && container in old(lxd.instances) ==> r == Done
  {
    SetupStartsNothing();
    var ok := AttachDevices(lxd, cache, container);
    r := Failed;
    if ok {
      r := RunAll(lxd, cache, c, container, NODE_SETUP);
    }
  }

  // ---- services ----

  /** workerConfig: the node, and what it is told of its cluster. */
  datatype WorkerConfig = WorkerConfig(container: string, controllerIP: string, registryName: string, registryIP: string, etcdIP: string)

  /** The kubeconfig in the file names this server. */
  ghost predicate HasServer(t: Nodes, file: string, server: string) {
    exists k :: Holds(t, KUBE_DIR + file, PrintConfig(k)) && k.server == server
  }

  /** The node's settings, environment and kubeconfigs say what it is to be told; the quantifier as before. */
  ghost predicate Told(t: Nodes, conf: WorkerConfig) {
    forall x | x == conf :: ToldAll(t, x)
  }

  ghost predicate ToldAll(t: Nodes, conf: WorkerConfig) {
    && SettingsDone(t, conf.container, conf.registryName, conf.registryIP)
    && Holds(t, ENV_PATH, WorkerEnv(conf.container, conf.etcdIP))
    && HasServer(t, "kube-proxy.kubeconfig", ServerAt(conf.controllerIP))
    && HasServer(t, KubeletConfigName(ToLower(conf.container)), ServerAt(conf.controllerIP))
  }

  /** One of the node's services was started in it, when it had been told this. */
  ghost predicate ServedAs(a: seq<ServiceStart>, b: seq<ServiceStart>, service: Service, conf: WorkerConfig) {
    exists k :: |a| <= k < |b| && IsStart(b[k], conf.container, service) && Told(b[k].tree, conf)
  }

  /** crio, the kubelet and kube-proxy were started in the node, each after it had been told what it is to be told. */
  ghost predicate NodeStarted(a: seq<ServiceStart>, b: seq<ServiceStart>, conf: WorkerConfig) {
    forall s | OfNode(s) :: ServedAs(a, b, s, conf)
  }

  /** The services every node runs. */
  predicate OfNode(s: Service) {
    s == Crio || s == Kubelet || s == KubeProxy
  }

  lemma ServedWider(a0: seq<ServiceStart>, a: seq<ServiceStart>, b: seq<ServiceStart>, b1: seq<ServiceStart>, service: Service, conf: WorkerConfig)
    requires ServedAs(a, b, service, conf) && a0 <= a && b <= b1
    ensures ServedAs(a0, b1, service, conf)
  {
    var k :| |a| <= k < |b| && IsStart(b[k], conf.container, service) && Told(b[k].tree, conf);
    assert b1[k] == b[k];
  }

  lemma NodeStartedWider(a0: seq<ServiceStart>, a: seq<ServiceStart>, b: seq<ServiceStart>, b1: seq<ServiceStart>, conf: WorkerConfig)
    requires NodeStarted(a, b, conf) && a0 <= a && b <= b1
    ensures NodeStarted(a0, b1, conf)
  {
    forall s | OfNode(s)
      ensures ServedAs(a0, b1, s, conf)
    {
      ServedWider(a0, a, b, b1, s, conf);
    }
  }

  lemma StartedWhenTold(a: seq<ServiceStart>, b: seq<ServiceStart>, tree: Nodes, conf: WorkerConfig)
    requires Told(tree, conf) && forall s | Systemctl(s) in NODE_SERVICES :: StartedWith(a, b, conf.container, s, tree)
    ensures NodeStarted(a, b, conf)
  {
    NodeServices();
    forall s | OfNode(s)
      ensures ServedAs(a, b, s, conf)
    {
      var k :| |a| <= k < |b| && IsStart(b[k], conf.container, s) && b[k].tree == tree;
    }
  }

  lemma SettingsEnd()
    ensures forall f | f in [REGISTRIES] + ([YAML] + [UNIT]) :: f != "" && f[|f| - 1] != 'm' && f[|f| - 1] != 'g'
  {
    assert REGISTRIES[14] == 'f' && YAML[11] == 'l' && UNIT[14] == 'e';
  }

  /** No certificate and no kubeconfig has the name of a settings file. */
  lemma SecretsAreNoSettings(certs: seq<string>, kubeconfigs: seq<string>)
    requires PemNames(certs) && ConfigNames(kubeconfigs)
    ensures Apart(certs, [REGISTRIES] + ([YAML] + [UNIT])) && Apart(kubeconfigs, [REGISTRIES] + ([YAML] + [UNIT]))
  {
    SettingsEnd();
    forall i | 0 <= i < |certs|
      ensures certs[i][|certs[i]| - 1] == 'm'
    {
    }
    forall i | 0 <= i < |kubeconfigs|
      ensures kubeconfigs[i][|kubeconfigs[i]| - 1] == 'g'
    {
    }
  }

  lemma SecretsKept(t: Nodes, u: Nodes, d: ClusterDir, container: string)
    requires GoodName(container) && NodeSecrets(t, d, ToLower(container)) && OthersKept(t, u, [REGISTRIES] + ([YAML] + [UNIT]))
    ensures NodeSecrets(u, d, ToLower(container))
  {
    var node, others := ToLower(container), [REGISTRIES] + ([YAML] + [UNIT]);
    LowerPlain(container);
    WorkerNames(node);
    KubeDirIsFolder();
    SecretsAreNoSettings(WorkerCerts(node), WorkerKubeconfigs(node));
    CopiedKept(t, u, KUBE_DIR, d, "certificates/", WorkerCerts(node), others);
    CopiedKept(t, u, KUBE_DIR, d, "kubeconfigs/", WorkerKubeconfigs(node), others);
  }

  lemma SettingsLeaveReady(t: Nodes, u: Nodes, d: ClusterDir, container: string, server: string, registryName: string, registryIP: string)
    requires GoodName(container) && Secured(u, d, container, server)
    requires FitsRole(t, Worker) && Keeps(t, u) && SettingsDone(u, container, registryName, registryIP)
    ensures CommandsReady(u, container, NODE_SERVICES)
  {
    FitsOpens(t, Worker);
    HasAllKept(t, u, RoleFiles(Worker));
    SecuredOpens(u, d, container, server);
    SettingsOpen(u, container, registryName, registryIP);
    SettingsThere(u, container);
    NodeReady(u, d, container, server);
    NodeServices();
  }

  /** Settings files leave a node's secrets alone. */
  lemma StaysSecured(t: Nodes, u: Nodes, d: ClusterDir, container: string, server: string)
    requires GoodName(container) && Secured(t, d, container, server) && OthersKept(t, u, [REGISTRIES] + ([YAML] + [UNIT]))
    ensures Secured(u, d, container, server)
  {
    SecuredOpens(t, d, container, server);
    SecretsKept(t, u, d, container);
    assert SecuredNode(u, d, container, server);
  }

  /** A kubeconfig that was copied names the server it was made with. */
  lemma ServerCopied(t: Nodes, d: ClusterDir, kubeconfigs: seq<string>, file: string, server: string, user: string, pair: string)
    requires Copied(t, KUBE_DIR, d, "kubeconfigs/", kubeconfigs) && file in kubeconfigs && Configured(d, file, server, user, pair)
    ensures HasServer(t, file, server)
  {
    assert CopiedOne(t, KUBE_DIR, d, "kubeconfigs/", file);
    assert Holds(t, KUBE_DIR + file, PrintConfig(ConfigAt(d, file)));
  }

  /** A node with its secrets, settings and environment has been told what it is to be told. */
  lemma AllTold(u: Nodes, d: ClusterDir, conf: WorkerConfig)
    requires Secured(u, d, conf.container, ServerAt(conf.controllerIP)) && SettingsDone(u, conf.container, conf.registryName, conf.registryIP)
    requires Holds(u, ENV_PATH, WorkerEnv(conf.container, conf.etcdIP))
    ensures Told(u, conf)
  {
    var node, server := ToLower(conf.container), ServerAt(conf.controllerIP);
    SecuredOpens(u, d, conf.container, server);
    NodeConfigsOpen(d, node, server);
    ServerCopied(u, d, WorkerKubeconfigs(node), WorkerKubeconfigs(node)[0], server, "kube-proxy", "kube-proxy");
    ServerCopied(u, d, WorkerKubeconfigs(node), WorkerKubeconfigs(node)[1], server, NodeUser(node), node);
    assert ToldAll(u, conf);
  }

  lemma SettingsThere(u: Nodes, container: string)
    requires HasKubeletYaml(u, container) && HasKubeletUnit(u, container)
    ensures HasAll(u, [KUBE_CONFIG_DIR + "kubelet.yaml"]) && HasAll(u, [UnitPath(Kubelet)])
  {
    assert UnitPath(Kubelet) == UNIT_DIR + UNIT;
  }

  lemma EnvKeptBySettings(t: Nodes, u: Nodes)
    requires OthersKept(t, u, [REGISTRIES] + ([YAML] + [UNIT]))
    ensures EnvKept(t, u)
  {
    SettingsApart();
    EnvUntouched(t, u, [REGISTRIES] + ([YAML] + [UNIT]));
  }

  /** Start the node's services. */
  method ServeNode(lxd: Server, cache: Cache, c: string, conf: WorkerConfig, ghost w0: World) returns (r: Outcome)
    requires c in cache.clusters && conf.container in lxd.instances && Provisions(w0, Snapshot(lxd, cache), c, {conf.container})
    requires Told(lxd.instances[conf.container].tree, conf)
    requires CommandsReady(lxd.instances[conf.container].tree, conf.container, NODE_SERVICES)
    modifies lxd`starts, lxd`faults
    ensures Provisions(w0, Snapshot(lxd, cache), c, {conf.container})
    ensures r == Done || r == Failed
    ensures StartsIn(old(lxd.starts), lxd.starts, conf.container)
    ensures r == Done ==> NodeStarted(old(lxd.starts), lxd.starts, conf)
    ensures lxd.faults >= old(lxd.faults) && (lxd.faults == old(lxd.faults) ==> r == Done)
  {
    ghost var w1 := Snapshot(lxd, cache);
    r := RunAll(lxd, cache, c, conf.container, NODE_SERVICES);
    ProvisionsTwice(w0, w1, Snapshot(lxd, cache), c, {conf.container});
    if r == Done {
      StartedWhenTold(old(lxd.starts), lxd.starts, lxd.instances[conf.container].tree, conf);
    }
  }

  /** What the second half of configureWorker finds: secrets and environment in place, and the units its image brought. */
  ghost predicate NodePrepared(m: map<string, Instance>, d: ClusterDir, conf: WorkerConfig) {
    && NodeReadied(m, d, conf.container, ServerAt(conf.controllerIP)) && FitsRole(m[conf.container].tree, Worker)
    && Holds(m[conf.container].tree, ENV_PATH, WorkerEnv(conf.container, conf.etcdIP))
  }

  /** What pushing a node's settings leaves. */
  lemma SettingsLeave(w: World, w': World, c: string, d: ClusterDir, conf: WorkerConfig)
    requires w' == w.(instances := w'.instances) && c in w.clusters && GoodName(conf.container) && NodePrepared(w.instances, d, conf)
    requires SettingsOnly(w.instances, w'.instances, conf.container, [REGISTRIES] + ([YAML] + [UNIT]))
    ensures Provisions(w, w', c, {conf.container}) && EnvKept(w.instances[conf.container].tree, w'.instances[conf.container].tree)
    ensures NodeReadied(w'.instances, d, conf.container, ServerAt(conf.controllerIP))
    ensures SettingsDone(w'.instances[conf.container].tree, conf.container, conf.registryName, conf.registryIP) ==>
              Told(w'.instances[conf.container].tree, conf) &&
              CommandsReady(w'.instances[conf.container].tree, conf.container, NODE_SERVICES)
  {
    var t, u := w.instances[conf.container].tree, w'.instances[conf.container].tree;
    SettingsProvision(w, w', c, conf.container);
    StaysSecured(t, u, d, conf.container, ServerAt(conf.controllerIP));
    if SettingsDone(u, conf.container, conf.registryName, conf.registryIP) {
      AllTold(u, d, conf);
      SettingsLeaveReady(t, u, d, conf.container, ServerAt(conf.controllerIP), conf.registryName, conf.registryIP);
    }
  }

  /** Push the node's settings and start its services; an upload of a settings file that fails ends it without an error. */
  method StartNodeServices(lxd: Server, cache: Cache, c: string, conf: WorkerConfig) returns (r: Outcome)
    requires c in cache.clusters && GoodName(conf.container) && NodePrepared(lxd.instances, cache.clusters[c], conf)
    modifies lxd`instances, lxd`starts, lxd`faults
    ensures Provisions(old(Snapshot(lxd, cache)), Snapshot(lxd, cache), c, {conf.container})
    ensures r == Done || r == Failed
    ensures NodeReadied(lxd.instances, cache.clusters[c], conf.container, ServerAt(conf.controllerIP))
    ensures EnvKept(old(lxd.instances)[conf.container].tree, lxd.instances[conf.container].tree)
    ensures StartsIn(old(lxd.starts), lxd.starts, conf.container)
    ensures r == Done && lxd.starts != old(lxd.starts) ==> NodeStarted(old(lxd.starts), lxd.starts, conf)
    ensures lxd.starts != old(lxd.starts) ==> Told(lxd.instances[conf.container].tree, conf)
    ensures lxd.faults >= old(lxd.faults)
    ensures lxd.faults == old(lxd.faults) ==> r == Done && NodeStarted(old(lxd.starts), lxd.starts, conf)
  {
    ghost var w0 := Snapshot(lxd, cache);
    r := Done;
    FitsHasRoom(lxd.instances[conf.container].tree, Worker);
    var done := PushNodeSettings(lxd, conf.container, conf.registryName, conf.registryIP);
    SettingsLeave(w0, Snapshot(lxd, cache), c, cache.clusters[c], conf);
    if done {
      r := ServeNode(lxd, cache, c, conf, w0);
    }
  }

  lemma SettingsProvision(w: World, w': World, c: string, container: string)
    requires w' == w.(instances := w'.instances) && c in w.clusters
    requires SettingsOnly(w.instances, w'.instances, container, [REGISTRIES] + ([YAML] + [UNIT]))
    ensures Provisions(w, w', c, {container}) && EnvKept(w.instances[container].tree, w'.instances[container].tree)
  {
    EnvKeptBySettings(w.instances[container].tree, w'.instances[container].tree);
    PushProvisions(w, w', c, container);
  }

  /** The second half of configureWorker: devices, setup commands, settings, services. */
  method StartNode(lxd: Server, cache: Cache, c: string, conf: WorkerConfig) returns (r: Outcome)
    requires c in cache.clusters && GoodName(conf.container) && NodePrepared(lxd.instances, cache.clusters[c], conf)
    modifies cache`faults, lxd`instances, lxd`starts, lxd`faults
    ensures Provisions(old(Snapshot(lxd, cache)), Snapshot(lxd, cache), c, {conf.container})
    ensures r == Done || r == Failed
    ensures NodeReadied(lxd.instances, cache.clusters[c], conf.container, ServerAt(conf.controllerIP))
    ensures EnvKept(old(lxd.instances)[conf.container].tree, lxd.instances[conf.container].tree)
    ensures StartsIn(old(lxd.starts), lxd.starts, conf.container)
    ensures r == Done ==> HasDevices(lxd.instances[conf.container].devices, cache.dev)
    ensures r == Done && lxd.starts != old(lxd.starts) ==> NodeStarted(old(lxd.starts), lxd.starts, conf)
    ensures lxd.starts != old(lxd.starts) ==> Told(lxd.instances[conf.container].tree, conf)
    ensures Faults(lxd, cache) >= old(Faults(lxd, cache))
    ensures Faults(lxd, cache) == old(Faults(lxd, cache)) ==> r == Done && NodeStarted(old(lxd.starts), lxd.starts, conf)
  {
    ghost var w0 := Snapshot(lxd, cache);
    r := SetUpNode(lxd, cache, c, conf.container);
    ghost var w1 := Snapshot(lxd, cache);
    DevicesProvision(w0, w1, c, conf.container);
    if r == Done {
      GivenKeepsNames(w0.instances[conf.container].devices, w1.instances[conf.container].devices, cache.dev);
      r := StartNodeServices(lxd, cache, c, conf);
      DevicesStay(w1, Snapshot(lxd, cache), c, conf.container, cache.dev);
      ProvisionsTwice(w0, w1, Snapshot(lxd, cache), c, {conf.container});
    }
  }

  lemma DevicesStay(w: World, w': World, c: string, container: string, dev: seq<string>)
    requires Provisions(w, w', c, {container}) && container in w.instances && HasDevices(w.instances[container].devices, dev)
    ensures container in w'.instances && HasDevices(w'.instances[container].devices, dev)
  {
    var d :| ProvisionsTo(w, w', c, {container}, d);
    assert TreeOnly(w.instances[container], w'.instances[container]);
  }

  /** The container holds a node's certificates and kubeconfigs, under its own lower-cased name, and has the tunnel device. */
  ghost predicate Equipped(m: map<string, Instance>, container: string) {
    container in m && NodeFiles(m[container].tree, container) && TUN in m[container].devices
  }

  lemma EquippedKept(w: World, w': World, c: string, names: set<string>, container: string)
    requires Provisions(w, w', c, names) && Equipped(w.instances, container)
    ensures Equipped(w'.instances, container)
  {
    var d :| ProvisionsTo(w, w', c, names, d);
    assert container in names ==> TreeOnly(w.instances[container], w'.instances[container]);
    KeptByProvisions(w, w', c, names, container);
    HasAllKept(w.instances[container].tree, w'.instances[container].tree, Under(KUBE_DIR, WorkerCerts(ToLower(container))));
    HasAllKept(w.instances[container].tree, w'.instances[container].tree, Under(KUBE_DIR, WorkerKubeconfigs(ToLower(container))));
  }

  /** configureWorker */
  method ConfigureWorker(lxd: Server, cache: Cache, c: string, conf: WorkerConfig) returns (r: Outcome)
    requires c in cache.clusters && GoodName(conf.container) && Certified(cache.clusters[c], ToLower(conf.container))
    requires FitsIn(lxd.instances, conf.container, Worker)
    modifies cache, lxd`instances, lxd`starts, lxd`faults
    ensures Provisions(old(Snapshot(lxd, cache)), Snapshot(lxd, cache), c, {conf.container})
    ensures c in cache.clusters && CertsSame(old(cache.clusters)[c], cache.clusters[c])
    ensures r != Refused
    ensures r.Missing? ==> !CanJoin(old(cache.clusters)[c], ToLower(conf.container))
    ensures r == Done ==>
              && NodeReadied(lxd.instances, cache.clusters[c], conf.container, ServerAt(conf.controllerIP))
              && Holds(lxd.instances[conf.container].tree, ENV_PATH, WorkerEnv(conf.container, conf.etcdIP))
              && HasDevices(lxd.instances[conf.container].devices, cache.dev)
    ensures r == Done ==> Equipped(lxd.instances, conf.container) && CanJoin(cache.clusters[c], ToLower(conf.container))
    ensures StartsIn(old(lxd.starts), lxd.starts, conf.container)
    ensures r == Done && lxd.starts != old(lxd.starts) ==> NodeStarted(old(lxd.starts), lxd.starts, conf)
    ensures lxd.starts != old(lxd.starts) ==> conf.container in lxd.instances && Told(lxd.instances[conf.container].tree, conf)
    ensures Faults(lxd, cache) >= old(Faults(lxd, cache))
    ensures Faults(lxd, cache) == old(Faults(lxd, cache)) && conf.container in old(lxd.instances) ==>
              r.Missing? || (r == Done && NodeStarted(old(lxd.starts), lxd.starts, conf))
  {
    ghost var w0 := Snapshot(lxd, cache);
    if conf.container in lxd.instances {
      FitsHasRoom(lxd.instances[conf.container].tree, Worker);
    }
    r := PushNodeFiles(lxd, cache, c, conf.container, conf.etcdIP, conf.controllerIP);
    if r == Done {
      ghost var w1 := Snapshot(lxd, cache);
      FitsKept(w0, w1, c, {conf.container}, conf.container, Worker);
      r := StartNode(lxd, cache, c, conf);
      ghost var w2 := Snapshot(lxd, cache);
      ProvisionsTwice(w0, w1, w2, c, {conf.container});
      SecuredMeans(w2.instances[conf.container].tree, cache.clusters[c], conf.container, ServerAt(conf.controllerIP));
    }
  }
}
