/**
  The two stores lxdk keeps in step: what LXD holds (instances with their file
  trees, networks, storage pools, profiles) and what the cache directory holds
  (per cluster the recorded ClusterState and the certificate and kubeconfig
  files). `starts` lists every "systemctl start" issued so far, with the
  container's tree at that moment.
 */
module Worlds {
  import opened Text
  import opened Paths
  import opened Trees
  import opened Rooms
  import opened Names
  import opened Wrappers
  import opened Credentials

  /** `devices` has the devices lxdk attaches later on: the source of each by its name. */
  datatype Instance = Instance(running: bool, pool: string, network: string, source: string, profiles: seq<string>,
                               devices: map<string, string>, tree: Tree)

  datatype RunState = Uninitialized | Running | Stopped

  /** The record stored as state.toml. */
  datatype ClusterState = ClusterState(
    name: string, networkID: string, containers: seq<string>, runState: RunState,
    etcd: string, controller: string, registry: string, workers: seq<string>,
    storageDriver: string, storagePool: string)

  /** A cluster's cache directory. File names are relative to it. */
  datatype ClusterDir = ClusterDir(record: Option<ClusterState>, files: map<string, string>, dirs: set<string>)

  const EMPTY_DIR := ClusterDir(None, map[], {})

  datatype Service = EtcdService | RegistryService | ApiServer | ControllerManager | Scheduler | Crio | Kubelet | KubeProxy

  datatype ServiceStart = ServiceStart(container: string, service: Service, tree: Tree)

  datatype World = World(instances: map<string, Instance>, networks: set<string>, pools: set<string>,
                         profiles: set<string>, starts: seq<ServiceStart>, clusters: map<string, ClusterDir>)

  /** How a command or a step of one ends. */
  datatype Outcome =
    | Done
    | Refused               // a guard failed before anything was changed
    | Missing(file: string) // a local file to be read is not there
    | Failed                // a call failed on the way

  ghost predicate Recorded(w: World, c: string) {
    c in w.clusters && w.clusters[c].record.Some?
  }

  ghost function RecordOf(w: World, c: string): ClusterState
    requires Recorded(w, c)
  {
    w.clusters[c].record.value
  }

  /** No instance uses the network. */
  predicate NetworkFree(instances: map<string, Instance>, name: string) {
    forall n | n in instances :: instances[n].network != name
  }

  /** No instance uses the pool. */
  predicate PoolFree(instances: map<string, Instance>, name: string) {
    forall n | n in instances :: instances[n].pool != name
  }

  /** What `containers` will be called on, as a set. */
  function NameSet(names: seq<string>): set<string> {
    set n | n in names
  }

  // ---- local files ----

  const CERT_DIR := "certificates"
  const KUBECONFIG_DIR := "kubeconfigs"

  function CertPath(file: string): string {
    "certificates/" + file
  }

  function KubeconfigPath(file: string): string {
    "kubeconfigs/" + file
  }

  function CaConfigPath(): string {
    CertPath("ca-config.json")
  }

  /** A certificate and its key. */
  predicate HasPair(d: ClusterDir, name: string) {
    CertPath(PemName(name)) in d.files && CertPath(KeyName(name)) in d.files
  }

  /** Everything create leaves for later commands to read. */
  predicate HasBase(d: ClusterDir) {
    && CERT_DIR in d.dirs && CaConfigPath() in d.files
    && HasPair(d, "ca") && HasPair(d, "ca-aggregation") && HasPair(d, "ca-etcd")
    && HasPair(d, "admin") && HasPair(d, "aggregation-client")
    && HasPair(d, "kube-controller-manager") && HasPair(d, "kube-scheduler") && HasPair(d, "kube-proxy")
  }

  /** Everything start-worker reads besides what it writes itself. */
  predicate HasStarted(d: ClusterDir) {
    && CERT_DIR in d.dirs && KUBECONFIG_DIR in d.dirs && CaConfigPath() in d.files
    && HasPair(d, "ca") && HasPair(d, "kube-proxy") && HasPair(d, "etcd")
    && CertPath(PemName("ca-etcd")) in d.files
  }

  /** No local file goes away and the record stays. */
  ghost predicate FilesGrow(d: ClusterDir, e: ClusterDir) {
    e.record == d.record && d.files.Keys <= e.files.Keys && d.dirs <= e.dirs
  }

  // ---- what the certificates of a directory say ----

  /** Whose certificate a file is to be, and which authority is to issue it. */
  datatype Identity = Identity(file: string, cn: string, org: string, ca: string)

  /** The certificates create makes. */
  const BASE_IDENTITIES := [
    Identity("admin", "admin", "system:masters", "ca"),
    Identity("aggregation-client", "kube-apiserver", "kube-apiserver", "ca-aggregation"),
    Identity("kube-controller-manager", "system:kube-controller-manager", "system:kube-controller-manager", "ca"),
    Identity("kube-scheduler", "system:kube-scheduler", "system:kube-scheduler", "ca"),
    Identity("kube-proxy", "system:kube-proxy", "system:node-proxier", "ca")]

  /** The pair and its authority's certificate are there. */
  predicate HasChain(d: ClusterDir, id: Identity) {
    HasPair(d, id.file) && CertPath(PemName(id.ca)) in d.files
  }

  /** The certificate is the identity's, issued by its authority for the key beside it. */
  ghost predicate Issued(d: ClusterDir, id: Identity) {
    forall i | i == id :: IssuedTo(d, i)
  }

  /** The same, written out; here and below the quantifier keeps provers from looking inside where they need not. */
  ghost predicate IssuedTo(d: ClusterDir, id: Identity) {
    exists x :: IssuedAs(d, id, x)
  }

  ghost predicate IssuedAs(d: ClusterDir, id: Identity, x: Certificate) {
    && HasChain(d, id) && d.files[CertPath(PemName(id.file))] == PrintCert(x)
    && x.cn == id.cn && x.org == id.org
    && x.issuer == d.files[CertPath(PemName(id.ca))] && x.key == d.files[CertPath(KeyName(id.file))]
  }

  /** The same, and the certificate is for these hosts. */
  ghost predicate IssuedWith(d: ClusterDir, id: Identity, hosts: string) {
    forall i | i == id :: IssuedToHosts(d, i, hosts)
  }

  ghost predicate IssuedToHosts(d: ClusterDir, id: Identity, hosts: string) {
    exists x :: IssuedAs(d, id, x) && x.hosts == hosts
  }

  lemma IssuedChain(d: ClusterDir, id: Identity)
    requires Issued(d, id)
    ensures HasChain(d, id)
  {
    assert IssuedTo(d, id);
  }

  lemma IssuedWithIsIssued(d: ClusterDir, id: Identity, hosts: string)
    requires IssuedWith(d, id, hosts)
    ensures Issued(d, id)
  {
    assert IssuedToHosts(d, id, hosts);
    assert IssuedTo(d, id);
  }

  /** Every certificate create made that is there with its key and its authority says what it is to say. */
  ghost predicate BaseSound(d: ClusterDir) {
    forall x: ClusterDir | x == d :: BaseIssued(x)
  }

  ghost predicate BaseIssued(d: ClusterDir) {
    forall i | 0 <= i < |BASE_IDENTITIES| :: HasChain(d, BASE_IDENTITIES[i]) ==> Issued(d, BASE_IDENTITIES[i])
  }

  /** The same file, or none, at a path. */
  predicate SameFile(d: ClusterDir, e: ClusterDir, f: string) {
    (f in d.files <==> f in e.files) && (f in d.files ==> e.files[f] == d.files[f])
  }

  /** The pair and its authority's certificate read the same. */
  predicate SameChain(d: ClusterDir, e: ClusterDir, id: Identity) {
    && SameFile(d, e, CertPath(PemName(id.file))) && SameFile(d, e, CertPath(KeyName(id.file)))
    && SameFile(d, e, CertPath(PemName(id.ca)))
  }

  /** The certificates create made read the same. */
  ghost predicate BaseSame(d: ClusterDir, e: ClusterDir) {
    forall x: ClusterDir | x == d :: SameBase(x, e)
  }

  ghost predicate SameBase(d: ClusterDir, e: ClusterDir) {
    forall i | 0 <= i < |BASE_IDENTITIES| :: SameChain(d, e, BASE_IDENTITIES[i])
  }

  /** All certificates read the same. */
  ghost predicate CertsSame(d: ClusterDir, e: ClusterDir) {
    forall f :: SameFile(d, e, CertPath(f))
  }

  lemma BaseStaysSound(d: ClusterDir, e: ClusterDir)
    requires BaseSound(d) && BaseSame(d, e)
    ensures BaseSound(e)
  {
    assert BaseIssued(d) && SameBase(d, e);
    forall i | 0 <= i < |BASE_IDENTITIES| && HasChain(e, BASE_IDENTITIES[i])
      ensures Issued(e, BASE_IDENTITIES[i])
    {
      IssuedStays(d, e, BASE_IDENTITIES[i]);
    }
  }

  lemma IssuedStays(d: ClusterDir, e: ClusterDir, id: Identity)
    requires SameChain(d, e, id)
    ensures HasChain(d, id) <==> HasChain(e, id)
    ensures Issued(d, id) ==> Issued(e, id)
  {
    if Issued(d, id) {
      assert IssuedTo(d, id);
      var x :| IssuedAs(d, id, x);
      assert IssuedAs(e, id, x);
      assert IssuedTo(e, id);
    }
  }

  lemma IssuedWithStays(d: ClusterDir, e: ClusterDir, id: Identity, hosts: string)
    requires SameChain(d, e, id) && IssuedWith(d, id, hosts)
    ensures IssuedWith(e, id, hosts) && Issued(e, id)
  {
    assert IssuedToHosts(d, id, hosts);
    var x :| IssuedAs(d, id, x) && x.hosts == hosts;
    assert IssuedAs(e, id, x);
    assert IssuedToHosts(e, id, hosts) && IssuedTo(e, id);
  }

  lemma CertsSameChain(d: ClusterDir, e: ClusterDir, id: Identity)
    requires CertsSame(d, e)
    ensures SameChain(d, e, id)
  {
    assert SameFile(d, e, CertPath(PemName(id.file))) && SameFile(d, e, CertPath(KeyName(id.file)));
    assert SameFile(d, e, CertPath(PemName(id.ca)));
  }

  lemma CertsSameBase(d: ClusterDir, e: ClusterDir)
    requires CertsSame(d, e)
    ensures BaseSame(d, e)
  {
    forall i | 0 <= i < |BASE_IDENTITIES|
      ensures SameChain(d, e, BASE_IDENTITIES[i])
    {
      CertsSameChain(d, e, BASE_IDENTITIES[i]);
    }
    assert SameBase(d, e);
  }

  lemma BaseSameSelf(d: ClusterDir)
    ensures BaseSame(d, d)
  {
    assert SameBase(d, d);
  }

  /** A base certificate that is there with its key and its authority's certificate says what it is to say. */
  lemma BaseSays(d: ClusterDir, i: nat)
    requires BaseSound(d) && i < |BASE_IDENTITIES| && HasChain(d, BASE_IDENTITIES[i])
    ensures Issued(d, BASE_IDENTITIES[i])
  {
    assert BaseIssued(d);
  }

  lemma BaseSameTwice(d0: ClusterDir, d1: ClusterDir, d2: ClusterDir)
    requires BaseSame(d0, d1) && BaseSame(d1, d2)
    ensures BaseSame(d0, d2)
  {
    assert SameBase(d0, d1) && SameBase(d1, d2);
    forall i | 0 <= i < |BASE_IDENTITIES|
      ensures SameChain(d0, d2, BASE_IDENTITIES[i])
    {
      assert SameChain(d0, d1, BASE_IDENTITIES[i]) && SameChain(d1, d2, BASE_IDENTITIES[i]);
    }
    assert SameBase(d0, d2);
  }

  // ---- services ----

  const REGISTRY_DIR := "/etc/docker/registry/"
  const ENV_PATH := "/etc/lxdk/env"

  /** The paths of files in a directory written with its trailing slash. */
  function Under(dir: string, files: seq<string>): seq<string> {
    seq(|files|, i requires 0 <= i < |files| => dir + files[i])
  }

  /** kubernetes.KubeletConfig: the container files the kubelet's configuration names. */
  function KubeletConfigFiles(node: string): seq<string> {
    [KUBE_DIR + PemName("ca"), KUBE_DIR + PemName(node), KUBE_DIR + KeyName(node)]
  }

  /** kubernetes.KubeletUnitConfig: the container files the kubelet's unit names. */
  function KubeletUnitFiles(node: string): seq<string> {
    [KUBE_CONFIG_DIR + "kubelet.yaml", KUBE_DIR + (node + "-kubelet.kubeconfig")]
  }

  /** The files below /etc/kubernetes the unit of the API server names. */
  const API_SERVER_FILES := [
    PemName("ca"), KeyName("ca"), PemName("ca-etcd"), PemName("etcd"), KeyName("etcd"), PemName("kubernetes"), KeyName("kubernetes"),
    PemName("aggregation-client"), KeyName("aggregation-client"), PemName("ca-aggregation")]

  /** A service's unit file. */
  function UnitPath(service: Service): string {
    UNIT_DIR + UnitName(service)
  }

  function UnitName(service: Service): string {
    match service
    case EtcdService => "etcd.service"
    case RegistryService => "oci-registry.service"
    case ApiServer => "kube-apiserver.service"
    case ControllerManager => "kube-controller-manager.service"
    case Scheduler => "kube-scheduler.service"
    case Crio => "crio.service"
    case Kubelet => "kubelet.service"
    case KubeProxy => "kube-proxy.service"
  }

  /** What each of the images kept under these aliases holds of what the services need. */
  function AliasFiles(alias: string): seq<string> {
    if alias == "kubedee-etcd" then [UnitPath(EtcdService)]
    else if alias == "kubedee-worker" then NODE_FILES
    else if alias == "kubedee-controller" then NODE_FILES + MANAGER_FILES
    else []
  }

  const SCHEDULER_CONFIG := KUBE_CONFIG_DIR + "kube-scheduler.yaml"
  const REGISTRY_CONFIG := REGISTRY_DIR + "config.yml"

  const NODE_FILES := [
    UnitPath(Crio), UnitPath(Kubelet), UnitPath(KubeProxy), UnitPath(RegistryService), SCHEDULER_CONFIG, REGISTRY_CONFIG]

  const MANAGER_FILES := [UnitPath(ApiServer), UnitPath(ControllerManager), UnitPath(Scheduler)]

  /** What a container of a role needs of its image for the services it is to run. */
  function RoleFiles(image: Image): seq<string> {
    match image
    case Etcd => [UnitPath(EtcdService)]
    case Registry => [UnitPath(RegistryService), REGISTRY_CONFIG]
    case Worker => [UnitPath(Crio), UnitPath(KubeProxy)]
    case Controller =>
      [UnitPath(Crio), UnitPath(KubeProxy), UnitPath(ApiServer), UnitPath(ControllerManager), UnitPath(Scheduler), SCHEDULER_CONFIG]
  }

  /**
    The files below /etc that lxdk or an image puts there and a service needs:
    its unit, the files that names, and those that a configuration file named
    there does: kubelet.yaml names certificates, kube-scheduler.yaml the
    scheduler's kubeconfig.
   */
  function NamedFiles(service: Service, container: string): seq<string> {
    [UnitPath(service)] +
    match service
    case EtcdService =>
      [ETCD_DIR + "env", ETCD_DIR + PemName("etcd"), ETCD_DIR + KeyName("etcd"), ETCD_DIR + PemName("ca-etcd")]
    case ApiServer =>
      [LXDK_DIR + "env"] + Under(KUBE_DIR, API_SERVER_FILES)
    case ControllerManager =>
      [KUBE_DIR + PemName("ca"), KUBE_DIR + KeyName("ca"), KUBE_DIR + "kube-controller-manager.kubeconfig"]
    case Scheduler =>
      [SCHEDULER_CONFIG, KUBE_DIR + "kube-scheduler.kubeconfig"]
    case Kubelet =>
      KubeletUnitFiles(ToLower(container)) + KubeletConfigFiles(ToLower(container))
    case KubeProxy =>
      [KUBE_DIR + "kube-proxy.kubeconfig"]
    case Crio => []
    case RegistryService => [REGISTRY_CONFIG]
  }

  predicate HasAll(t: Nodes, paths: seq<string>) {
    forall p | p in paths :: IsFile(t, Locate(p))
  }

  /** The file at a path holds these bytes. */
  ghost predicate Holds(t: Nodes, path: string, data: string) {
    Locate(path) in t && t[Locate(path)] == File(data)
  }

  /** The file at a path holds an etcd address and nothing else. */
  ghost predicate HoldsEtcdEnv(t: Nodes, path: string) {
    exists ip :: '\n' !in ip && Holds(t, path, EtcdEnv(ip))
  }

  /** The environment file start writes on etcd, and first on the controller. */
  function EtcdEnv(etcdIP: string): string {
    "ETCD_IP=" + etcdIP
  }

  /** The lines of an environment file. */
  function Bindings(env: string): seq<string> {
    Split(env, "\n")
  }

  /** The environment file a service's unit reads, if any. */
  function EnvFile(service: Service): Option<string> {
    match service
    case EtcdService => Some(ETCD_DIR + "env")
    case ApiServer => Some(LXDK_DIR + "env")
    case _ => None
  }

  /** In a directory of the tree is the identity's pair, issued by the authority whose certificate is there too. */
  ghost predicate HoldsPair(t: Nodes, dir: string, id: Identity) {
    exists x :: HoldsPairAs(t, dir, id, x)
  }

  ghost predicate HoldsPairAs(t: Nodes, dir: string, id: Identity, x: Certificate) {
    && Holds(t, dir + PemName(id.file), PrintCert(x)) && Holds(t, dir + KeyName(id.file), x.key)
    && Holds(t, dir + PemName(id.ca), x.issuer) && x.cn == id.cn && x.org == id.org
  }

  /**
    The kubeconfig is the user's: its current context is the user's, it trusts
    the authority whose certificate is in the container, and it holds a
    certificate of the identity issued by that authority for the key beside it.
   */
  ghost predicate HoldsConfig(t: Nodes, file: string, user: string, id: Identity) {
    exists k, x :: HoldsConfigAs(t, file, user, id, k, x)
  }

  ghost predicate HoldsConfigAs(t: Nodes, file: string, user: string, id: Identity, k: Kubeconfig, x: Certificate) {
    && Holds(t, KUBE_DIR + file, PrintConfig(k)) && Holds(t, KUBE_DIR + PemName("ca"), k.ca)
    && OwnConfig(k, user, k.ca, PrintCert(x), x.key) && x.cn == id.cn && x.org == id.org && x.issuer == k.ca
  }

  /** The kubeconfig embeds this authority and this pair, and its current context is the user's. */
  predicate OwnConfig(k: Kubeconfig, user: string, ca: string, cert: string, key: string) {
    k.user == user && k.context == user && k.current == "default" && k.ca == ca && k.cert == cert && k.key == key
  }

  const ETCD_IDENTITY := Identity("etcd", "etcd", "etcd", "ca-etcd")
  const API_IDENTITY := Identity("kubernetes", "kubernetes", "kubernetes", "ca")

  /** A node's own certificate. */
  function NodeIdentity(node: string): Identity {
    Identity(node, NodeUser(node), "system:nodes", "ca")
  }

  function NodeUser(node: string): string {
    "system:node:" + node
  }

  /** The certificates and kubeconfigs a service uses are its own, and issued by the authorities it trusts. */
  ghost predicate Trusted(t: Nodes, container: string, service: Service) {
    match service
    case EtcdService => HoldsPair(t, ETCD_DIR, ETCD_IDENTITY)
    case ApiServer =>
      HoldsPair(t, KUBE_DIR, API_IDENTITY) && HoldsPair(t, KUBE_DIR, ETCD_IDENTITY) && HoldsPair(t, KUBE_DIR, BASE_IDENTITIES[1])
    case ControllerManager => HoldsConfig(t, "kube-controller-manager.kubeconfig", "kube-controller-manager", BASE_IDENTITIES[2])
    case Scheduler => HoldsConfig(t, "kube-scheduler.kubeconfig", "kube-scheduler", BASE_IDENTITIES[3])
    case Kubelet =>
      var node := ToLower(container);
      HoldsPair(t, KUBE_DIR, NodeIdentity(node)) && HoldsConfig(t, node + "-kubelet.kubeconfig", NodeUser(node), NodeIdentity(node))
    case KubeProxy => HoldsConfig(t, "kube-proxy.kubeconfig", "kube-proxy", BASE_IDENTITIES[4])
    case _ => true
  }

  /**
    A container has what a service needs: every file named, the environment file
    as start writes it, and certificates and kubeconfigs of its own.
   */
  ghost predicate ReadyIn(t: Nodes, container: string, service: Service) {
    && HasAll(t, NamedFiles(service, container)) && (EnvFile(service).Some? ==> HoldsEtcdEnv(t, EnvFile(service).value))
    && Trusted(t, container, service)
  }

  /** The container had what the service needs when it was started. */
  ghost predicate Ready(s: ServiceStart) {
    ReadyIn(s.tree, s.container, s.service)
  }

  /** The starts added were all ready. */
  ghost predicate StartsReady(a: seq<ServiceStart>, b: seq<ServiceStart>) {
    a <= b && forall i | |a| <= i < |b| :: Ready(b[i])
  }

  ghost predicate IsStart(s: ServiceStart, container: string, service: Service) {
    s.container == container && s.service == service
  }

  /** Among the starts added is one of this service in this container. */
  ghost predicate WasStarted(a: seq<ServiceStart>, b: seq<ServiceStart>, container: string, service: Service) {
    exists k :: |a| <= k < |b| && IsStart(b[k], container, service)
  }

  lemma WasStartedWider(a0: seq<ServiceStart>, a: seq<ServiceStart>, b: seq<ServiceStart>, b1: seq<ServiceStart>,
                        container: string, service: Service)
    requires WasStarted(a, b, container, service) && a0 <= a && b <= b1
    ensures WasStarted(a0, b1, container, service)
  {
  }

  lemma HasAllOf(t: Nodes, dir: string, few: seq<string>, many: seq<string>)
    requires HasAll(t, Under(dir, many)) && forall x | x in few :: x in many
    ensures HasAll(t, Under(dir, few))
  {
    forall p | p in Under(dir, few)
      ensures IsFile(t, Locate(p))
    {
      var i :| 0 <= i < |few| && p == dir + few[i];
      assert few[i] in many;
      var j :| 0 <= j < |many| && many[j] == few[i];
      assert Under(dir, many)[j] == p;
    }
  }

  lemma HasAllKept(t: Nodes, u: Nodes, paths: seq<string>)
    requires HasAll(t, paths) && Keeps(t, u)
    ensures HasAll(u, paths)
  {
  }

  // ---- provisioning: what everything between starting instances and writing the record may change ----

  /** Nothing went away from the tree, and where there was room there still is. */
  ghost predicate Settles(t: Nodes, u: Nodes) {
    Keeps(t, u) && (Roomy(t) ==> Roomy(u))
  }

  /** Only the instance's files and devices changed, and none went away. */
  ghost predicate TreeOnly(a: Instance, b: Instance) {
    b == a.(tree := b.tree, devices := b.devices) && a.devices.Keys <= b.devices.Keys && Settles(a.tree, b.tree)
  }

  ghost predicate InstancesProvisioned(m: map<string, Instance>, m': map<string, Instance>, names: set<string>) {
    && m'.Keys == m.Keys
    && (forall n | n in m && n in names :: TreeOnly(m[n], m'[n]))
    && (forall n | n in m && n !in names :: m'[n] == m[n])
  }

  /**
    Files were pushed into the named instances, services were started, and
    files of cluster `c` were written, its directory becoming `d`.
   */
  ghost predicate ProvisionsTo(w: World, w': World, c: string, names: set<string>, d: ClusterDir) {
    && w' == World(w'.instances, w.networks, w.pools, w.profiles, w'.starts, w.clusters[c := d])
    && StartsReady(w.starts, w'.starts)
    && InstancesProvisioned(w.instances, w'.instances, names)
    && c in w.clusters && FilesGrow(w.clusters[c], d) && BaseSame(w.clusters[c], d)
  }

  ghost predicate Provisions(w: World, w': World, c: string, names: set<string>) {
    exists d :: ProvisionsTo(w, w', c, names, d)
  }

  lemma UpdatedTwice<K, V>(m: map<K, V>, k: K, a: V, b: V)
    ensures m[k := a][k := b] == m[k := b]
  {
  }

  lemma ProvisionsNothing(w: World, c: string, names: set<string>)
    requires c in w.clusters
    ensures Provisions(w, w, c, names)
  {
    assert w.clusters == w.clusters[c := w.clusters[c]];
    BaseSameSelf(w.clusters[c]);
    assert ProvisionsTo(w, w, c, names, w.clusters[c]);
  }

  lemma InstancesProvisionedTwice(m0: map<string, Instance>, m1: map<string, Instance>, m2: map<string, Instance>, names: set<string>)
    requires InstancesProvisioned(m0, m1, names) && InstancesProvisioned(m1, m2, names)
    ensures InstancesProvisioned(m0, m2, names)
  {
  }

  lemma StartsReadyTwice(a: seq<ServiceStart>, b: seq<ServiceStart>, c: seq<ServiceStart>)
    requires StartsReady(a, b) && StartsReady(b, c)
    ensures StartsReady(a, c)
  {
  }

  lemma ProvisionsTwice(w0: World, w1: World, w2: World, c: string, names: set<string>)
    requires Provisions(w0, w1, c, names) && Provisions(w1, w2, c, names)
    ensures Provisions(w0, w2, c, names)
  {
    var d :| ProvisionsTo(w1, w2, c, names, d);
    InstancesProvisionedTwice(w0.instances, w1.instances, w2.instances, names);
    StartsReadyTwice(w0.starts, w1.starts, w2.starts);
    BaseSameTwice(w0.clusters[c], w1.clusters[c], d);
    assert ProvisionsTo(w0, w2, c, names, d);
  }

  lemma StartsGrow(w: World, w': World, c: string, names: set<string>)
    requires Provisions(w, w', c, names)
    ensures w.starts <= w'.starts
  {
  }

  lemma ProvisionsMore(w: World, w': World, c: string, few: set<string>, names: set<string>)
    requires Provisions(w, w', c, few) && few <= names
    ensures Provisions(w, w', c, names)
  {
    var d :| ProvisionsTo(w, w', c, few, d);
    forall n | n in w.instances && n in names
      ensures TreeOnly(w.instances[n], w'.instances[n])
    {
      if n !in few {
        assert w'.instances[n] == w.instances[n];
      }
    }
    assert ProvisionsTo(w, w', c, names, d);
  }
}
