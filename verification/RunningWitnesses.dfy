/**
  Runs past a successful start: for every cluster name a start that sets up the
  whole control plane, and what can go wrong after it.
 */
module RunningWitnesses {
  import opened Text
  import opened Paths
  import opened Trees
  import opened Rooms
  import opened Names
  import opened Wrappers
  import opened Credentials
  import opened Worlds
  import opened Certificates
  import opened Containers
  import opened Provision
  import opened Workers
  import opened ControlPlane
  import opened Startup
  import opened Layouts
  import opened Steps
  import opened Commands
  import opened Isolation
  import opened Runs
  import opened Guards
  import opened RoundTrip
  import opened Orphans
  import opened Units
  import opened Deletes
  import opened Witnesses

  // ---- the directory after start ----

  /** The certificates after start. */
  function PairNames(c: string): seq<string> {
    BASE_NAMES + ["etcd", "kubernetes", NodeOf(c, Controller), NodeOf(c, Worker)]
  }

  /** The kubeconfigs start makes. */
  function KubeconfigNames(c: string): seq<string> {
    CONTROLLER_KUBECONFIGS + ["admin.kubeconfig", "client.kubeconfig"]
    + WorkerKubeconfigs(NodeOf(c, Controller)) + WorkerKubeconfigs(NodeOf(c, Worker))
  }

  ghost function UpFiles(c: string): set<string> {
    PairFiles(PairNames(c)) + {CaConfigPath()} + (set k | k in KubeconfigNames(c) :: KubeconfigPath(k))
  }

  ghost function UpDir(c: string): ClusterDir {
    ClusterDir(Some(StateOf(c, OwnName(c), Running)), map f | f in UpFiles(c) :: TextOf(c, f), {CERT_DIR, KUBECONFIG_DIR})
  }

  lemma UpDirHas(c: string, name: string)
    requires name in PairNames(c)
    ensures HasPair(UpDir(c), name)
  {
  }

  lemma UpDirHasAll(c: string)
    ensures forall i | 0 <= i < |PairNames(c)| :: HasPair(UpDir(c), PairNames(c)[i])
  {
    forall i | 0 <= i < |PairNames(c)|
      ensures HasPair(UpDir(c), PairNames(c)[i])
    {
      UpDirHas(c, PairNames(c)[i]);
    }
  }

  lemma UpDirKeeps(c: string)
    ensures FilesKept(BaseDir(StateOf(c, OwnName(c), Uninitialized)), UpDir(c))
  {
    var d := BaseDir(StateOf(c, OwnName(c), Uninitialized));
    assert forall n | n in BASE_NAMES :: n in PairNames(c);
    forall i | 0 <= i < |BASE_IDENTITIES|
      ensures SameChain(d, UpDir(c), BASE_IDENTITIES[i])
    {
      BaseIsNamed(i);
      BothText(c, BASE_IDENTITIES[i].file);
      BothText(c, BASE_IDENTITIES[i].ca);
    }
    assert SameBase(d, UpDir(c));
  }

  lemma BaseIsNamed(i: nat)
    requires i < |BASE_IDENTITIES|
    ensures BASE_IDENTITIES[i].file in BASE_NAMES && BASE_IDENTITIES[i].ca in BASE_NAMES
  {
    BaseFiles(i);
    assert BASE_NAMES == FIXED_CERTS[..8];
    assert FIXED_CERTS[..8][3 + i] in BASE_NAMES && FIXED_CERTS[..8][0] in BASE_NAMES && FIXED_CERTS[..8][1] in BASE_NAMES;
  }

  lemma BothText(c: string, name: string)
    requires name in BASE_NAMES
    ensures var d, e := BaseDir(StateOf(c, OwnName(c), Uninitialized)), UpDir(c);
            SameFile(d, e, CertPath(PemName(name))) && SameFile(d, e, CertPath(KeyName(name)))
  {
    assert name in PairNames(c);
  }

  lemma UpDirStarted(c: string)
    ensures HasStarted(UpDir(c)) && CanJoin(UpDir(c), NodeOf(c, Controller)) && CanJoin(UpDir(c), NodeOf(c, Worker))
  {
    var names := PairNames(c);
    assert names[0] == "ca" && names[2] == "ca-etcd" && names[7] == "kube-proxy" && names[8] == "etcd";
    assert names[10] == NodeOf(c, Controller) && names[11] == NodeOf(c, Worker);
    UpDirHasAll(c);
  }

  lemma ServersChained(c: string)
    ensures HasChain(UpDir(c), ETCD_IDENTITY) && HasChain(UpDir(c), API_IDENTITY)
  {
    var names := PairNames(c);
    assert names[0] == "ca" && names[2] == "ca-etcd" && names[8] == "etcd" && names[9] == "kubernetes";
    UpDirHasAll(c);
  }

  /** Everything in it is as it should be. */
  lemma UpDirCertified(c: string)
    ensures PlaneCertified(UpDir(c))
  {
    TextedSound(UpDir(c), c);
    ServersChained(c);
    assert Identities(c)[5] == ETCD_IDENTITY && Identities(c)[6] == API_IDENTITY;
    TextedIssued(UpDir(c), c, 5);
    TextedIssued(UpDir(c), c, 6);
  }

  lemma BaseChained(c: string, i: nat)
    requires i < |BASE_IDENTITIES|
    ensures HasPair(UpDir(c), BASE_IDENTITIES[i].file) && HasPair(UpDir(c), BASE_IDENTITIES[i].ca)
  {
    BaseIsNamed(i);
    assert forall n | n in BASE_NAMES :: n in PairNames(c);
    UpDirHas(c, BASE_IDENTITIES[i].file);
    UpDirHas(c, BASE_IDENTITIES[i].ca);
  }

  lemma UpConfig(c: string, file: string, user: string, i: nat)
    requires i < |BASE_IDENTITIES| && BASE_IDENTITIES[i].ca == "ca" && file in KubeconfigNames(c)
    requires TextOf(c, KubeconfigPath(file)) == PrintConfig(ConfigOf(user, BASE_IDENTITIES[i]))
    ensures Configured(UpDir(c), file, ServerAt(IP), user, BASE_IDENTITIES[i].file)
  {
    var d, k := UpDir(c), ConfigOf(user, BASE_IDENTITIES[i]);
    assert Identities(c)[i] == BASE_IDENTITIES[i];
    ChainTexts(c, i);
    BaseChained(c, i);
    assert KubeconfigPath(file) in UpFiles(c);
    KubectlReads(d, file, k);
  }

  lemma ManagerTexts(c: string)
    ensures TextOf(c, KubeconfigPath("kube-controller-manager.kubeconfig")) == PrintConfig(ConfigOf("kube-controller-manager", BASE_IDENTITIES[2]))
  {
  }

  lemma SchedulerTexts(c: string)
    ensures TextOf(c, KubeconfigPath("kube-scheduler.kubeconfig")) == PrintConfig(ConfigOf("kube-scheduler", BASE_IDENTITIES[3]))
  {
    var a, b := "kube-controller-manager.kubeconfig", "kube-scheduler.kubeconfig";
    assert a[5] == 'c' && b[5] == 's';
    KubeconfigsApart(a, b);
  }

  lemma UpDirConfigured(c: string)
    ensures ManagersConfigured(UpDir(c), IP, IP)
  {
    ManagerTexts(c);
    SchedulerTexts(c);
    BaseNames();
    ControllerConfigsAre();
    assert forall k | k in CONTROLLER_KUBECONFIGS :: k in KubeconfigNames(c);
    UpConfig(c, "kube-controller-manager.kubeconfig", "kube-controller-manager", 2);
    UpConfig(c, "kube-scheduler.kubeconfig", "kube-scheduler", 3);
    assert ConfiguredManagers(UpDir(c), IP, IP);
  }

  // ---- what of it is copied ----

  lemma UserConfigNames()
    ensures ConfigNames(["admin.kubeconfig", "client.kubeconfig"])
  {
    WorkerConfigNames("admin", "client");
    assert "admin" + ".kubeconfig" == "admin.kubeconfig" && "client" + ".kubeconfig" == "client.kubeconfig";
  }

  lemma ConfigsAreConfigs(c: string)
    requires ClusterName(c)
    ensures ConfigNames(KubeconfigNames(c))
  {
    MemberName(c, Controller);
    MemberName(c, Worker);
    WorkerNames(NodeOf(c, Controller));
    WorkerNames(NodeOf(c, Worker));
    ManagerConfigNames();
    UserConfigNames();
    ConfigNamesJoin(CONTROLLER_KUBECONFIGS, ["admin.kubeconfig", "client.kubeconfig"]);
    ConfigNamesJoin(CONTROLLER_KUBECONFIGS + ["admin.kubeconfig", "client.kubeconfig"], WorkerKubeconfigs(NodeOf(c, Controller)));
    ConfigNamesJoin(CONTROLLER_KUBECONFIGS + ["admin.kubeconfig", "client.kubeconfig"] + WorkerKubeconfigs(NodeOf(c, Controller)),
                    WorkerKubeconfigs(NodeOf(c, Worker)));
  }

  /** No other name has a kubeconfig's path. */
  lemma NoConfigAmong(pairs: seq<string>, kubeconfigs: seq<string>, n: string)
    requires n !in kubeconfigs
    ensures KubeconfigPath(n) !in PairFiles(pairs) + {CaConfigPath()} + (set k | k in kubeconfigs :: KubeconfigPath(k))
  {
    forall k | k in kubeconfigs
      ensures KubeconfigPath(k) != KubeconfigPath(n)
    {
      KubeconfigsApart(n, k);
    }
    forall f
      ensures KubeconfigPath(n) != CertPath(f)
    {
      KubeconfigsApart(n, f);
    }
  }

  lemma NoConfigAt(c: string, n: string)
    requires n !in KubeconfigNames(c)
    ensures KubeconfigPath(n) !in UpDir(c).files
  {
    var pairs, kubeconfigs := PairNames(c), KubeconfigNames(c);
    NoConfigAmong(pairs, kubeconfigs, n);
    FilesAre(c, pairs, kubeconfigs);
  }

  lemma FilesAre(c: string, pairs: seq<string>, kubeconfigs: seq<string>)
    requires pairs == PairNames(c) && kubeconfigs == KubeconfigNames(c)
    ensures UpDir(c).files.Keys == PairFiles(pairs) + {CaConfigPath()} + (set k | k in kubeconfigs :: KubeconfigPath(k))
  {
  }

  lemma CertsAreThere(c: string, certs: seq<string>)
    requires ClusterName(c) && PemNames(certs) && forall n | n in certs :: CertPath(n) in UpDir(c).files
    ensures CertsOf(UpDir(c), certs)
  {
    ConfigsAreConfigs(c);
    SuffixesApart(certs, KubeconfigNames(c));
    forall n | n in certs
      ensures KubeconfigPath(n) !in UpDir(c).files && n != "env"
    {
      NoConfigAt(c, n);
    }
  }

  lemma ConfigsAreThere(c: string, kubeconfigs: seq<string>)
    requires ConfigNames(kubeconfigs) && forall k | k in kubeconfigs :: k in KubeconfigNames(c)
    ensures ConfigsOf(UpDir(c), kubeconfigs)
  {
    SuffixesApart([], kubeconfigs);
    assert [] + kubeconfigs == kubeconfigs;
  }

  lemma LocalThere(d: ClusterDir, files: seq<string>)
    requires HasLocal(d, "certificates/", files)
    ensures forall n | n in files :: CertPath(n) in d.files
  {
    forall n | n in files
      ensures CertPath(n) in d.files
    {
      var i :| 0 <= i < |files| && files[i] == n;
    }
  }

  lemma EtcdPems()
    ensures PemNames(ETCD_FILES)
  {
    PemOf("etcd");
    PemOf("ca-etcd");
    PemNamesJoin([PemName("etcd"), KeyName("etcd")], [PemName("ca-etcd")]);
    assert ETCD_FILES == [PemName("etcd"), KeyName("etcd")] + [PemName("ca-etcd")];
  }

  lemma EtcdFilesThere(c: string)
    requires ClusterName(c)
    ensures CertsOf(UpDir(c), ETCD_FILES)
  {
    EtcdPems();
    UpDirCertified(c);
    EtcdLocal(UpDir(c));
    LocalThere(UpDir(c), ETCD_FILES);
    CertsAreThere(c, ETCD_FILES);
  }

  lemma ControllerFilesThere(c: string)
    requires ClusterName(c)
    ensures CertsOf(UpDir(c), CONTROLLER_CERTS)
  {
    ControllerCertNames("kubernetes", "ca", "etcd", "ca-etcd", "ca-aggregation", "aggregation-client");
    ControllerPems(c);
    CertsAreThere(c, CONTROLLER_CERTS);
  }

  lemma ControllerCertsThere(c: string)
    ensures HasControllerCerts(UpDir(c))
  {
    var names := PairNames(c);
    assert names[0] == "ca" && names[1] == "ca-aggregation" && names[2] == "ca-etcd" && names[4] == "aggregation-client";
    assert names[5] == "kube-controller-manager" && names[6] == "kube-scheduler" && names[8] == "etcd" && names[9] == "kubernetes";
    UpDirHasAll(c);
  }

  lemma ControllerPems(c: string)
    ensures forall n | n in CONTROLLER_CERTS :: CertPath(n) in UpDir(c).files
  {
    ControllerCertsThere(c);
    ControllerLocal(UpDir(c), UpDir(c));
    LocalThere(UpDir(c), CONTROLLER_CERTS);
  }

  lemma ManagerConfigNames()
    ensures ConfigNames(CONTROLLER_KUBECONFIGS)
  {
    WorkerConfigNames("kube-controller-manager", "kube-scheduler");
    assert "kube-controller-manager" + ".kubeconfig" == "kube-controller-manager.kubeconfig";
    assert "kube-scheduler" + ".kubeconfig" == "kube-scheduler.kubeconfig";
  }

  lemma ControllerConfigsThere(c: string)
    ensures ConfigsOf(UpDir(c), CONTROLLER_KUBECONFIGS)
  {
    ManagerConfigNames();
    ConfigsAreThere(c, CONTROLLER_KUBECONFIGS);
  }

  // ---- the containers after start ----

  /** The containers' file trees, and the controller's when its services were started. */
  datatype Filled = Filled(etcd: Tree, controller: Tree, registry: Tree, worker: Tree, early: Tree)

  function TreeIn(f: Filled, image: Image): Tree {
    match image
    case Etcd => f.etcd
    case Controller => f.controller
    case Registry => f.registry
    case Worker => f.worker
  }

  /** etcd's container when etcd is started. */
  ghost predicate EtcdFilled(t: Nodes, c: string) {
    && Copied(t, ETCD_DIR, UpDir(c), "certificates/", ETCD_FILES) && Holds(t, ETCD_DIR + "env", EtcdEnv(IP)) && FitsRole(t, Etcd)
  }

  /** The controller's when its services are. */
  ghost predicate ControllerFilled(t: Nodes, c: string) {
    PlaneSecrets(t, UpDir(c)) && Holds(t, LXDK_DIR + "env", EtcdEnv(IP)) && FitsRole(t, Controller)
  }

  /** A node holds its files and its environment. */
  ghost predicate NodeTree(t: Nodes, container: string) {
    NodeFiles(t, container) && Holds(t, LXDK_DIR + "env", WorkerEnv(container, IP))
  }

  /** The trees hold what start leaves in the containers of the cluster, and all that the image's tree held. */
  ghost predicate FilledWith(f: Filled, c: string, t: Tree) {
    && (forall image: Image :: Settles(t, TreeIn(f, image)))
    && EtcdFilled(f.etcd, c) && FitsRole(f.registry, Registry) && ControllerFilled(f.early, c)
    && NodeTree(f.controller, NameOf(c, Controller)) && NodeTree(f.worker, NameOf(c, Worker))
  }

  /** The same, written with a quantifier so that provers look inside only where `FilledWith` is spoken of. */
  ghost predicate FilledFor(f: Filled, c: string, t: Tree) {
    forall image | image == t :: FilledWith(f, c, image)
  }

  lemma MemberName(c: string, image: Image)
    requires ClusterName(c)
    ensures GoodName(NameOf(c, image)) && '/' !in ToLower(NameOf(c, image))
  {
    NamesDiffer(c);
    assert OwnedBy(NameOf(c, image), c);
    OwnedIsGood(NameOf(c, image), c);
    LowerPlain(NameOf(c, image));
  }

  lemma MoreSettles(m: Nodes, groups: seq<Group>, d: ClusterDir, env: string)
    requires Bare(m) && AllFitting(groups) && forall g | g in IMAGE_GROUPS :: g in groups
    ensures Settles(With(m, IMAGE_GROUPS, EMPTY_DIR, ""), With(m, groups, d, env))
  {
    WithKeeps(m, IMAGE_GROUPS, groups, EMPTY_DIR, "", d, env);
    WithRoomy(m, groups, d, env);
  }

  lemma EtcdSecrets(m: Nodes, c: string)
    requires ClusterName(c)
    ensures var t := With(m, ETCD_GROUPS, UpDir(c), EtcdEnv(IP));
            Copied(t, ETCD_DIR, UpDir(c), "certificates/", ETCD_FILES) && Holds(t, ETCD_DIR + "env", EtcdEnv(IP))
  {
    var groups := ETCD_GROUPS;
    assert groups[3] in groups && groups[4] in groups;
    EtcdGroupsFit();
    EtcdFilesThere(c);
    WithCerts(m, groups, UpDir(c), EtcdEnv(IP), groups[3]);
    EnvIn(m, groups, UpDir(c), EtcdEnv(IP), groups[4]);
  }

  lemma EtcdTree(m: Nodes, c: string) returns (u: Tree)
    requires Bare(m) && ClusterName(c)
    ensures Settles(With(m, IMAGE_GROUPS, EMPTY_DIR, ""), u) && EtcdFilled(u, c)
  {
    var groups, d, env := ETCD_GROUPS, UpDir(c), EtcdEnv(IP);
    EtcdGroupsFit();
    WithWf(m, groups, d, env);
    MoreSettles(m, groups, d, env);
    ImageHas(m, groups, d, env);
    EtcdSecrets(m, c);
    u := With(m, groups, d, env);
  }

  lemma ControllerSecrets(m: Nodes, c: string)
    requires ClusterName(c)
    ensures var t := With(m, CONTROLLER_GROUPS, UpDir(c), EtcdEnv(IP));
            PlaneSecrets(t, UpDir(c)) && Holds(t, LXDK_DIR + "env", EtcdEnv(IP))
  {
    var groups := CONTROLLER_GROUPS;
    assert groups[3] in groups && groups[4] in groups && groups[5] in groups;
    ControllerGroupsFit();
    ControllerFilesThere(c);
    ControllerConfigsThere(c);
    WithCerts(m, groups, UpDir(c), EtcdEnv(IP), groups[3]);
    WithConfigs(m, groups, UpDir(c), EtcdEnv(IP), groups[4]);
    EnvIn(m, groups, UpDir(c), EtcdEnv(IP), groups[5]);
  }

  lemma EarlyTree(m: Nodes, c: string) returns (u: Tree)
    requires Bare(m) && ClusterName(c)
    ensures ControllerFilled(u, c)
  {
    var groups, d, env := CONTROLLER_GROUPS, UpDir(c), EtcdEnv(IP);
    ControllerGroupsFit();
    WithWf(m, groups, d, env);
    ImageHas(m, groups, d, env);
    ControllerSecrets(m, c);
    u := With(m, groups, d, env);
  }

  lemma WithListed(m: Nodes, groups: seq<Group>, d: ClusterDir, env: string, g: Group)
    requires g in groups && Fits(g)
    ensures HasAll(With(m, groups, d, env), Under(g.dir, g.names))
  {
    forall p | p in Under(g.dir, g.names)
      ensures IsFile(With(m, groups, d, env), Locate(p))
    {
      var i :| 0 <= i < |g.names| && p == g.dir + g.names[i];
      WithMember(m, groups, d, env, g, g.names[i]);
    }
  }

  lemma NodeTreeIs(m: Nodes, groups: seq<Group>, container: string, own: seq<Group>)
    requires own == NodeGroups(ToLower(container)) && AllFitting(groups) && forall g | g in own :: g in groups
    ensures NodeTree(With(m, groups, EMPTY_DIR, WorkerEnv(container, IP)), container)
  {
    var env := WorkerEnv(container, IP);
    assert own[0] in own && own[1] in own && own[2] in own;
    WithListed(m, groups, EMPTY_DIR, env, own[0]);
    WithListed(m, groups, EMPTY_DIR, env, own[1]);
    EnvIn(m, groups, EMPTY_DIR, env, own[2]);
  }

  lemma NodeTreeOf(m: Nodes, container: string) returns (u: Tree)
    requires Bare(m) && '/' !in ToLower(container)
    ensures Settles(With(m, IMAGE_GROUPS, EMPTY_DIR, ""), u) && NodeTree(u, container)
  {
    var env, own := WorkerEnv(container, IP), NodeGroups(ToLower(container));
    var groups := IMAGE_GROUPS + own;
    NodeGroupsFit(ToLower(container));
    WithWf(m, groups, EMPTY_DIR, env);
    MoreSettles(m, groups, EMPTY_DIR, env);
    NodeTreeIs(m, groups, container, own);
    u := With(m, groups, EMPTY_DIR, env);
  }

  lemma FillAll(c: string, m: Nodes, t: Tree) returns (f: Filled)
    requires ClusterName(c) && Bare(m) && t == With(m, IMAGE_GROUPS, EMPTY_DIR, "") && FitsAll(t)
    ensures FilledFor(f, c, t)
  {
    var e := EtcdTree(m, c);
    var early := EarlyTree(m, c);
    MemberName(c, Controller);
    MemberName(c, Worker);
    var k := NodeTreeOf(m, NameOf(c, Controller));
    var n := NodeTreeOf(m, NameOf(c, Worker));
    f := FilledIs(c, t, e, k, n, early);
  }

  lemma FilledIs(c: string, t: Tree, e: Tree, k: Tree, n: Tree, early: Tree) returns (f: Filled)
    requires Settles(t, e) && Settles(t, k) && Settles(t, n) && FitsRole(t, Registry)
    requires EtcdFilled(e, c) && ControllerFilled(early, c)
    requires NodeTree(k, NameOf(c, Controller)) && NodeTree(n, NameOf(c, Worker))
    ensures FilledFor(f, c, t)
  {
    f := Filled(e, k, t, n, early);
    assert FilledWith(f, c, t);
  }

  // ---- the cluster after start ----

  ghost function UpMember(c: string, image: Image, f: Filled): Instance {
    Member(c, image, OwnName(c), TreeIn(f, image)).(running := true, devices := map[TUN := "/dev/net/tun"])
  }

  ghost function UpMembers(c: string, f: Filled): map<string, Instance> {
    map[NameOf(c, Etcd) := UpMember(c, Etcd, f), NameOf(c, Controller) := UpMember(c, Controller, f),
        NameOf(c, Registry) := UpMember(c, Registry, f), NameOf(c, Worker) := UpMember(c, Worker, f)]
  }

  /** The services of the control plane, in the order start starts them. */
  ghost function StartsOf(c: string, f: Filled): seq<ServiceStart> {
    [ServiceStart(NameOf(c, Etcd), EtcdService, f.etcd), ServiceStart(NameOf(c, Registry), RegistryService, f.registry),
     ServiceStart(NameOf(c, Controller), ApiServer, f.early), ServiceStart(NameOf(c, Controller), ControllerManager, f.early),
     ServiceStart(NameOf(c, Controller), Scheduler, f.early)]
  }

  lemma UpMembersAre(c: string, f: Filled)
    ensures forall image: Image ::
              NameOf(c, image) in UpMembers(c, f) && UpMembers(c, f)[NameOf(c, image)] == UpMember(c, image, f)
    ensures UpMembers(c, f).Keys == NameSet(StateOf(c, OwnName(c), Uninitialized).containers)
  {
    NamesDiffer(c);
    var s := StateOf(c, OwnName(c), Uninitialized);
    assert s.containers[0] == NameOf(c, Etcd) && s.containers[1] == NameOf(c, Controller);
    assert s.containers[2] == NameOf(c, Registry) && s.containers[3] == NameOf(c, Worker);
    forall image: Image
      ensures NameOf(c, image) in UpMembers(c, f) && UpMembers(c, f)[NameOf(c, image)] == UpMember(c, image, f)
    {
      assert image == Etcd || image == Controller || image == Registry || image == Worker;
    }
  }

  lemma UpRaised(c: string, t: Tree, f: Filled)
    requires FilledFor(f, c, t)
    ensures Raised(Members(c, OwnName(c), t), UpMembers(c, f), NameSet(StateOf(c, OwnName(c), Uninitialized).containers))
    ensures AllRun(UpMembers(c, f), StateOf(c, OwnName(c), Uninitialized).containers)
  {
    assert FilledWith(f, c, t);
    UpMembersAre(c, f);
    MembersAre(c, t);
    var names := NameSet(StateOf(c, OwnName(c), Uninitialized).containers);
    forall n | n in names
      ensures RaisedOne(Members(c, OwnName(c), t)[n], UpMembers(c, f)[n]) && UpMembers(c, f)[n].running
    {
      var image := MemberOf(c, n);
      assert Settles(t, TreeIn(f, image));
    }
  }

  lemma EtcdStart(u: Tree, c: string, container: string)
    requires EtcdFilled(u, c)
    ensures Ready(ServiceStart(container, EtcdService, u))
  {
    assert '\n' !in IP;
    UpDirCertified(c);
    EtcdReady(u, UpDir(c), container);
  }

  lemma ControllerStarts(u: Tree, c: string, container: string)
    requires ControllerFilled(u, c)
    ensures Ready(ServiceStart(container, ApiServer, u)) && Ready(ServiceStart(container, ControllerManager, u))
    ensures Ready(ServiceStart(container, Scheduler, u))
  {
    assert '\n' !in IP;
    UpDirCertified(c);
    UpDirConfigured(c);
    ApiServerReady(u, UpDir(c), container);
    ManagersReady(u, UpDir(c), container, IP, IP);
  }

  lemma OneMoreReady(b: seq<ServiceStart>, x: ServiceStart)
    requires AllReady(b) && Ready(x)
    ensures AllReady(b + [x])
  {
    assert (b + [x])[..|b|] == b;
  }

  lemma {:induction false} AllAreReady(b: seq<ServiceStart>)
    requires AllReady(b)
    ensures StartsReady([], b)
  {
    forall i | 0 <= i < |b|
      ensures Ready(b[i])
    {
      EachReady(b, i);
    }
  }

  lemma FiveReady(e: ServiceStart, r: ServiceStart, a: ServiceStart, k: ServiceStart, x: ServiceStart)
    requires Ready(e) && Ready(r) && Ready(a) && Ready(k) && Ready(x)
    ensures AllReady([e, r, a, k, x])
  {
    OneMoreReady([], e);
    assert [] + [e] == [e];
    OneMoreReady([e], r);
    assert [e] + [r] == [e, r];
    OneMoreReady([e, r], a);
    assert [e, r] + [a] == [e, r, a];
    OneMoreReady([e, r, a], k);
    assert [e, r, a] + [k] == [e, r, a, k];
    OneMoreReady([e, r, a, k], x);
    assert [e, r, a, k] + [x] == [e, r, a, k, x];
  }

  lemma UpReady(c: string, t: Tree, f: Filled)
    requires FilledFor(f, c, t)
    ensures StartsReady([], StartsOf(c, f))
  {
    assert FilledWith(f, c, t);
    var b := StartsOf(c, f);
    EtcdStart(f.etcd, c, NameOf(c, Etcd));
    RegistryReady(f.registry, NameOf(c, Registry));
    ControllerStarts(f.early, c, NameOf(c, Controller));
    FiveReady(b[0], b[1], b[2], b[3], b[4]);
    AllAreReady(b);
  }

  lemma UpStarted(c: string, f: Filled)
    ensures ControlPlaneStarted([], StartsOf(c, f), StateOf(c, OwnName(c), Uninitialized))
  {
    var b := StartsOf(c, f);
    assert IsStart(b[0], NameOf(c, Etcd), EtcdService) && IsStart(b[1], NameOf(c, Registry), RegistryService);
    assert IsStart(b[2], NameOf(c, Controller), ApiServer) && IsStart(b[3], NameOf(c, Controller), ControllerManager);
    assert IsStart(b[4], NameOf(c, Controller), Scheduler);
    assert ServicesWere([], b, StateOf(c, OwnName(c), Uninitialized));
  }

  lemma TwoDone(d: ClusterDir, m: map<string, Instance>, a: string, b: string)
    requires CanJoin(d, ToLower(a)) && CanJoin(d, ToLower(b)) && Equipped(m, a) && Equipped(m, b)
    ensures NodesDone(d, m, [a] + [b])
  {
    NodesClose(d, m, [a] + [b]);
  }

  lemma NodeIsUp(m: map<string, Instance>, container: string, u: Tree)
    requires container in m && m[container].tree == u && NodeTree(u, container) && TUN in m[container].devices
    ensures Equipped(m, container) && HasWorkerEnv(m, container, IP)
  {
    assert ENV_PATH == LXDK_DIR + "env";
  }

  /** The containers after start. */
  lemma NewMembers(c: string, t: Tree, f: Filled) returns (m: map<string, Instance>)
    requires FilledFor(f, c, t)
    ensures var s := StateOf(c, OwnName(c), Uninitialized);
            Raised(Members(c, OwnName(c), t), m, NameSet(s.containers)) && AllRun(m, s.containers)
    ensures Equipped(m, NameOf(c, Worker)) && Equipped(m, NameOf(c, Controller))
    ensures HasWorkerEnv(m, NameOf(c, Controller), IP) && EtcdBinds(m, NameOf(c, Etcd), IP)
  {
    UpRaised(c, t, f);
    UpMembersAre(c, f);
    assert FilledWith(f, c, t);
    m := UpMembers(c, f);
    assert m[NameOf(c, Worker)].tree == f.worker && m[NameOf(c, Controller)].tree == f.controller;
    assert m[NameOf(c, Etcd)].tree == f.etcd;
    NodeIsUp(m, NameOf(c, Worker), f.worker);
    NodeIsUp(m, NameOf(c, Controller), f.controller);
    assert BindsIn(m, NameOf(c, Etcd), IP);
  }

  /** The directory after start. */
  lemma NewDir(c: string) returns (d: ClusterDir)
    ensures var s := StateOf(c, OwnName(c), Uninitialized);
            FilesKept(BaseDir(s), d) && d.record == Some(s.(runState := Running))
    ensures HasStarted(d) && CanJoin(d, NodeOf(c, Controller)) && CanJoin(d, NodeOf(c, Worker))
  {
    UpDirKeeps(c);
    UpDirStarted(c);
    d := UpDir(c);
  }

  // ---- starting it ----

  /** From these containers and this directory a start makes these, the first services started being `b`. */
  ghost predicate Achieves(m0: map<string, Instance>, d0: ClusterDir, m: map<string, Instance>, d: ClusterDir,
                           b: seq<ServiceStart>, s: ClusterState) {
    && Raised(m0, m, NameSet(s.containers)) && AllRun(m, s.containers) && StartsReady([], b) && FilesKept(d0, d)
    && d.record == Some(s.(runState := Running)) && WholeStart(d, m, [], b, s)
  }

  /** The same, closed to provers as `FilledFor` is. */
  ghost predicate Launches(m0: map<string, Instance>, d0: ClusterDir, m: map<string, Instance>, d: ClusterDir,
                           b: seq<ServiceStart>, s: ClusterState) {
    forall x | x == s :: Achieves(m0, d0, m, d, b, x)
  }

  lemma WholeIs(d: ClusterDir, m: map<string, Instance>, b: seq<ServiceStart>, s: ClusterState, ip: string)
    requires HasStarted(d) && NodesDone(d, m, s.workers + [s.controller]) && ControlPlaneStarted([], b, s)
    requires '\n' !in ip && HasWorkerEnv(m, s.controller, ip) && EtcdBinds(m, s.etcd, ip)
    ensures WholeStart(d, m, [], b, s)
  {
    assert WholeStartAt(d, m, [], b, s, ip);
  }

  /** A whole start, closed to provers as `FilledFor` is. */
  ghost predicate SetUp(d: ClusterDir, m: map<string, Instance>, b: seq<ServiceStart>, s: ClusterState) {
    forall x | x == s :: WholeStart(d, m, [], b, x)
  }

  lemma UpWhole(c: string, f: Filled, m: map<string, Instance>, d: ClusterDir)
    requires HasStarted(d) && CanJoin(d, NodeOf(c, Worker)) && CanJoin(d, NodeOf(c, Controller))
    requires Equipped(m, NameOf(c, Worker)) && Equipped(m, NameOf(c, Controller))
    requires HasWorkerEnv(m, NameOf(c, Controller), IP) && EtcdBinds(m, NameOf(c, Etcd), IP)
    ensures SetUp(d, m, StartsOf(c, f), StateOf(c, OwnName(c), Uninitialized))
  {
    TwoDone(d, m, NameOf(c, Worker), NameOf(c, Controller));
    UpStarted(c, f);
    assert '\n' !in IP;
    WholeIs(d, m, StartsOf(c, f), StateOf(c, OwnName(c), Uninitialized), IP);
  }

  lemma LaunchIs(m0: map<string, Instance>, d0: ClusterDir, m: map<string, Instance>, d: ClusterDir, b: seq<ServiceStart>,
                 s: ClusterState)
    requires Raised(m0, m, NameSet(s.containers)) && AllRun(m, s.containers) && FilesKept(d0, d)
    requires d.record == Some(s.(runState := Running)) && StartsReady([], b) && SetUp(d, m, b, s)
    ensures Launches(m0, d0, m, d, b, s)
  {
    assert WholeStart(d, m, [], b, s);
    assert Achieves(m0, d0, m, d, b, s);
  }

  lemma UpParts(c: string, t: Tree, f: Filled) returns (m: map<string, Instance>, d: ClusterDir, b: seq<ServiceStart>)
    requires FilledFor(f, c, t)
    ensures var s := StateOf(c, OwnName(c), Uninitialized); Launches(Members(c, OwnName(c), t), BaseDir(s), m, d, b, s)
    ensures |b| == 5 && b[0].service == EtcdService && b[2].service == ApiServer
  {
    m := NewMembers(c, t, f);
    d := NewDir(c);
    b := StartsOf(c, f);
    UpWhole(c, f, m, d);
    UpReady(c, t, f);
    var s := StateOf(c, OwnName(c), Uninitialized);
    LaunchIs(Members(c, OwnName(c), t), BaseDir(s), m, d, b, s);
  }

  /** A start that succeeds, spelled out. */
  lemma StartIs(w: World, c: string, hostname: string, m: map<string, Instance>, d: ClusterDir, b: seq<ServiceStart>,
                s: ClusterState)
    requires ClusterName(c) && StartGuard(w, c) && RecordOf(w, c) == s && hostname != "" && w.starts == []
    requires Launches(w.instances, w.clusters[c], m, d, b, s)
    ensures Next(w, Event(Start(c, hostname), Done), World(m, w.networks, w.pools, w.profiles, b, w.clusters[c := d]))
    ensures m.Keys == w.instances.Keys && AllRun(m, s.containers) && d.record == Some(s.(runState := Running))
  {
    assert Achieves(w.instances, w.clusters[c], m, d, b, s);
    var w' := World(m, w.networks, w.pools, w.profiles, b, w.clusters[c := d]);
    assert StartedTo(w, c, Done, w', d);
    NextIs(w, Start(c, hostname), Done, w');
  }

  /** A running cluster of one worker that LXD holds alone, in its own network and pool. */
  ghost predicate RunningAlone(w: World, c: string) {
    && Recorded(w, c) && RecordOf(w, c) == StateOf(c, OwnName(c), Running)
    && HeldAlone(w, RecordOf(w, c)) && AllRun(w.instances, RecordOf(w, c).containers)
  }

  lemma StartHappens(w: World, c: string, t: Tree, f: Filled) returns (w': World)
    requires ClusterName(c) && FilledFor(f, c, t)
    requires StartGuard(w, c) && RecordOf(w, c) == StateOf(c, OwnName(c), Uninitialized)
    requires w.instances == Members(c, OwnName(c), t) && w.clusters[c] == BaseDir(StateOf(c, OwnName(c), Uninitialized))
    requires HeldAlone(w, RecordOf(w, c)) && w.starts == []
    ensures Next(w, Event(Start(c, "h"), Done), w') && RunningAlone(w', c)
    ensures |w'.starts| == 5 && w'.starts[0].service == EtcdService && w'.starts[2].service == ApiServer
  {
    var m, d, b := UpParts(c, t, f);
    StartIs(w, c, "h", m, d, b, RecordOf(w, c));
    w' := World(m, w.networks, w.pools, w.profiles, b, w.clusters[c := d]);
  }

  lemma UpWorlds(c: string) returns (w0: World, w1: World, w2: World, t: Tree)
    requires ClusterName(c)
    ensures Initial(w0) && Next(w0, Event(Create(c, Flags("")), Done), w1) && Next(w1, Event(Start(c, "h"), Done), w2)
    ensures RunningAlone(w2, c) && FitsAll(t)
    ensures |w2.starts| == 5 && w2.starts[0].service == EtcdService && w2.starts[2].service == ApiServer
  {
    var m := BareTree(DIRS);
    t := ImageTreeOf(m);
    var f := FillAll(c, m, t);
    w0 := Before("");
    w1 := CreatedWorld(c, t);
    w2 := StartHappens(w1, c, t, f);
  }

  /**
    For every cluster name: create and start succeed, every service of the
    control plane has been started, and etcd's and the API server's each with a
    variable unbound that their unit expands.
   */
  lemma StartSucceeds(c: string) returns (run: Run)
    requires ClusterName(c)
    ensures run.events == [Event(Create(c, Flags("")), Done), Event(Start(c, "h"), Done)]
    ensures RunningAlone(run.worlds[2], c)
    ensures var b := run.worlds[2].starts;
            && |b| == 5 && b[0].service == EtcdService && !Bound(b[0], "CONTAINER_NAME") && Bound(b[0], "ETCD_IP")
            && b[2].service == ApiServer && !Bound(b[2], "ADMISSION_PLUGINS") && Bound(b[2], "ETCD_IP")
  {
    var w0, w1, w2, t := UpWorlds(c);
    run := Trace([w0, w1, w2], [Event(Create(c, Flags("")), Done), Event(Start(c, "h"), Done)]);
    VariablesBound(run, 2, 0);
    VariablesBound(run, 2, 2);
    assert Expanded(EtcdService)[0] == "CONTAINER_NAME" && Expanded(EtcdService)[1] == "ETCD_IP";
    assert Expanded(ApiServer)[0] == "ADMISSION_PLUGINS" && Expanded(ApiServer)[1] == "ETCD_IP";
  }

  // ---- a start-worker that fails ----

  /** A start-worker may fail with the container it made left behind. */
  lemma WorkerFails(w: World, c: string, n: string, t: Tree) returns (w': World)
    requires ClusterName(c) && WorkerGuard(w, c) && NamedFor(n, c, Worker) && n !in w.instances && FitsAll(t)
    ensures Next(w, Event(StartWorker(c, "h"), Failed), w') && n in w'.instances
    ensures w' == w.(instances := w.instances[n := w'.instances[n]])
    ensures w'.instances[n].pool == RecordOf(w, c).storagePool && w'.instances[n].network == RecordOf(w, c).networkID
  {
    var s := RecordOf(w, c);
    var left := Instance(false, s.storagePool, s.networkID, SourceOf(Worker), ProfilesFor(n), map[], t);
    w' := w.(instances := w.instances[n := left]);
    assert w.clusters[c := w.clusters[c]] == w.clusters;
    BaseSameSelf(w.clusters[c]);
    assert left.(running := false, devices := map[]) == left;
    assert WorkerAdded(w, c, Failed, w', n, w.clusters[c]);
    NextIs(w, StartWorker(c, "h"), Failed, w');
  }

  lemma OtherWorker(c: string) returns (n: string)
    ensures NamedFor(n, c, Worker) && forall image: Image :: n != NameOf(c, image)
  {
    n := ContainerName(c, Worker, OTHER_ID);
    assert IsId(OTHER_ID) && OTHER_ID[0] != ID[0];
    IdIsId();
    forall image: Image
      ensures n != NameOf(c, image)
    {
      if n == NameOf(c, image) {
        NamesInjective(c, image, ID, c, Worker, OTHER_ID);
      }
    }
  }

  lemma RunningIs(w: World, c: string)
    requires RunningAlone(w, c)
    ensures AllPresent(w.instances, RecordOf(w, c).containers) && Distinct(RecordOf(w, c).containers)
    ensures Contains(RecordOf(w, c).storagePool, "lxdk") && WorkerGuard(w, c) && StopGuard(w, c)
  {
    StateFits(c, OwnName(c), Running);
    OwnNameTests(c);
  }

  lemma LeftIsUndeletable(w: World, w': World, c: string, n: string)
    requires RunningAlone(w, c) && (forall image: Image :: n != NameOf(c, image)) && n in w'.instances
    requires w' == w.(instances := w.instances[n := w'.instances[n]]) && w'.instances[n].pool == RecordOf(w, c).storagePool
    ensures Undeletable(w', c)
  {
    RunningIs(w, c);
    assert n !in RecordOf(w', c).containers;
    HeldIsUndeletable(w', c, n);
  }

  /** The worlds of such a run after start, one by one. */
  lemma WorkerWorlds(c: string, w2: World, t: Tree) returns (w3: World, n: string)
    requires ClusterName(c) && RunningAlone(w2, c) && FitsAll(t)
    ensures Next(w2, Event(StartWorker(c, "h"), Failed), w3) && Undeletable(w3, c) && n !in w2.instances && n in w3.instances
  {
    RunningIs(w2, c);
    n := OtherWorker(c);
    assert n !in RecordOf(w2, c).containers;
    w3 := WorkerFails(w2, c, n, t);
    LeftIsUndeletable(w2, w3, c, n);
  }

  lemma LeftBehindAt(run: Run, i: nat, c: string, n: string)
    requires i < |run.events| && run.events[i] == Event(StartWorker(c, "h"), Failed)
    requires n !in run.worlds[i].instances && n in run.worlds[i + 1].instances
    ensures LeavesBehind(MoveAt(run, i), c, n)
  {
    MoveLinks(run, i);
  }

  /**
    For every cluster name: create and start succeed, a start-worker fails after
    it made its container, and delete cannot succeed though every recorded
    container exists.
   */
  lemma FailedWorkerLeavesUndeletable(c: string) returns (run: Run, n: string)
    requires ClusterName(c)
    ensures run.events == [Event(Create(c, Flags("")), Done), Event(Start(c, "h"), Done), Event(StartWorker(c, "h"), Failed)]
    ensures LeavesBehind(MoveAt(run, 2), c, n) && Undeletable(run.worlds[3], c)
  {
    var w0, w1, w2, t := UpWorlds(c);
    var w3;
    w3, n := WorkerWorlds(c, w2, t);
    run := Trace([w0, w1, w2, w3],
                 [Event(Create(c, Flags("")), Done), Event(Start(c, "h"), Done), Event(StartWorker(c, "h"), Failed)]);
    LeftBehindAt(run, 2, c, n);
  }

  // ---- a restart that fails ----

  /** A start may fail with any one container running. */
  lemma StartBreaks(w: World, c: string, n: string) returns (w': World)
    requires ClusterName(c) && StartGuard(w, c) && n in RecordOf(w, c).containers
    ensures Next(w, Event(Start(c, "h"), Failed), w')
    ensures w' == w.(instances := w'.instances) && w'.instances.Keys == w.instances.Keys
    ensures n in w'.instances && w'.instances[n].running
  {
    w' := w.(instances := w.instances[n := w.instances[n].(running := true)]);
    assert w.clusters[c := w.clusters[c]] == w.clusters;
    BaseSameSelf(w.clusters[c]);
    assert StartedTo(w, c, Failed, w', w.clusters[c]);
    NextIs(w, Start(c, "h"), Failed, w');
  }

  /** Recorded as stopped with all containers there and one running: neither start nor stop passes its checks. */
  ghost predicate HalfStarted(w: World, c: string) {
    RecordedStopped(w, c) && SomeRuns(w, c) && !SomeMissing(w, c) && !StartGuard(w, c) && !StopGuard(w, c)
  }

  lemma RestartWorlds(c: string, w2: World) returns (w3: World, w4: World)
    requires ClusterName(c) && RunningAlone(w2, c)
    ensures Next(w2, Event(Stop(c), Done), w3) && Next(w3, Event(Start(c, "h"), Failed), w4) && HalfStarted(w4, c)
  {
    RunningIs(w2, c);
    w3 := StopFrom(w2, c);
    w4 := StartBreaks(w3, c, RecordOf(w3, c).containers[0]);
  }

  /**
    For every cluster name: create, start and stop succeed, a start fails with
    one container running, and neither start nor stop passes its checks.
   */
  lemma FailedRestartStrands(c: string) returns (run: Run)
    requires ClusterName(c)
    ensures run.events == [
      Event(Create(c, Flags("")), Done), Event(Start(c, "h"), Done), Event(Stop(c), Done), Event(Start(c, "h"), Failed)]
    ensures HalfStarted(run.worlds[4], c)
  {
    var w0, w1, w2, t := UpWorlds(c);
    var w3, w4 := RestartWorlds(c, w2);
    run := Trace([w0, w1, w2, w3, w4], [
      Event(Create(c, Flags("")), Done), Event(Start(c, "h"), Done), Event(Stop(c), Done), Event(Start(c, "h"), Failed)]);
  }

  // ---- a failed delete that is completed after all ----

  lemma DeleteHappens(w: World, c: string) returns (w': World)
    requires ClusterName(c) && Deletable(w, c, true, true)
    ensures Next(w, Event(Delete(c, true, true), Done), w') && c !in w'.clusters
  {
    var s := RecordOf(w, c);
    w' := World(w.instances - NameSet(s.containers), WithoutOwn(w.networks, s.networkID, true),
                WithoutOwn(w.pools, s.storagePool, true), w.profiles, w.starts, w.clusters - {c});
    NextIs(w, Delete(c, true, true), Done, w');
  }

  lemma RemadeIsDeletable(w: World, w3: World, w4: World, c: string, n: string)
    requires RunningAlone(w, c) && n in RecordOf(w, c).containers && w3 == w.(instances := w.instances - {n})
    requires n in w4.instances && w4 == w3.(instances := w3.instances[n := w4.instances[n]])
    ensures Deletable(w4, c, true, true)
  {
    RunningIs(w, c);
    assert w4.instances - NameSet(RecordOf(w4, c).containers) == map[];
  }

  lemma CompletedWorlds(c: string, w2: World, t: Tree) returns (w3: World, w4: World, w5: World)
    requires ClusterName(c) && RunningAlone(w2, c) && FitsAll(t)
    ensures Next(w2, Event(Delete(c, true, true), Failed), w3) && Next(w3, Event(StartWorker(c, "h"), Failed), w4)
    ensures Next(w4, Event(Delete(c, true, true), Done), w5)
    ensures var n := NameOf(c, Worker); n in w2.instances && n !in w3.instances && n in w4.instances && WorkerGuard(w3, c)
    ensures NameOf(c, Worker) in RecordOf(w2, c).containers
  {
    RunningIs(w2, c);
    NamesDiffer(c);
    var n := NameOf(c, Worker);
    assert RecordOf(w2, c).containers[3] == n;
    DeleteLosesOne(w2, c, n);
    w3 := w2.(instances := w2.instances - {n});
    NextIs(w2, Delete(c, true, true), Failed, w3);
    w4 := WorkerFails(w3, c, n, t);
    RemadeIsDeletable(w2, w3, w4, c, n);
    w5 := DeleteHappens(w4, c);
  }

  lemma RunOfFive(ws: seq<World>, es: seq<Event>) returns (run: Run)
    requires |ws| == 6 && |es| == 5 && Initial(ws[0]) && Next(ws[0], es[0], ws[1]) && Next(ws[1], es[1], ws[2])
    requires Next(ws[2], es[2], ws[3]) && Next(ws[3], es[3], ws[4]) && Next(ws[4], es[4], ws[5])
    ensures run == Trace(ws, es)
  {
    run := Trace(ws, es);
  }

  lemma RemadeAt(run: Run, i: nat, c: string, n: string)
    requires i < |run.events| && run.events[i] == Event(StartWorker(c, "h"), Failed) && NamedFor(n, c, Worker)
    requires WorkerGuard(run.worlds[i], c) && n !in run.worlds[i].instances && n in run.worlds[i + 1].instances
    ensures Remakes(MoveAt(run, i), c, n)
  {
    MoveLinks(run, i);
  }

  lemma LosesAt(run: Run, i: nat, c: string, n: string)
    requires i < |run.events| && run.events[i] == Event(Delete(c, true, true), Failed)
    requires Recorded(run.worlds[i], c) && n in RecordOf(run.worlds[i], c).containers
    requires n in run.worlds[i].instances && n !in run.worlds[i + 1].instances
    ensures DeleteLoses(run, i, c, n)
  {
    MoveLinks(run, i);
  }

  /**
    For every cluster name: create and start succeed, a delete fails after it got
    rid of the worker, a start-worker makes a container of the same name and
    fails, and then delete succeeds.
   */
  lemma FailedDeleteIsCompleted(c: string) returns (run: Run)
    requires ClusterName(c)
    ensures run.events == [
      Event(Create(c, Flags("")), Done), Event(Start(c, "h"), Done), Event(Delete(c, true, true), Failed),
      Event(StartWorker(c, "h"), Failed), Event(Delete(c, true, true), Done)]
    ensures DeleteLoses(run, 2, c, NameOf(c, Worker)) && Remakes(MoveAt(run, 3), c, NameOf(c, Worker))
  {
    var w0, w1, w2, t := UpWorlds(c);
    var w3, w4, w5 := CompletedWorlds(c, w2, t);
    run := RunOfFive([w0, w1, w2, w3, w4, w5], [
      Event(Create(c, Flags("")), Done), Event(Start(c, "h"), Done), Event(Delete(c, true, true), Failed),
      Event(StartWorker(c, "h"), Failed), Event(Delete(c, true, true), Done)]);
    NamesDiffer(c);
    LosesAt(run, 2, c, NameOf(c, Worker));
    RemadeAt(run, 3, c, NameOf(c, Worker));
  }
}
