/** File trees built from lists of files: what an image brings, and what a container holds after start. */
module Layouts {
  import opened Text
  import opened Paths
  import opened Trees
  import opened Rooms
  import opened Names
  import opened Worlds
  import opened Certificates
  import opened Containers
  import opened Provision
  import opened ControlPlane

  /** The directories images and lxdk put files into. */
  const DIRS := [KUBE_DIR, KUBE_CONFIG_DIR, ETCD_DIR, LXDK_DIR, REGISTRY_DIR, UNIT_DIR]

  /** Files of one directory. */
  datatype Group = Group(dir: string, names: seq<string>)

  /** A name that holds a character none of the directories' paths does. */
  predicate Marked(name: string) {
    '.' in name || 'v' in name
  }

  lemma Folders()
    ensures forall d | d in DIRS :: IsFolder(d) && '.' !in d && 'v' !in d
  {
    assert forall d | d in DIRS :: d == DIRS[0] || d == DIRS[1] || d == DIRS[2] || d == DIRS[3] || d == DIRS[4] || d == DIRS[5];
  }

  // ---- the directories ----

  /** The place lies on the way to one of the directories. */
  ghost predicate OnTheWay(dirs: seq<string>, p: seq<string>) {
    exists i | 0 <= i < |dirs| :: Along(Parts(dirs[i]), p)
  }

  /** The directories, those above them, and nothing else. */
  ghost predicate BareFor(m: Nodes, dirs: seq<string>) {
    && WfTree(m) && (forall p | p in m :: m[p].Dir? && (p == [] || OnTheWay(dirs, p)))
    && forall i | 0 <= i < |dirs| :: IsDir(m, Locate(dirs[i]))
  }

  lemma OneMoreDir(m: Nodes, dirs: seq<string>, dir: string) returns (m': Nodes)
    requires BareFor(m, dirs)
    ensures BareFor(m', dirs + [dir])
  {
    var parts := Parts(dir);
    assert Clear(m, parts);
    MakeAllAdds(m, parts);
    MakeAllWf(m, parts);
    MakeAllDirs(m, parts);
    assert parts[..|parts|] == parts && Place(parts, |parts|) == Resolve(parts);
    m' := MakeAll(m, parts);
    forall p | p in m'
      ensures m'[p].Dir? && (p == [] || OnTheWay(dirs + [dir], p))
    {
      if p in m && p != [] {
        var i :| 0 <= i < |dirs| && Along(Parts(dirs[i]), p);
        assert (dirs + [dir])[i] == dirs[i];
      } else {
        assert (dirs + [dir])[|dirs|] == dir;
      }
    }
  }

  lemma {:induction false} BareTree(dirs: seq<string>) returns (m: Nodes)
    ensures BareFor(m, dirs)
  {
    if dirs == [] {
      m := map[[] := Dir];
    } else {
      m := BareTree(dirs[..|dirs| - 1]);
      m := OneMoreDir(m, dirs[..|dirs| - 1], dirs[|dirs| - 1]);
      FrontAndLast(dirs);
    }
  }

  ghost predicate Bare(m: Nodes) {
    BareFor(m, DIRS)
  }

  lemma NotBare(m: Nodes, p: seq<string>, name: string)
    requires Bare(m) && Marked(name)
    ensures p + [name] !in m
  {
    Folders();
    if p + [name] in m {
      var i :| 0 <= i < |DIRS| && Along(Parts(DIRS[i]), p + [name]);
      assert DIRS[i] in DIRS;
      NotAlong(DIRS[i], p, name, if '.' in name then '.' else 'v');
    }
  }

  // ---- files in them ----

  predicate Fits(g: Group) {
    g.dir in DIRS && forall n | n in g.names :: ProperName(n) && Marked(n)
  }

  predicate AllFitting(groups: seq<Group>) {
    forall g | g in groups :: Fits(g)
  }

  function Places(groups: seq<Group>): set<seq<string>> {
    set g, n | g in groups && n in g.names :: Locate(g.dir) + [n]
  }

  /** Every environment file holds this text, every other file what the cluster's directory has under its name. */
  function Content(name: string, d: ClusterDir, env: string): string {
    if name == "env" then env
    else if KubeconfigPath(name) in d.files then d.files[KubeconfigPath(name)]
    else if CertPath(name) in d.files then d.files[CertPath(name)]
    else ""
  }

  function With(m: Nodes, groups: seq<Group>, d: ClusterDir, env: string): Nodes {
    m + map p | p in Places(groups) :: File(if p == [] then "" else Content(p[|p| - 1], d, env))
  }

  lemma PlaceIsNew(m: Nodes, groups: seq<Group>, p: seq<string>)
    requires Bare(m) && AllFitting(groups) && p in Places(groups)
    ensures p != [] && p !in m && IsDir(m, p[..|p| - 1]) && Marked(p[|p| - 1])
  {
    var g, n :| g in groups && n in g.names && p == Locate(g.dir) + [n];
    NotBare(m, Locate(g.dir), n);
    var i :| 0 <= i < |DIRS| && DIRS[i] == g.dir;
    assert p[..|p| - 1] == Locate(g.dir);
  }

  lemma WithWf(m: Nodes, groups: seq<Group>, d: ClusterDir, env: string)
    requires Bare(m) && AllFitting(groups)
    ensures WfTree(With(m, groups, d, env))
    ensures forall p | p in m :: p in With(m, groups, d, env) && With(m, groups, d, env)[p] == m[p]
  {
    var t := With(m, groups, d, env);
    forall p | p in Places(groups)
      ensures p != [] && p !in m && IsDir(m, p[..|p| - 1])
    {
      PlaceIsNew(m, groups, p);
    }
    forall p | p in t
      ensures HasParent(t, p)
    {
      if p in m {
        assert HasParent(m, p);
      }
    }
  }

  lemma WithOne(m: Nodes, groups: seq<Group>, d: ClusterDir, env: string, g: Group, n: string)
    requires g in groups && n in g.names && IsFolder(g.dir) && ProperName(n)
    ensures Holds(With(m, groups, d, env), g.dir + n, Content(n, d, env))
  {
    LocateUnder(g.dir, n);
    var p := Locate(g.dir) + [n];
    assert p in Places(groups);
    assert p[|p| - 1] == n;
  }

  lemma WithMember(m: Nodes, groups: seq<Group>, d: ClusterDir, env: string, g: Group, n: string)
    requires g in groups && Fits(g) && n in g.names
    ensures HasAll(With(m, groups, d, env), [g.dir + n])
  {
    Folders();
    WithOne(m, groups, d, env, g, n);
  }

  /** The directory has certificates of these names, and no kubeconfigs. */
  predicate CertsOf(d: ClusterDir, names: seq<string>) {
    forall n | n in names :: CertPath(n) in d.files && KubeconfigPath(n) !in d.files && n != "env"
  }

  /** The directory has kubeconfigs of these names. */
  predicate ConfigsOf(d: ClusterDir, names: seq<string>) {
    forall n | n in names :: KubeconfigPath(n) in d.files && n != "env"
  }

  /** Certificates are there with the bytes the directory has. */
  lemma WithCerts(m: Nodes, groups: seq<Group>, d: ClusterDir, env: string, g: Group)
    requires g in groups && Fits(g) && CertsOf(d, g.names)
    ensures Copied(With(m, groups, d, env), g.dir, d, "certificates/", g.names)
  {
    Folders();
    forall n | n in g.names
      ensures CopiedOne(With(m, groups, d, env), g.dir, d, "certificates/", n)
    {
      WithOne(m, groups, d, env, g, n);
    }
  }

  /** So are kubeconfigs. */
  lemma WithConfigs(m: Nodes, groups: seq<Group>, d: ClusterDir, env: string, g: Group)
    requires g in groups && Fits(g) && ConfigsOf(d, g.names)
    ensures Copied(With(m, groups, d, env), g.dir, d, "kubeconfigs/", g.names)
  {
    Folders();
    forall n | n in g.names
      ensures CopiedOne(With(m, groups, d, env), g.dir, d, "kubeconfigs/", n)
    {
      WithOne(m, groups, d, env, g, n);
    }
  }

  lemma EnvIn(m: Nodes, groups: seq<Group>, d: ClusterDir, env: string, g: Group)
    requires g in groups && g.dir in DIRS && g.names == ["env"]
    ensures Holds(With(m, groups, d, env), g.dir + "env", env)
  {
    Folders();
    FixedFit();
    WithOne(m, groups, d, env, g, "env");
  }

  lemma WithKind(m: Nodes, groups: seq<Group>, d: ClusterDir, env: string, p: seq<string>)
    requires Bare(m) && AllFitting(groups)
    ensures p in With(m, groups, d, env) <==> p in m || p in Places(groups)
    ensures IsDir(With(m, groups, d, env), p) <==> p in m && p !in Places(groups)
    ensures p in Places(groups) ==> p !in m
  {
    if p in Places(groups) {
      PlaceIsNew(m, groups, p);
    }
  }

  /** More files keep those that were there. */
  lemma WithKeeps(m: Nodes, few: seq<Group>, many: seq<Group>, d0: ClusterDir, env0: string, d: ClusterDir, env: string)
    requires Bare(m) && AllFitting(many) && forall g | g in few :: g in many
    ensures Keeps(With(m, few, d0, env0), With(m, many, d, env))
  {
    WithWf(m, many, d, env);
    var t, u := With(m, few, d0, env0), With(m, many, d, env);
    assert Places(few) <= Places(many);
    forall p
      ensures p in t ==> p in u
      ensures IsDir(t, p) ==> IsDir(u, p)
      ensures IsFile(t, p) ==> IsFile(u, p)
    {
      WithKind(m, few, d0, env0, p);
      WithKind(m, many, d, env, p);
    }
  }

  // ---- room ----

  /** Files of marked names leave room. */
  lemma WithRoomy(m: Nodes, groups: seq<Group>, d: ClusterDir, env: string)
    requires Bare(m) && AllFitting(groups)
    ensures Roomy(With(m, groups, d, env))
  {
    var t := With(m, groups, d, env);
    forall dir | PushDir(dir)
      ensures Clear(t, Parts(dir))
    {
      WithClear(m, groups, d, env, dir);
    }
    forall dir, name | PushDir(dir) && PushedName(name)
      ensures !IsDir(t, Locate(dir) + [name])
    {
      PushedMarked(name);
      NotBare(m, Locate(dir), name);
    }
    assert HasPlaces(t);
  }

  lemma PlaceNotAlong(m: Nodes, groups: seq<Group>, dir: string, p: seq<string>)
    requires Bare(m) && AllFitting(groups) && PushDir(dir) && p in Places(groups)
    ensures !Along(Parts(dir), p)
  {
    PushDirs(dir);
    PlaceIsNew(m, groups, p);
    var name := p[|p| - 1];
    assert p == p[..|p| - 1] + [name];
    NotAlong(dir, p[..|p| - 1], name, if '.' in name then '.' else 'v');
  }

  lemma WithClear(m: Nodes, groups: seq<Group>, d: ClusterDir, env: string, dir: string)
    requires Bare(m) && AllFitting(groups) && PushDir(dir)
    ensures Clear(With(m, groups, d, env), Parts(dir))
  {
    var t, parts := With(m, groups, d, env), Parts(dir);
    forall k | 0 <= k <= |parts|
      ensures Free(t, Place(parts, k))
    {
      if Place(parts, k) in Places(groups) {
        PlaceNotAlong(m, groups, dir, Place(parts, k));
        assert Along(parts, Place(parts, k));
      }
      StillFree(m, groups, d, env, Place(parts, k));
    }
  }

  lemma StillFree(m: Nodes, groups: seq<Group>, d: ClusterDir, env: string, p: seq<string>)
    requires Bare(m) && p !in Places(groups)
    ensures Free(With(m, groups, d, env), p)
  {
  }

  // ---- the trees of a cluster's containers ----

  /** The units images bring. */
  const UNIT_NAMES := [
    UnitName(EtcdService), UnitName(RegistryService), UnitName(ApiServer), UnitName(ControllerManager), UnitName(Scheduler),
    UnitName(Crio), UnitName(KubeProxy)]

  const IMAGE_GROUPS := [
    Group(UNIT_DIR, UNIT_NAMES), Group(KUBE_CONFIG_DIR, ["kube-scheduler.yaml"]), Group(REGISTRY_DIR, ["config.yml"])]

  const ETCD_GROUPS := IMAGE_GROUPS + [Group(ETCD_DIR, ETCD_FILES), Group(ETCD_DIR, ["env"])]

  const CONTROLLER_GROUPS :=
    IMAGE_GROUPS + [Group(KUBE_DIR, CONTROLLER_CERTS), Group(KUBE_DIR, CONTROLLER_KUBECONFIGS), Group(LXDK_DIR, ["env"])]

  /** The files configureWorker gives a node. */
  function NodeGroups(node: string): seq<Group> {
    [Group(KUBE_DIR, WorkerCerts(node)), Group(KUBE_DIR, WorkerKubeconfigs(node)), Group(LXDK_DIR, ["env"])]
  }

  lemma PushedFits(dir: string, names: seq<string>)
    requires dir in DIRS && PushedNames(names)
    ensures Fits(Group(dir, names))
  {
    forall n | n in names
      ensures ProperName(n) && Marked(n)
    {
      assert PushedName(n);
      PushedMarked(n);
    }
  }

  lemma UnitFits(s: Service)
    ensures ProperName(UnitName(s)) && Marked(UnitName(s))
    ensures s != Kubelet ==> UnitName(s) in UNIT_NAMES
  {
    var n := UnitName(s);
    assert n[|n| - 8] == '.';
    UnitListed(s);
  }

  lemma UnitListed(s: Service)
    ensures s != Kubelet ==> UnitName(s) in UNIT_NAMES
  {
    assert UNIT_NAMES[0] == UnitName(EtcdService) && UNIT_NAMES[1] == UnitName(RegistryService) && UNIT_NAMES[2] == UnitName(ApiServer);
    assert UNIT_NAMES[3] == UnitName(ControllerManager) && UNIT_NAMES[4] == UnitName(Scheduler) && UNIT_NAMES[5] == UnitName(Crio);
    assert UNIT_NAMES[6] == UnitName(KubeProxy);
  }

  lemma FixedFit()
    ensures forall n | n in ["env", "kube-scheduler.yaml", "config.yml"] :: ProperName(n) && Marked(n)
  {
    assert "env"[2] == 'v' && "kube-scheduler.yaml"[14] == '.' && "config.yml"[6] == '.';
  }

  lemma UnitAt(i: nat) returns (s: Service)
    requires i < |UNIT_NAMES|
    ensures UNIT_NAMES[i] == UnitName(s)
  {
    s := [EtcdService, RegistryService, ApiServer, ControllerManager, Scheduler, Crio, KubeProxy][i];
    UnitListed(s);
  }

  lemma UnitGroupFits()
    ensures Fits(Group(UNIT_DIR, UNIT_NAMES))
  {
    DirsAre();
    forall n | n in UNIT_NAMES
      ensures ProperName(n) && Marked(n)
    {
      var i :| 0 <= i < |UNIT_NAMES| && UNIT_NAMES[i] == n;
      var s := UnitAt(i);
      UnitFits(s);
    }
  }

  lemma ConfigGroupsFit()
    ensures Fits(Group(KUBE_CONFIG_DIR, ["kube-scheduler.yaml"])) && Fits(Group(REGISTRY_DIR, ["config.yml"]))
  {
    DirsAre();
    FixedFit();
  }

  lemma ImageGroupsFit()
    ensures AllFitting(IMAGE_GROUPS)
  {
    UnitGroupFits();
    ConfigGroupsFit();
  }

  lemma DirsAre()
    ensures KUBE_DIR in DIRS && KUBE_CONFIG_DIR in DIRS && ETCD_DIR in DIRS && LXDK_DIR in DIRS && REGISTRY_DIR in DIRS && UNIT_DIR in DIRS
  {
    assert DIRS[0] == KUBE_DIR && DIRS[1] == KUBE_CONFIG_DIR && DIRS[2] == ETCD_DIR && DIRS[3] == LXDK_DIR;
    assert DIRS[4] == REGISTRY_DIR && DIRS[5] == UNIT_DIR;
  }

  lemma FittingJoin(a: seq<Group>, b: seq<Group>)
    requires AllFitting(a) && AllFitting(b)
    ensures AllFitting(a + b)
  {
  }

  lemma EnvFits(dir: string)
    requires dir in DIRS
    ensures Fits(Group(dir, ["env"]))
  {
    FixedFit();
  }

  lemma EtcdGroupsFit()
    ensures AllFitting(ETCD_GROUPS)
  {
    ImageGroupsFit();
    DirsAre();
    EtcdNames();
    PushedFits(ETCD_DIR, ETCD_FILES);
    EnvFits(ETCD_DIR);
    FittingJoin(IMAGE_GROUPS, [Group(ETCD_DIR, ETCD_FILES), Group(ETCD_DIR, ["env"])]);
  }

  lemma ControllerGroupsFit()
    ensures AllFitting(CONTROLLER_GROUPS)
  {
    ImageGroupsFit();
    DirsAre();
    ControllerNames();
    PushedFits(KUBE_DIR, CONTROLLER_CERTS);
    PushedFits(KUBE_DIR, CONTROLLER_KUBECONFIGS);
    EnvFits(LXDK_DIR);
    FittingJoin(IMAGE_GROUPS, [Group(KUBE_DIR, CONTROLLER_CERTS), Group(KUBE_DIR, CONTROLLER_KUBECONFIGS), Group(LXDK_DIR, ["env"])]);
  }

  lemma NodeGroupsFit(node: string)
    requires '/' !in node
    ensures AllFitting(IMAGE_GROUPS + NodeGroups(node))
  {
    ImageGroupsFit();
    DirsAre();
    WorkerNames(node);
    PushedFits(KUBE_DIR, WorkerCerts(node));
    PushedFits(KUBE_DIR, WorkerKubeconfigs(node));
    EnvFits(LXDK_DIR);
    FittingJoin(IMAGE_GROUPS, NodeGroups(node));
  }

  /** What the roles need of their images are units and two configuration files. */
  lemma RoleFileIs(image: Image, f: string)
    requires f in RoleFiles(image)
    ensures f == SCHEDULER_CONFIG || f == REGISTRY_CONFIG || exists s :: s != Kubelet && f == UnitPath(s)
  {
  }

  lemma ImageHasOne(m: Nodes, groups: seq<Group>, d: ClusterDir, env: string, image: Image, f: string)
    requires (forall g | g in IMAGE_GROUPS :: g in groups) && f in RoleFiles(image)
    ensures HasAll(With(m, groups, d, env), [f])
  {
    RoleFileIs(image, f);
    ImageGroupsFit();
    assert IMAGE_GROUPS[0] in IMAGE_GROUPS && IMAGE_GROUPS[1] in IMAGE_GROUPS && IMAGE_GROUPS[2] in IMAGE_GROUPS;
    if f == SCHEDULER_CONFIG {
      WithMember(m, groups, d, env, IMAGE_GROUPS[1], "kube-scheduler.yaml");
    } else if f == REGISTRY_CONFIG {
      WithMember(m, groups, d, env, IMAGE_GROUPS[2], "config.yml");
    } else {
      var s :| s != Kubelet && f == UnitPath(s);
      UnitFits(s);
      WithMember(m, groups, d, env, IMAGE_GROUPS[0], UnitName(s));
    }
  }

  /** A tree with what all images bring serves every role. */
  ghost predicate FitsAll(t: Nodes) {
    forall image: Image :: FitsRole(t, image)
  }

  lemma ImageHas(m: Nodes, groups: seq<Group>, d: ClusterDir, env: string)
    requires Bare(m) && AllFitting(groups) && forall g | g in IMAGE_GROUPS :: g in groups
    ensures FitsAll(With(m, groups, d, env))
  {
    WithRoomy(m, groups, d, env);
    forall image: Image
      ensures FitsRole(With(m, groups, d, env), image)
    {
      forall f | f in RoleFiles(image)
        ensures IsFile(With(m, groups, d, env), Locate(f))
      {
        ImageHasOne(m, groups, d, env, image, f);
      }
      assert RoleFits(With(m, groups, d, env), image);
    }
  }
}
