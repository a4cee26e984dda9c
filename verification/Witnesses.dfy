/**
  Runs that reach what the theorems about failures speak of: for every cluster
  name a run in which a delete that fails partway leaves a stopped cluster with
  a container gone, and a lifetime that loses the pool it was given.
 */
module Witnesses {
  import opened Text
  import opened Paths
  import opened Trees
  import opened Names
  import opened Wrappers
  import opened Credentials
  import opened Worlds
  import opened Certificates
  import opened Containers
  import opened Provision
  import opened Workers
  import opened Layouts
  import opened Steps
  import opened Isolation
  import opened Runs
  import opened Guards
  import opened Orphans
  import opened RoundTrip

  // ---- a tree that holds what the images bring ----

  lemma ImageTreeOf(m: Nodes) returns (t: Tree)
    requires Bare(m)
    ensures t == With(m, IMAGE_GROUPS, EMPTY_DIR, "") && FitsAll(t)
  {
    ImageGroupsFit();
    WithWf(m, IMAGE_GROUPS, EMPTY_DIR, "");
    ImageHas(m, IMAGE_GROUPS, EMPTY_DIR, "");
    t := With(m, IMAGE_GROUPS, EMPTY_DIR, "");
  }

  lemma ImageTree() returns (t: Tree)
    ensures FitsAll(t)
  {
    var m := BareTree(DIRS);
    t := ImageTreeOf(m);
  }

  // ---- a cluster with one worker ----

  const ID := "aaaaa"

  lemma IdIsId()
    ensures IsId(ID)
  {
  }

  function NameOf(c: string, image: Image): string {
    ContainerName(c, image, ID)
  }

  ghost function Member(c: string, image: Image, pool: string, t: Tree): Instance {
    Instance(false, pool, OwnName(c), SourceOf(image), ProfilesFor(NameOf(c, image)), map[], t)
  }

  ghost function Members(c: string, pool: string, t: Tree): map<string, Instance> {
    map[NameOf(c, Etcd) := Member(c, Etcd, pool, t), NameOf(c, Controller) := Member(c, Controller, pool, t),
        NameOf(c, Registry) := Member(c, Registry, pool, t), NameOf(c, Worker) := Member(c, Worker, pool, t)]
  }

  function StateOf(c: string, pool: string, runState: RunState): ClusterState {
    ClusterState(c, OwnName(c), [NameOf(c, Etcd), NameOf(c, Controller), NameOf(c, Registry), NameOf(c, Worker)], runState,
                 NameOf(c, Etcd), NameOf(c, Controller), NameOf(c, Registry), [NameOf(c, Worker)], "btrfs", pool)
  }

  lemma NamesDiffer(c: string)
    ensures forall i: Image, j: Image :: NameOf(c, i) == NameOf(c, j) ==> i == j
    ensures forall i: Image :: NamedFor(NameOf(c, i), c, i)
  {
    IdIsId();
    forall i: Image, j: Image | NameOf(c, i) == NameOf(c, j)
      ensures i == j
    {
      NamesInjective(c, i, ID, c, j, ID);
    }
  }

  lemma FourDistinct(names: seq<string>)
    requires |names| == 4 && names[0] != names[1] && names[0] != names[2] && names[0] != names[3]
    requires names[1] != names[2] && names[1] != names[3] && names[2] != names[3]
    ensures Distinct(names)
  {
  }

  lemma StateFits(c: string, pool: string, runState: RunState)
    ensures RecordFor(StateOf(c, pool, runState), c) && Distinct(StateOf(c, pool, runState).containers)
    ensures |StateOf(c, pool, runState).workers| == 1
  {
    NamesDiffer(c);
    var s := StateOf(c, pool, runState);
    assert Roles(s) == s.containers;
    FourDistinct(s.containers);
  }

  lemma MembersFit(c: string, pool: string, t: Tree)
    requires FitsAll(t)
    ensures MadeAs(map[], Members(c, pool, t), c, StateOf(c, pool, Uninitialized))
  {
    NamesDiffer(c);
    var m, s := Members(c, pool, t), StateOf(c, pool, Uninitialized);
    forall image: Image
      ensures NameOf(c, image) in m && m[NameOf(c, image)] == Member(c, image, pool, t)
      ensures NewContainer(map[], m, NameOf(c, image), c, image, pool, OwnName(c))
    {
      assert image == Etcd || image == Controller || image == Registry || image == Worker;
    }
    assert m.Keys == NameSet(s.containers);
  }

  // ---- its directory ----

  const IP := "10.0.0.1"

  /** A container's node name. */
  function NodeOf(c: string, image: Image): string {
    ToLower(NameOf(c, image))
  }

  /** The certificates of the cluster. */
  function Identities(c: string): seq<Identity> {
    BASE_IDENTITIES + [ETCD_IDENTITY, API_IDENTITY, NodeIdentity(NodeOf(c, Controller)), NodeIdentity(NodeOf(c, Worker))]
  }

  /** Here certificates are for no hosts, and authorities and keys are empty. */
  function CertOf(id: Identity): Certificate {
    Certificate(id.cn, id.org, "", "", "")
  }

  function Find(ids: seq<Identity>, path: string): string {
    if ids == [] then ""
    else if path == CertPath(PemName(ids[0].file)) then PrintCert(CertOf(ids[0]))
    else Find(ids[1..], path)
  }

  /** The kubeconfig of one of the controller's users. */
  function ConfigOf(user: string, id: Identity): Kubeconfig {
    Kubeconfig(ServerAt(IP), "", user, PrintCert(CertOf(id)), "", user, "default")
  }

  /** What the files of the cluster's directory hold. */
  function TextOf(c: string, path: string): string {
    if path == KubeconfigPath("kube-controller-manager.kubeconfig") then PrintConfig(ConfigOf("kube-controller-manager", BASE_IDENTITIES[2]))
    else if path == KubeconfigPath("kube-scheduler.kubeconfig") then PrintConfig(ConfigOf("kube-scheduler", BASE_IDENTITIES[3]))
    else Find(Identities(c), path)
  }

  lemma {:induction false} FindAt(ids: seq<Identity>, i: nat)
    requires i < |ids| && forall j, k | 0 <= j < k < |ids| :: ids[j].file != ids[k].file
    ensures Find(ids, CertPath(PemName(ids[i].file))) == PrintCert(CertOf(ids[i]))
  {
    if i > 0 {
      SamePem(ids[i].file, ids[0].file);
      FindAt(ids[1..], i - 1);
    }
  }

  lemma SamePem(x: string, y: string)
    ensures CertPath(PemName(x)) == CertPath(PemName(y)) ==> x == y
  {
    SameCertPath(PemName(x), PemName(y));
    assert PemName(x)[..|PemName(x)| - 4] == x && PemName(y)[..|PemName(y)| - 4] == y;
  }

  lemma {:induction false} FindNone(ids: seq<Identity>, path: string)
    requires forall i | 0 <= i < |ids| :: path != CertPath(PemName(ids[i].file))
    ensures Find(ids, path) == ""
  {
    if ids != [] {
      FindNone(ids[1..], path);
    }
  }

  lemma KeyIsNoPem(x: string, y: string)
    requires NoKey(y)
    ensures CertPath(KeyName(x)) != CertPath(PemName(y))
  {
    SameCertPath(KeyName(x), PemName(y));
    assert KeyName(x)[..|KeyName(x)| - 4] == x + "-key" && PemName(y)[..|PemName(y)| - 4] == y;
    assert HasSuffix(x + "-key", "-key");
  }

  lemma IdentityFiles(c: string, i: nat)
    requires i < |Identities(c)|
    ensures |Identities(c)| == 9 && (i < 7 ==> Identities(c)[i].file == FIXED_CERTS[3 + i])
    ensures i == 7 ==> Identities(c)[i].file == NodeOf(c, Controller)
    ensures i == 8 ==> Identities(c)[i].file == NodeOf(c, Worker)
  {
    if i < 5 {
      BaseFiles(i);
    }
  }

  lemma IdentityCas(c: string, i: nat)
    requires i < |Identities(c)|
    ensures Identities(c)[i].ca == FIXED_CERTS[0] || Identities(c)[i].ca == FIXED_CERTS[1] || Identities(c)[i].ca == FIXED_CERTS[2]
  {
    if i < 5 {
      BaseFiles(i);
    }
  }

  lemma NodesAreOwn(c: string)
    ensures OwnedBy(NameOf(c, Controller), c) && OwnedBy(NameOf(c, Worker), c) && NodeOf(c, Controller) != NodeOf(c, Worker)
  {
    NamesDiffer(c);
    assert NamedFor(NameOf(c, Controller), c, Controller) && NamedFor(NameOf(c, Worker), c, Worker);
    if NodeOf(c, Controller) == NodeOf(c, Worker) {
      LowerInjective(NameOf(c, Controller), NameOf(c, Worker), c);
    }
  }

  /** No certificate's file is another's, an authority's or a key's. */
  lemma IdentitiesApart(c: string, i: nat)
    requires i < |Identities(c)|
    ensures NoKey(Identities(c)[i].file) && forall k | 0 <= k < 3 :: Identities(c)[i].file != FIXED_CERTS[k]
    ensures forall j | 0 <= j < i :: Identities(c)[j].file != Identities(c)[i].file
  {
    NodesAreOwn(c);
    IdentityFiles(c, i);
    if i < 7 {
      FixedNoKey(3 + i);
    } else {
      NodeNoKey(NameOf(c, if i == 7 then Controller else Worker), c);
    }
    forall k | 0 <= k < 3
      ensures Identities(c)[i].file != FIXED_CERTS[k]
    {
      if i < 7 {
        FixedDiffer(k, 3 + i);
      }
    }
    forall j | 0 <= j < i
      ensures Identities(c)[j].file != Identities(c)[i].file
    {
      IdentityFiles(c, j);
      if i < 7 {
        FixedDiffer(3 + j, 3 + i);
      }
    }
  }

  lemma TextOfCert(c: string, f: string)
    ensures TextOf(c, CertPath(f)) == Find(Identities(c), CertPath(f))
  {
    KubeconfigsApart("kube-controller-manager.kubeconfig", f);
    KubeconfigsApart("kube-scheduler.kubeconfig", f);
  }

  /** What a certificate, its key and its authority's certificate hold. */
  lemma ChainTexts(c: string, i: nat)
    requires i < |Identities(c)|
    ensures var id := Identities(c)[i];
            && TextOf(c, CertPath(PemName(id.file))) == PrintCert(CertOf(id))
            && TextOf(c, CertPath(KeyName(id.file))) == "" && TextOf(c, CertPath(PemName(id.ca))) == ""
  {
    var ids := Identities(c);
    forall j, k | 0 <= j < k < |ids|
      ensures ids[j].file != ids[k].file
    {
      IdentitiesApart(c, k);
    }
    FindAt(ids, i);
    IdentityCas(c, i);
    forall j | 0 <= j < |ids|
      ensures CertPath(KeyName(ids[i].file)) != CertPath(PemName(ids[j].file)) && CertPath(PemName(ids[i].ca)) != CertPath(PemName(ids[j].file))
    {
      IdentitiesApart(c, j);
      KeyIsNoPem(ids[i].file, ids[j].file);
      SamePem(ids[i].ca, ids[j].file);
    }
    FindNone(ids, CertPath(KeyName(ids[i].file)));
    FindNone(ids, CertPath(PemName(ids[i].ca)));
    TextOfCert(c, PemName(ids[i].file));
    TextOfCert(c, KeyName(ids[i].file));
    TextOfCert(c, PemName(ids[i].ca));
  }

  /** Every file holds what it is to hold. */
  ghost predicate Texted(d: ClusterDir, c: string) {
    forall f | f in d.files :: d.files[f] == TextOf(c, f)
  }

  lemma TextedIssued(d: ClusterDir, c: string, i: nat)
    requires Texted(d, c) && i < |Identities(c)| && HasChain(d, Identities(c)[i])
    ensures Issued(d, Identities(c)[i])
  {
    ChainTexts(c, i);
    assert IssuedAs(d, Identities(c)[i], CertOf(Identities(c)[i]));
    assert IssuedTo(d, Identities(c)[i]);
  }

  lemma TextedSound(d: ClusterDir, c: string)
    requires Texted(d, c)
    ensures BaseSound(d)
  {
    forall i | 0 <= i < |BASE_IDENTITIES| && HasChain(d, BASE_IDENTITIES[i])
      ensures Issued(d, BASE_IDENTITIES[i])
    {
      assert Identities(c)[i] == BASE_IDENTITIES[i];
      TextedIssued(d, c, i);
    }
    assert BaseIssued(d);
  }

  const BASE_NAMES := [
    "ca", "ca-aggregation", "ca-etcd", "admin", "aggregation-client", "kube-controller-manager", "kube-scheduler", "kube-proxy"]

  ghost function PairFiles(names: seq<string>): set<string> {
    (set n | n in names :: CertPath(PemName(n))) + (set n | n in names :: CertPath(KeyName(n)))
  }

  ghost function BaseDir(s: ClusterState): ClusterDir {
    ClusterDir(Some(s), map f | f in PairFiles(BASE_NAMES) + {CaConfigPath()} :: TextOf(s.name, f), {CERT_DIR})
  }

  lemma BaseDirHasBase(s: ClusterState)
    ensures HasBase(BaseDir(s)) && BaseSound(BaseDir(s))
  {
    var d := BaseDir(s);
    forall i | 0 <= i < |BASE_NAMES|
      ensures HasPair(d, BASE_NAMES[i])
    {
      assert BASE_NAMES[i] in BASE_NAMES;
    }
    assert HasPair(d, BASE_NAMES[0]) && HasPair(d, BASE_NAMES[1]) && HasPair(d, BASE_NAMES[2]) && HasPair(d, BASE_NAMES[3]);
    assert HasPair(d, BASE_NAMES[4]) && HasPair(d, BASE_NAMES[5]) && HasPair(d, BASE_NAMES[6]) && HasPair(d, BASE_NAMES[7]);
    TextedSound(d, s.name);
  }

  // ---- creating it ----

  function Flags(given: string): Options {
    Options("btrfs", given, "", 1)
  }

  function PoolsBefore(given: string): set<string> {
    if given == "" then {} else {given}
  }

  ghost function Before(given: string): World {
    World(map[], {}, PoolsBefore(given), {"lxdk"}, [], map[])
  }

  ghost function Created(c: string, given: string, t: Tree): World {
    var pool := PoolOf(c, Flags(given));
    World(Members(c, pool, t), {OwnName(c)}, {pool}, {"lxdk"}, [], map[c := BaseDir(StateOf(c, pool, Uninitialized))])
  }

  /** One worker, and names that leave the cluster in its own network. */
  ghost predicate OneWorkerOwnNetwork(w: World, c: string, o: Options) {
    && o.numWorkers == 1 && o.driver == "btrfs" && c !in w.clusters && NetworkOf(c, o) == OwnName(c)
    && (o.network == "" <==> OwnName(c) !in w.networks)
    && (if o.pool == "" then OwnName(c) !in w.pools else o.pool in w.pools)
  }

  ghost function CreatedIn(w: World, c: string, o: Options, t: Tree): World {
    var pool := PoolOf(c, o);
    World(w.instances + Members(c, pool, t), w.networks + {OwnName(c)}, w.pools + {pool}, w.profiles + {"lxdk"}, w.starts,
          w.clusters[c := BaseDir(StateOf(c, pool, Uninitialized))])
  }

  lemma MadeBeside(m: map<string, Instance>, m': map<string, Instance>, c: string, s: ClusterState)
    requires MadeAs(map[], m', c, s) && m.Keys !! m'.Keys
    ensures MadeAs(m, m + m', c, s)
  {
    assert (m + m').Keys == m.Keys + NameSet(s.containers);
  }

  /** A create that succeeds, spelled out. */
  lemma CreateIs(w: World, c: string, o: Options, w': World, s: ClusterState, d: ClusterDir)
    requires OneWorkerOwnNetwork(w, c, o) && FreshRecord(s, c, o) && MadeAs(w.instances, w'.instances, c, s)
    requires d.record == Some(s) && HasBase(d) && BaseSound(d)
    requires w' == World(w'.instances, w.networks + {OwnName(c)}, w.pools + {PoolOf(c, o)}, w.profiles + {"lxdk"},
                         w.starts, w.clusters[c := d])
    ensures CreateStep(w, c, o, Done, w')
  {
    assert CreateMade(w, c, o, w', s);
  }

  lemma CreateHappens(w: World, c: string, o: Options, t: Tree)
    requires FitsAll(t) && OneWorkerOwnNetwork(w, c, o) && w.instances.Keys !! Members(c, PoolOf(c, o), t).Keys
    ensures CreateStep(w, c, o, Done, CreatedIn(w, c, o, t))
  {
    var pool := PoolOf(c, o);
    var s := StateOf(c, pool, Uninitialized);
    StateFits(c, pool, Uninitialized);
    MembersFit(c, pool, t);
    MadeBeside(w.instances, Members(c, pool, t), c, s);
    BaseDirHasBase(s);
    CreateIs(w, c, o, CreatedIn(w, c, o, t), s, BaseDir(s));
  }

  lemma FirstCreateHappens(c: string, given: string, t: Tree)
    requires FitsAll(t)
    ensures CreateStep(Before(given), c, Flags(given), Done, Created(c, given, t))
  {
    CreateHappens(Before(given), c, Flags(given), t);
    FirstCreated(c, given, t);
  }

  lemma FirstCreated(c: string, given: string, t: Tree)
    ensures Created(c, given, t) == CreatedIn(Before(given), c, Flags(given), t)
  {
    var pool := PoolOf(c, Flags(given));
    var members := Members(c, pool, t);
    assert map[] + members == members;
    assert {"lxdk"} + {"lxdk"} == {"lxdk"} && {} + {OwnName(c)} == {OwnName(c)} && PoolsBefore(given) + {pool} == {pool};
  }

  lemma NextIs(w: World, a: Action, r: Outcome, w': World)
    requires ClusterName(a.c) && Step(w, a, r, w')
    ensures Next(w, Event(a, r), w')
  {
  }

  lemma MembersAre(c: string, t: Tree)
    ensures forall image: Image ::
              && NameOf(c, image) in Members(c, OwnName(c), t)
              && Members(c, OwnName(c), t)[NameOf(c, image)] == Member(c, image, OwnName(c), t)
    ensures Members(c, OwnName(c), t).Keys == NameSet(StateOf(c, OwnName(c), Uninitialized).containers)
  {
  }

  /** Every name in the record is one role's. */
  lemma MemberOf(c: string, n: string) returns (image: Image)
    requires n in NameSet(StateOf(c, OwnName(c), Uninitialized).containers)
    ensures n == NameOf(c, image)
  {
    image := if n == NameOf(c, Etcd) then Etcd else if n == NameOf(c, Controller) then Controller
             else if n == NameOf(c, Registry) then Registry else Worker;
  }

  /** LXD holds the cluster's recorded network and pool and no others, and its recorded containers and no others. */
  ghost predicate HeldAlone(w: World, s: ClusterState) {
    w.networks == {s.networkID} && w.pools == {s.storagePool} && w.instances.Keys == NameSet(s.containers)
  }

  /** The world after create. */
  lemma CreatedWorld(c: string, t: Tree) returns (w: World)
    requires ClusterName(c) && FitsAll(t)
    ensures Next(Before(""), Event(Create(c, Flags("")), Done), w)
    ensures StartGuard(w, c) && RecordOf(w, c) == StateOf(c, OwnName(c), Uninitialized)
    ensures w.instances == Members(c, OwnName(c), t) && w.clusters[c] == BaseDir(StateOf(c, OwnName(c), Uninitialized))
    ensures HeldAlone(w, RecordOf(w, c)) && w.starts == []
  {
    FirstCreateHappens(c, "", t);
    CreatedStartable(c, t);
    MembersAre(c, t);
    w := Created(c, "", t);
    NextIs(Before(""), Create(c, Flags("")), Done, w);
  }

  lemma CreatedStartable(c: string, t: Tree)
    ensures StartGuard(Created(c, "", t), c) && RecordOf(Created(c, "", t), c) == StateOf(c, OwnName(c), Uninitialized)
  {
    MembersAre(c, t);
    var m, s := Members(c, OwnName(c), t), StateOf(c, OwnName(c), Uninitialized);
    forall n | n in s.containers
      ensures n in m && !m[n].running
    {
      var image := MemberOf(c, n);
    }
  }

  // ---- a stopped cluster with a container gone ----

  lemma StopFrom(w: World, c: string) returns (w': World)
    requires ClusterName(c) && StopGuard(w, c) && AllPresent(w.instances, RecordOf(w, c).containers)
    ensures Next(w, Event(Stop(c), Done), w') && StartGuard(w', c) && RecordedStopped(w', c)
    ensures RecordOf(w', c).containers == RecordOf(w, c).containers
  {
    var s := RecordOf(w, c);
    var m := map n | n in w.instances :: if n in s.containers then w.instances[n].(running := false) else w.instances[n];
    w' := w.(instances := m, clusters := w.clusters[c := WithRunState(w.clusters[c], s, Stopped)]);
    NextIs(w, Stop(c), Done, w');
  }

  /** A delete may fail having got rid of any one container. */
  lemma DeleteLosesOne(w: World, c: string, n: string)
    requires Recorded(w, c) && n in RecordOf(w, c).containers && n in w.instances
    ensures DeleteStep(w, c, true, true, Failed, w.(instances := w.instances - {n}))
  {
  }

  ghost predicate Stranded(w: World, c: string) {
    RecordedStopped(w, c) && SomeMissing(w, c) && !SomeRuns(w, c) && !StartGuard(w, c) && !StopGuard(w, c)
  }

  /** The worlds of such a run, one by one. */
  lemma StrandingWorlds(c: string) returns (w0: World, w1: World, w2: World, w3: World)
    requires ClusterName(c)
    ensures Initial(w0) && Next(w0, Event(Create(c, Flags("")), Done), w1) && Next(w1, Event(Stop(c), Done), w2)
    ensures Next(w2, Event(Delete(c, true, true), Failed), w3) && Stranded(w3, c)
  {
    var t := ImageTree();
    w0 := Before("");
    w1 := CreatedWorld(c, t);
    w2 := StopFrom(w1, c);
    var n := RecordOf(w2, c).containers[0];
    DeleteLosesOne(w2, c, n);
    w3 := w2.(instances := w2.instances - {n});
    NextIs(w2, Delete(c, true, true), Failed, w3);
  }

  /**
    For every cluster name: create and stop succeed, delete fails after it got
    rid of one container, and neither start nor stop passes its checks, though
    no container runs and no start ever failed.
   */
  lemma FailedDeleteStrands(c: string) returns (run: Run)
    requires ClusterName(c)
    ensures run.events == [Event(Create(c, Flags("")), Done), Event(Stop(c), Done), Event(Delete(c, true, true), Failed)]
    ensures Stranded(run.worlds[3], c)
  {
    var w0, w1, w2, w3 := StrandingWorlds(c);
    run := Trace([w0, w1, w2, w3],
                 [Event(Create(c, Flags("")), Done), Event(Stop(c), Done), Event(Delete(c, true, true), Failed)]);
  }

  // ---- a record that could not be written ----

  ghost function Unwritten(c: string, t: Tree): World {
    World(Members(c, OwnName(c), t), {OwnName(c)}, {OwnName(c)}, {"lxdk"}, [], map[c := EMPTY_DIR])
  }

  lemma MembersOwned(c: string, t: Tree)
    requires FitsAll(t)
    ensures NewOwned(map[], Members(c, OwnName(c), t), c, OwnName(c), OwnName(c))
  {
    MembersFit(c, OwnName(c), t);
    MembersAre(c, t);
    var m := Members(c, OwnName(c), t);
    forall n | n in m
      ensures exists image :: NewContainer(map[], m, n, c, image, OwnName(c), OwnName(c))
    {
      var image := MemberOf(c, n);
      assert NewContainer(map[], m, NameOf(c, image), c, image, OwnName(c), OwnName(c));
    }
  }

  lemma CreateIsUnwritten(c: string, t: Tree)
    requires FitsAll(t)
    ensures CreateStep(Before(""), c, Flags(""), Failed, Unwritten(c, t))
  {
    MembersOwned(c, t);
    assert EmptyLeft(Before(""), c, Flags(""), Unwritten(c, t));
    assert CreateAborted(Before(""), c, Flags(""), Unwritten(c, t));
  }

  /** For every cluster name: a create fails writing its record and leaves an empty directory. */
  lemma EmptyDirectoryIsLeft(c: string) returns (run: Run)
    requires ClusterName(c)
    ensures run.events == [Event(Create(c, Flags("")), Failed)]
    ensures c !in run.worlds[0].clusters && c in run.worlds[1].clusters && !Recorded(run.worlds[1], c)
  {
    var t := ImageTree();
    CreateIsUnwritten(c, t);
    NextIs(Before(""), Create(c, Flags("")), Failed, Unwritten(c, t));
    run := Trace([Before(""), Unwritten(c, t)], [Event(Create(c, Flags("")), Failed)]);
  }

  // ---- a lifetime that loses its pool ----

  ghost function Emptied(): World {
    World(map[], {}, {}, {"lxdk"}, [], map[])
  }

  /** A delete can take a cluster that LXD holds alone, in its own network and a pool that tests as its own. */
  lemma DeleteEmpties(w: World, c: string)
    requires Recorded(w, c) && HeldAlone(w, RecordOf(w, c)) && Distinct(RecordOf(w, c).containers)
    requires forall b | b in w.clusters :: b == c
    requires Contains(RecordOf(w, c).networkID, "lxdk") && Contains(RecordOf(w, c).storagePool, "lxdk")
    ensures DeleteStep(w, c, true, true, Done, World(map[], {}, {}, w.profiles, w.starts, map[]))
  {
    assert w.instances - NameSet(RecordOf(w, c).containers) == map[];
    assert w.clusters - {c} == map[];
  }

  lemma DeleteTakesAll(c: string, given: string, t: Tree)
    requires given != "" && Contains(given, "lxdk")
    ensures DeleteStep(Created(c, given, t), c, true, true, Done, Emptied())
  {
    OwnNameTests(c);
    StateFits(c, given, Uninitialized);
    DeleteEmpties(Created(c, given, t), c);
  }

  /** The worlds of such a run, one by one. */
  lemma LosingWorlds(c: string, given: string) returns (w0: World, w1: World, w2: World)
    requires ClusterName(c) && given != "" && Contains(given, "lxdk")
    ensures Initial(w0) && Next(w0, Event(Create(c, Flags(given)), Done), w1) && Next(w1, Event(Delete(c, true, true), Done), w2)
    ensures given in w0.pools && given !in w2.pools
  {
    var t := ImageTree();
    FirstCreateHappens(c, given, t);
    DeleteTakesAll(c, given, t);
    w0, w1, w2 := Before(given), Created(c, given, t), Emptied();
    NextIs(w0, Create(c, Flags(given)), Done, w1);
    NextIs(w1, Delete(c, true, true), Done, w2);
  }

  /** For every cluster name and every given pool with "lxdk" in its name: create and delete succeed, and the pool is gone. */
  lemma GivenPoolIsLost(c: string, given: string) returns (run: Run)
    requires ClusterName(c) && given != "" && Contains(given, "lxdk")
    ensures Lifetime(run, 0, 1, c, Flags(given)) && Alone(run, 0, 1, c)
    ensures given in run.worlds[0].pools && given !in run.worlds[2].pools
  {
    var w0, w1, w2 := LosingWorlds(c, given);
    run := Trace([w0, w1, w2], [Event(Create(c, Flags(given)), Done), Event(Delete(c, true, true), Done)]);
  }

  // ---- a cluster that cannot be deleted though all its containers are there ----

  const OTHER_ID := "bbbbb"

  ghost function LeftOver(c: string, t: Tree): World {
    var n := ContainerName(c, Etcd, OTHER_ID);
    World(map[n := Instance(false, OwnName(c), OwnName(c), SourceOf(Etcd), ProfilesFor(n), map[], t)],
          {OwnName(c)}, {OwnName(c)}, {"lxdk"}, [], map[])
  }

  lemma CreateLeavesOne(c: string, t: Tree)
    requires FitsAll(t)
    ensures CreateStep(Before(""), c, Flags(""), Failed, LeftOver(c, t))
  {
    var w, w', n := Before(""), LeftOver(c, t), ContainerName(c, Etcd, OTHER_ID);
    assert IsId(OTHER_ID);
    assert NewContainer(w.instances, w'.instances, n, c, Etcd, OwnName(c), OwnName(c));
    assert CreateAborted(w, c, Flags(""), w');
  }

  /** The flags that name the network and the pool left over. */
  function TakingOver(c: string): Options {
    Options("btrfs", OwnName(c), OwnName(c), 1)
  }

  lemma CreateTakesOver(c: string, t: Tree)
    requires FitsAll(t)
    ensures CreateStep(LeftOver(c, t), c, TakingOver(c), Done, CreatedIn(LeftOver(c, t), c, TakingOver(c), t))
  {
    var w, n := LeftOver(c, t), ContainerName(c, Etcd, OTHER_ID);
    assert IsId(OTHER_ID) && OTHER_ID[0] != ID[0];
    IdIsId();
    forall i: Image
      ensures NameOf(c, i) != n
    {
      if NameOf(c, i) == n {
        NamesInjective(c, i, ID, c, Etcd, OTHER_ID);
      }
    }
    CreateHappens(w, c, TakingOver(c), t);
  }

  /** Every recorded container exists and none is recorded twice, and still delete cannot succeed. */
  ghost predicate Undeletable(w: World, c: string) {
    Recorded(w, c) && AllPresent(w.instances, RecordOf(w, c).containers) && Distinct(RecordOf(w, c).containers)
    && !Deletable(w, c, true, true)
  }

  lemma HeldIsUndeletable(w: World, c: string, n: string)
    requires Recorded(w, c) && n in w.instances && n !in RecordOf(w, c).containers
    requires Contains(RecordOf(w, c).storagePool, "lxdk") && w.instances[n].pool == RecordOf(w, c).storagePool
    ensures !Deletable(w, c, true, true)
  {
    assert n in w.instances - NameSet(RecordOf(w, c).containers);
  }

  /** After a create that succeeded the recorded containers are there, once each, beside what was there before. */
  lemma CreatedAreThere(w: World, c: string, o: Options, w': World, n: string)
    requires CreateStep(w, c, o, Done, w') && n in w.instances
    ensures Recorded(w', c) && AllPresent(w'.instances, RecordOf(w', c).containers) && Distinct(RecordOf(w', c).containers)
    ensures n !in RecordOf(w', c).containers && n in w'.instances && w'.instances[n] == w.instances[n]
    ensures RecordOf(w', c).storagePool == PoolOf(c, o)
  {
    var s :| CreateMade(w, c, o, w', s);
    MadeAccounts(w.instances, w'.instances, c, s);
    assert Accounted(w.instances, w'.instances, s.containers, n);
  }

  lemma TakenOverIsUndeletable(c: string, t: Tree)
    requires FitsAll(t)
    ensures Undeletable(CreatedIn(LeftOver(c, t), c, TakingOver(c), t), c)
  {
    var w, w', n := LeftOver(c, t), CreatedIn(LeftOver(c, t), c, TakingOver(c), t), ContainerName(c, Etcd, OTHER_ID);
    CreateTakesOver(c, t);
    CreatedAreThere(w, c, TakingOver(c), w', n);
    OwnNameTests(c);
    HeldIsUndeletable(w', c, n);
  }

  lemma UndeletableWorlds(c: string) returns (w0: World, w1: World, w2: World)
    requires ClusterName(c)
    ensures Initial(w0) && Next(w0, Event(Create(c, Flags("")), Failed), w1)
    ensures Next(w1, Event(Create(c, TakingOver(c)), Done), w2)
    ensures w1.instances != w0.instances && c !in w1.clusters && Undeletable(w2, c)
  {
    var t := ImageTree();
    CreateLeavesOne(c, t);
    CreateTakesOver(c, t);
    TakenOverIsUndeletable(c, t);
    w0, w1, w2 := Before(""), LeftOver(c, t), CreatedIn(LeftOver(c, t), c, TakingOver(c), t);
    NextIs(w0, Create(c, Flags("")), Failed, w1);
    NextIs(w1, Create(c, TakingOver(c)), Done, w2);
  }

  /**
    For every cluster name: a default create fails after it made a container,
    a create that is given the network and the pool left over succeeds, and
    delete cannot succeed though every recorded container exists.
   */
  lemma OrphanStrands(c: string) returns (run: Run)
    requires ClusterName(c)
    ensures run.events == [Event(Create(c, Flags("")), Failed), Event(Create(c, TakingOver(c)), Done)]
    ensures CreateBurns(MoveAt(run, 0), c) && Undeletable(run.worlds[2], c)
  {
    var w0, w1, w2 := UndeletableWorlds(c);
    run := Trace([w0, w1, w2], [Event(Create(c, Flags("")), Failed), Event(Create(c, TakingOver(c)), Done)]);
    MoveLinks(run, 0);
  }
}
