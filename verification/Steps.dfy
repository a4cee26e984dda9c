/**
  What each lxdk command may do to the world, and what it has done when it
  succeeds. A command can fail at any call, so each relation also says what a
  failed one may leave behind.
 */
module Steps {
  import opened Text
  import opened Paths
  import opened Trees
  import opened Names
  import opened Wrappers
  import opened Worlds
  import opened Containers
  import opened Provision
  import opened Workers
  import opened Startup

  /** The flags of create. */
  datatype Options = Options(driver: string, pool: string, network: string, numWorkers: int)

  /** One run of lxdk. The host name is what connecting to LXD reports; it is empty for a local snap. */
  datatype Action =
    | Create(c: string, options: Options)
    | Start(c: string, hostname: string)
    | Stop(c: string)
    | StartWorker(c: string, hostname: string)
    | Delete(c: string, storage: bool, network: bool)

  // ---- records ----

  /** The containers of a record by their roles. */
  function Roles(s: ClusterState): seq<string> {
    [s.etcd, s.controller, s.registry] + s.workers
  }

  /** A record is a cluster's own: every container has a name of its role, and the list holds each role once. */
  ghost predicate RecordFor(s: ClusterState, c: string) {
    && s.name == c
    && NamedFor(s.etcd, c, Etcd) && NamedFor(s.controller, c, Controller) && NamedFor(s.registry, c, Registry)
    && s.workers != [] && (forall i | 0 <= i < |s.workers| :: NamedFor(s.workers[i], c, Worker))
    && multiset(s.containers) == multiset(Roles(s))
  }

  ghost predicate Distinct(names: seq<string>) {
    forall i, j | 0 <= i < j < |names| :: names[i] != names[j]
  }

  // ---- guards ----

  ghost predicate AllPresent(m: map<string, Instance>, names: seq<string>) {
    forall n | n in names :: n in m
  }

  ghost predicate AllRun(m: map<string, Instance>, names: seq<string>) {
    forall n | n in names :: n in m && m[n].running
  }

  ghost predicate NoneRuns(m: map<string, Instance>, names: seq<string>) {
    forall n | n in names && n in m :: !m[n].running
  }

  /** start gets past its checks. */
  ghost predicate StartGuard(w: World, c: string) {
    && Recorded(w, c) && RecordOf(w, c).runState != Running
    && AllPresent(w.instances, RecordOf(w, c).containers) && NoneRuns(w.instances, RecordOf(w, c).containers)
  }

  /** stop gets past its check. */
  ghost predicate StopGuard(w: World, c: string) {
    Recorded(w, c) && RecordOf(w, c).runState != Stopped
  }

  /** start-worker gets past its check. */
  ghost predicate WorkerGuard(w: World, c: string) {
    Recorded(w, c) && RecordOf(w, c).runState == Running
  }

  // ---- changes to instances ----

  /** Instances named in `names` may have been started and given files and devices; nothing else changed. */
  ghost predicate Raised(m: map<string, Instance>, m': map<string, Instance>, names: set<string>) {
    && m'.Keys == m.Keys
    && (forall n | n in m && n in names :: RaisedOne(m[n], m'[n]))
    && (forall n | n in m && n !in names :: m'[n] == m[n])
  }

  ghost predicate RaisedOne(a: Instance, b: Instance) {
    && b == a.(running := b.running, tree := b.tree, devices := b.devices) && (a.running ==> b.running)
    && a.devices.Keys <= b.devices.Keys && Settles(a.tree, b.tree)
  }

  /** Instances named in `names` may have been stopped; nothing else changed. */
  ghost predicate Lowered(m: map<string, Instance>, m': map<string, Instance>, names: set<string>) {
    && m'.Keys == m.Keys
    && (forall n | n in m && n in names :: LoweredOne(m[n], m'[n]))
    && (forall n | n in m && n !in names :: m'[n] == m[n])
  }

  ghost predicate LoweredOne(a: Instance, b: Instance) {
    b == a.(running := b.running) && (b.running ==> a.running)
  }

  /** Instances named in `names` may have been stopped or deleted; nothing else changed. */
  ghost predicate Removed(m: map<string, Instance>, m': map<string, Instance>, names: set<string>) {
    && m'.Keys <= m.Keys
    && (forall n | n in m && n in names && n in m' :: LoweredOne(m[n], m'[n]))
    && (forall n | n in m && n !in names :: n in m' && m'[n] == m[n])
  }

  /** The instances there were are as they were. */
  ghost predicate OldKept(m: map<string, Instance>, m': map<string, Instance>) {
    forall n | n in m :: n in m' && m'[n] == m[n]
  }

  /** A container of the cluster that was not there before. */
  ghost predicate NewContainer(m: map<string, Instance>, m': map<string, Instance>, n: string,
                               c: string, image: Image, pool: string, network: string) {
    NamedFor(n, c, image) && n !in m && n in m' && AsCreated(m'[n], n, image, pool, network)
  }

  /** Every instance that was not there before is a container of the cluster. */
  ghost predicate NewOwned(m: map<string, Instance>, m': map<string, Instance>, c: string, pool: string, network: string) {
    forall n | n in m' && n !in m :: exists image :: NewContainer(m, m', n, c, image, pool, network)
  }

  /** Exactly the recorded containers were added, each made from the image of its role. */
  ghost predicate MadeAs(m: map<string, Instance>, m': map<string, Instance>, c: string, s: ClusterState) {
    && OldKept(m, m') && m'.Keys == m.Keys + NameSet(s.containers)
    && NewContainer(m, m', s.etcd, c, Etcd, s.storagePool, s.networkID)
    && NewContainer(m, m', s.controller, c, Controller, s.storagePool, s.networkID)
    && NewContainer(m, m', s.registry, c, Registry, s.storagePool, s.networkID)
    && forall i | 0 <= i < |s.workers| :: NewContainer(m, m', s.workers[i], c, Worker, s.storagePool, s.networkID)
  }

  // ---- create ----

  /** The network and pool create makes if it is not told to use others. */
  function OwnName(c: string): string {
    "lxdk-" + c
  }

  function NetworkOf(c: string, o: Options): string {
    if o.network == "" then OwnName(c) else o.network
  }

  function PoolOf(c: string, o: Options): string {
    if o.pool == "" then OwnName(c) else o.pool
  }

  /** What create writes into the record, whatever order it visits the roles in. */
  ghost predicate FreshRecord(s: ClusterState, c: string, o: Options) {
    && RecordFor(s, c) && Distinct(s.containers) && |s.workers| == o.numWorkers && s.runState == Uninitialized
    && s.networkID == NetworkOf(c, o) && s.storagePool == PoolOf(c, o) && s.storageDriver == o.driver
  }

  /** A name was added to a set of names if it was left open, and then it was new. */
  ghost predicate AddedIfOpen(before: set<string>, after: set<string>, given: string, own: string) {
    after == (if given == "" then before + {own} else before) && (given == "" ==> own !in before)
  }

  /** create got as far as writing the record. */
  ghost predicate CreateMade(w: World, c: string, o: Options, w': World, s: ClusterState) {
    && FreshRecord(s, c, o) && MadeAs(w.instances, w'.instances, c, s)
    && AddedIfOpen(w.networks, w'.networks, o.network, OwnName(c))
    && AddedIfOpen(w.pools, w'.pools, o.pool, OwnName(c))
    && NetworkOf(c, o) in w'.networks && PoolOf(c, o) in w'.pools
    && w'.profiles == w.profiles + {"lxdk"} && w'.starts == w.starts
    && c in w'.clusters && w'.clusters == w.clusters[c := w'.clusters[c]] && w'.clusters[c].record == Some(s)
    && BaseSound(w'.clusters[c])
  }

  /** What create's rollback may leave of the networks or pools: a name of its own more, or a given one less. */
  ghost predicate AbortedNames(before: set<string>, after: set<string>, given: string, own: string) {
    || after == before
    || (given == "" && own !in before && after == before + {own})
    || (given != "" && after == before - {given})
  }

  /** What is no longer there was held by no instance when it went. */
  ghost predicate DroppedFree(w: World, w': World) {
    && (forall x | x in w.networks && x !in w'.networks :: NetworkFree(w'.instances, x))
    && (forall x | x in w.pools && x !in w'.pools :: PoolFree(w'.instances, x))
  }

  /** Writing the record failed, after all containers were made, and left an empty directory. */
  ghost predicate EmptyLeft(w: World, c: string, o: Options, w': World) {
    && o.numWorkers >= 1 && w'.clusters == w.clusters[c := EMPTY_DIR]
    && AddedIfOpen(w.networks, w'.networks, o.network, OwnName(c)) && AddedIfOpen(w.pools, w'.pools, o.pool, OwnName(c))
  }

  /**
    create failed before it wrote the record. Containers already made stay, and
    with them their network and pool. If writing the record failed an empty
    directory may stay, too.
   */
  ghost predicate CreateAborted(w: World, c: string, o: Options, w': World) {
    && OldKept(w.instances, w'.instances) && NewOwned(w.instances, w'.instances, c, PoolOf(c, o), NetworkOf(c, o))
    && (o.numWorkers < 1 ==> w'.instances == w.instances)
    && AbortedNames(w.networks, w'.networks, o.network, OwnName(c))
    && AbortedNames(w.pools, w'.pools, o.pool, OwnName(c))
    && (w'.pools != w.pools && o.pool != "" ==> Contains(o.pool, "lxdk"))
    && DroppedFree(w, w') && (w'.instances != w.instances ==> NetworkOf(c, o) in w'.networks && PoolOf(c, o) in w'.pools)
    && w.profiles <= w'.profiles <= w.profiles + {"lxdk"} && w'.starts == w.starts
    && (w'.clusters == w.clusters || EmptyLeft(w, c, o, w'))
  }

  ghost predicate CreateStep(w: World, c: string, o: Options, r: Outcome, w': World) {
    if c in w.clusters then w' == w && (r == Refused || r == Failed)
    else
      && (r == Done || r == Failed)
      && ((r == Failed && CreateAborted(w, c, o, w')) ||
          exists s :: CreateMade(w, c, o, w', s) && (r == Done ==> HasBase(w'.clusters[c])))
  }

  // ---- start ----

  /** No local file went away, whatever became of the record, and the certificates create made are as they were. */
  ghost predicate FilesKept(d: ClusterDir, e: ClusterDir) {
    FilesStay(d, e) && BaseSame(d, e)
  }

  ghost predicate FilesStay(d: ClusterDir, e: ClusterDir) {
    d.files.Keys <= e.files.Keys && d.dirs <= e.dirs
  }

  ghost predicate StartedTo(w: World, c: string, r: Outcome, w': World, d: ClusterDir)
    requires Recorded(w, c)
  {
    var s := RecordOf(w, c);
    && w' == World(w'.instances, w.networks, w.pools, w.profiles, w'.starts, w.clusters[c := d])
    && StartsReady(w.starts, w'.starts) && FilesKept(w.clusters[c], d)
    && Raised(w.instances, w'.instances, NameSet(s.containers))
    && d.record == Some(if r == Done then s.(runState := Running) else s)
    && (r == Done ==> AllRun(w'.instances, s.containers) && WholeStart(d, w'.instances, w.starts, w'.starts, s))
    && (r.Missing? ==> !HasBase(w.clusters[c]))
  }

  ghost predicate Started(w: World, c: string, r: Outcome, w': World)
    requires Recorded(w, c)
  {
    exists d :: StartedTo(w, c, r, w', d)
  }

  ghost predicate StartStep(w: World, c: string, hostname: string, r: Outcome, w': World) {
    if !StartGuard(w, c) then w' == w && (r == Refused || r == Failed)
    else
      && r != Refused && (hostname == "" ==> r != Done)
      && Started(w, c, r, w')
  }

  // ---- stop ----

  function WithRunState(d: ClusterDir, s: ClusterState, runState: RunState): ClusterDir {
    d.(record := Some(s.(runState := runState)))
  }

  ghost predicate StoppedAll(w: World, c: string, w': World)
    requires Recorded(w, c)
  {
    var s := RecordOf(w, c);
    && AllPresent(w.instances, s.containers) && NoneRuns(w'.instances, s.containers)
    && w' == w.(instances := w'.instances, clusters := w.clusters[c := WithRunState(w.clusters[c], s, Stopped)])
  }

  ghost predicate StopStep(w: World, c: string, r: Outcome, w': World) {
    if !StopGuard(w, c) then w' == w && r == Refused
    else
      && (r == Done || r == Failed)
      && Lowered(w.instances, w'.instances, NameSet(RecordOf(w, c).containers))
      && (if r == Done then StoppedAll(w, c, w') else w' == w.(instances := w'.instances))
  }

  // ---- start-worker ----

  ghost predicate WorkerAdded(w: World, c: string, r: Outcome, w': World, n: string, d: ClusterDir)
    requires Recorded(w, c)
  {
    var s := RecordOf(w, c);
    && w' == World(w'.instances, w.networks, w.pools, w.profiles, w'.starts, w.clusters[c := d])
    && StartsReady(w.starts, w'.starts) && FilesKept(w.clusters[c], d)
    && NamedFor(n, c, Worker) && n !in w.instances && n in w'.instances
    && w'.instances == w.instances[n := w'.instances[n]]
    && AsCreated(w'.instances[n].(running := false, devices := map[]), n, Worker, s.storagePool, s.networkID)
    && d.record == Some(if r == Done then s.(containers := s.containers + [n], workers := s.workers + [n]) else s)
    && (r == Done ==> w'.instances[n].running && Equipped(w'.instances, n) && CanJoin(d, ToLower(n)))
    && (r.Missing? ==> !HasStarted(w.clusters[c]))
  }

  ghost predicate StartWorkerStep(w: World, c: string, hostname: string, r: Outcome, w': World) {
    if !WorkerGuard(w, c) then w' == w && r == Refused
    else
      && r != Refused && (hostname == "" ==> r != Done)
      && ((w' == w && r == Failed) || exists n, d :: WorkerAdded(w, c, r, w', n, d))
  }

  // ---- delete ----

  /** What delete does to the network or the pool: delete it if asked to and if its name says that lxdk made it. */
  function WithoutOwn(names: set<string>, name: string, asked: bool): set<string> {
    if asked && Contains(name, "lxdk") then names - {name} else names
  }

  /** The pool and the network delete is to take along are there, and no instance uses them. */
  ghost predicate HoldingsFree(m: map<string, Instance>, networks: set<string>, pools: set<string>, s: ClusterState,
                               storage: bool, network: bool) {
    && (storage && Contains(s.storagePool, "lxdk") ==> s.storagePool in pools && PoolFree(m, s.storagePool))
    && (network && Contains(s.networkID, "lxdk") ==> s.networkID in networks && NetworkFree(m, s.networkID))
  }

  /**
    delete can succeed: every recorded container exists, none is recorded
    twice, and the pool and network to go are there and held by no other
    instance.
   */
  ghost predicate Deletable(w: World, c: string, storage: bool, network: bool) {
    && Recorded(w, c) && AllPresent(w.instances, RecordOf(w, c).containers) && Distinct(RecordOf(w, c).containers)
    && HoldingsFree(w.instances - NameSet(RecordOf(w, c).containers), w.networks, w.pools, RecordOf(w, c), storage, network)
  }

  ghost predicate DeletedAll(w: World, c: string, storage: bool, network: bool, w': World)
    requires Recorded(w, c)
  {
    var s := RecordOf(w, c);
    && Deletable(w, c, storage, network)
    && w' == World(w.instances - NameSet(s.containers), WithoutOwn(w.networks, s.networkID, network),
                   WithoutOwn(w.pools, s.storagePool, storage), w.profiles, w.starts, w.clusters - {c})
  }

  /** What is left of a cluster's directory when removing it fails. */
  ghost predicate RemnantOf(d: ClusterDir, e: ClusterDir) {
    (e.record == None || e.record == d.record) && forall f | f in e.files :: f in d.files && e.files[f] == d.files[f]
  }

  /** delete got past the instances. */
  ghost predicate InstancesGone(w: World, c: string, w': World)
    requires Recorded(w, c)
  {
    var s := RecordOf(w, c);
    AllPresent(w.instances, s.containers) && w'.instances == w.instances - NameSet(s.containers)
  }

  ghost predicate DeletedPart(w: World, c: string, storage: bool, network: bool, w': World)
    requires Recorded(w, c)
  {
    var s := RecordOf(w, c);
    && Removed(w.instances, w'.instances, NameSet(s.containers))
    && (w'.pools == w.pools || w'.pools == WithoutOwn(w.pools, s.storagePool, storage))
    && (w'.networks == w.networks || w'.networks == WithoutOwn(w.networks, s.networkID, network))
    && DroppedFree(w, w') && w'.profiles == w.profiles && w'.starts == w.starts
    && (w'.clusters == w.clusters ||
        (c in w'.clusters && w'.clusters == w.clusters[c := w'.clusters[c]] && RemnantOf(w.clusters[c], w'.clusters[c])))
    && (w' != w.(instances := w'.instances) ==> InstancesGone(w, c, w'))
    && (w'.networks != w.networks ==> w'.pools == WithoutOwn(w.pools, s.storagePool, storage))
    && (w'.clusters != w.clusters ==>
          w'.pools == WithoutOwn(w.pools, s.storagePool, storage) && w'.networks == WithoutOwn(w.networks, s.networkID, network))
  }

  ghost predicate DeleteStep(w: World, c: string, storage: bool, network: bool, r: Outcome, w': World) {
    if !Recorded(w, c) then w' == w && r == Refused
    else
      && (r == Done || r == Failed)
      && (if r == Done then DeletedAll(w, c, storage, network, w') else DeletedPart(w, c, storage, network, w'))
  }

  // ---- any command ----

  ghost predicate Step(w: World, a: Action, r: Outcome, w': World) {
    match a
    case Create(c, o) => CreateStep(w, c, o, r, w')
    case Start(c, hostname) => StartStep(w, c, hostname, r, w')
    case Stop(c) => StopStep(w, c, r, w')
    case StartWorker(c, hostname) => StartWorkerStep(w, c, hostname, r, w')
    case Delete(c, storage, network) => DeleteStep(w, c, storage, network, r, w')
  }

  /** The command failed after it had changed something. */
  ghost predicate Partway(w: World, r: Outcome, w': World) {
    r != Done && w' != w
  }
}
