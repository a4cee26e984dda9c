/** The rest of start's provisioning: exposing the API server, making nodes of the workers and the controller. */
module Startup {
  import opened Text
  import opened Paths
  import opened Trees
  import opened Rooms
  import opened Names
  import opened Wrappers
  import opened Worlds
  import opened Addresses
  import opened Lxd
  import opened Certificates
  import opened Containers
  import opened Provision
  import opened Workers
  import opened ControlPlane
  import Blkid

  // ---- exposing the API server ----

  /** What a storage pool that is not the cluster's own means for the controller: nothing, a device to mount, or one that cannot be found. */
  datatype Mount = NoMount | MountAt(device: string) | Unknown

  /** Only a btrfs pool with a source needs a device: a path is taken as it is, anything else is looked up as a UUID. */
  function MountOf(conf: PoolConfig, blkid: string): Mount {
    if conf.driver != "btrfs" || conf.source.None? then NoMount
    else if HasPrefix(conf.source.value, "/") then MountAt(conf.source.value)
    else
      match Blkid.GetDeviceByUUID(blkid, conf.source.value)
      case Device(path) => MountAt(path)
      case _ => Unknown
  }

  const BTRFS := "btrfsmnt"

  function WithMount(devices: map<string, string>, mount: Mount): map<string, string> {
    if mount.MountAt? then devices[BTRFS := mount.device] else devices
  }

  /** What exposing the API server is to attach: nothing for the cluster's own pool. */
  function MountFor(s: ClusterState, conf: PoolConfig, blkid: string): Mount {
    if s.storagePool == "lxdk-" + s.name then NoMount else MountOf(conf, blkid)
  }

  /** The device the cluster's pool lies on can be found. */
  ghost predicate PoolFound(lxd: Server, cache: Cache, s: ClusterState)
    reads lxd`pools
  {
    s.storagePool == "lxdk-" + s.name ||
    (s.storagePool in lxd.pools && MountOf(lxd.ConfigOf(s.storagePool), cache.blkid) != Unknown)
  }

  /** The device a storage pool lies on, if the controller needs it. */
  method PoolDevice(lxd: Server, cache: Cache, pool: string) returns (ok: bool, mount: Mount)
    modifies lxd`faults, cache`faults
    ensures ok ==> mount == MountOf(lxd.ConfigOf(pool), cache.blkid) && mount != Unknown && pool in lxd.pools
    ensures Faults(lxd, cache) >= old(Faults(lxd, cache))
    ensures Faults(lxd, cache) == old(Faults(lxd, cache)) ==>
              (ok <==> pool in lxd.pools && MountOf(lxd.ConfigOf(pool), cache.blkid) != Unknown)
  {
    mount := NoMount;
    var conf;
    ok, conf := lxd.GetStoragePool(pool);
    if ok && conf.driver == "btrfs" && conf.source.Some? {
      if HasPrefix(conf.source.value, "/") {
        mount := MountAt(conf.source.value);
      } else {
        ok := cache.Attempt(); // blkid -o export
        var found := Blkid.GetDeviceByUUID(cache.blkid, conf.source.value);
        if ok && found.Device? {
          mount := MountAt(found.path);
        } else {
          ok, mount := false, Unknown;
        }
      }
    }
  }

  /** Expose the API server: attach the device of a pool that is not the cluster's own. */
  method Expose(lxd: Server, cache: Cache, c: string, s: ClusterState) returns (r: Outcome)
    requires c in cache.clusters
    modifies lxd`instances, lxd`faults, cache`faults
    ensures Provisions(old(Snapshot(lxd, cache)), Snapshot(lxd, cache), c, {s.controller})
    ensures lxd.instances == old(lxd.instances) || OnlyDevices(old(lxd.instances), lxd.instances, s.controller)
    ensures r == Done || r == Failed
    ensures r == Done ==>
              && s.controller in old(lxd.instances) && s.controller in lxd.instances && PoolFound(lxd, cache, s)
              && lxd.instances[s.controller].devices ==
                 WithMount(old(lxd.instances)[s.controller].devices, MountFor(s, lxd.ConfigOf(s.storagePool), cache.blkid))
    ensures Faults(lxd, cache) >= old(Faults(lxd, cache))
    ensures Faults(lxd, cache) == old(Faults(lxd, cache)) && s.controller in old(lxd.instances) && PoolFound(lxd, cache, s) ==> r == Done
  {
    ghost var w := Snapshot(lxd, cache);
    ProvisionsNothing(w, c, {s.controller});
    r := Failed;
    var ok, devices := lxd.GetInstance(s.controller);
    if !ok {
      return;
    }
    var mount := NoMount;
    if s.storagePool != "lxdk-" + s.name {
      ok, mount := PoolDevice(lxd, cache, s.storagePool);
      if !ok {
        return;
      }
    }
    var more := if mount.MountAt? then devices["btrfsmnt" := mount.device] else devices;
    ok := lxd.UpdateInstance(s.controller, more);
    DevicesProvision(w, Snapshot(lxd, cache), c, s.controller);
    r := if ok then Done else Failed;
  }

  // ---- nodes ----

  /** Every node has had what configureWorker reads for it. */
  ghost predicate AllJoined(d: ClusterDir, nodes: seq<string>) {
    forall i | 0 <= i < |nodes| :: CanJoin(d, ToLower(nodes[i]))
  }

  /** Every node holds its certificates and kubeconfigs. */
  ghost predicate AllEquipped(m: map<string, Instance>, nodes: seq<string>) {
    forall i | 0 <= i < |nodes| :: Equipped(m, nodes[i])
  }

  /** What configureWorker has done for every node. */
  ghost predicate NodesDone(d: ClusterDir, m: map<string, Instance>, nodes: seq<string>) {
    forall x | x == nodes :: DoneNodes(d, m, x)
  }

  ghost predicate DoneNodes(d: ClusterDir, m: map<string, Instance>, nodes: seq<string>) {
    AllJoined(d, nodes) && AllEquipped(m, nodes)
  }

  lemma NodesOpen(d: ClusterDir, m: map<string, Instance>, nodes: seq<string>)
    requires NodesDone(d, m, nodes)
    ensures AllJoined(d, nodes) && AllEquipped(m, nodes)
  {
    assert DoneNodes(d, m, nodes);
  }

  lemma NodesClose(d: ClusterDir, m: map<string, Instance>, nodes: seq<string>)
    requires AllJoined(d, nodes) && AllEquipped(m, nodes)
    ensures NodesDone(d, m, nodes)
  {
    assert DoneNodes(d, m, nodes);
  }

  lemma EquippedOneMore(w: World, w': World, c: string, names: set<string>, nodes: seq<string>, i: nat)
    requires i < |nodes| && AllEquipped(w.instances, nodes[..i])
    requires Provisions(w, w', c, names) && Equipped(w'.instances, nodes[i])
    ensures AllEquipped(w'.instances, nodes[..i + 1])
  {
    forall j | 0 <= j < i
      ensures Equipped(w'.instances, nodes[j])
    {
      assert nodes[..i][j] == nodes[j];
      EquippedKept(w, w', c, names, nodes[j]);
    }
  }

  /** Some node lacks a file configureWorker reads for it. */
  ghost predicate SomeCannotJoin(d: ClusterDir, nodes: seq<string>) {
    exists i :: 0 <= i < |nodes| && !CanJoin(d, ToLower(nodes[i]))
  }

  lemma JoinedOneMore(d: ClusterDir, e: ClusterDir, nodes: seq<string>, i: nat)
    requires i < |nodes| && AllJoined(d, nodes[..i]) && FilesGrow(d, e) && CanJoin(e, ToLower(nodes[i]))
    ensures AllJoined(e, nodes[..i + 1])
  {
  }

  lemma CouldNotJoinBefore(d: ClusterDir, e: ClusterDir, nodes: seq<string>, i: nat)
    requires i < |nodes| && FilesGrow(d, e) && !CanJoin(e, ToLower(nodes[i]))
    ensures SomeCannotJoin(d, nodes)
  {
  }

  /** The container's environment file is the one configureWorker writes. */
  ghost predicate HasWorkerEnv(m: map<string, Instance>, container: string, etcdIP: string) {
    container in m && Holds(m[container].tree, ENV_PATH, WorkerEnv(container, etcdIP))
  }

  /** The certificates every node's services rest on say what they are to say. */
  ghost predicate AllCertified(d: ClusterDir, nodes: seq<string>) {
    forall i | 0 <= i < |nodes| :: Certified(d, ToLower(nodes[i]))
  }

  lemma AllStayCertified(d: ClusterDir, e: ClusterDir, nodes: seq<string>)
    requires AllCertified(d, nodes) && CertsSame(d, e)
    ensures AllCertified(e, nodes)
  {
    forall i | 0 <= i < |nodes|
      ensures Certified(e, ToLower(nodes[i]))
    {
      CertifiedStays(d, e, ToLower(nodes[i]));
    }
  }

  /** Every node that exists has its image's units, and room. */
  ghost predicate AllFit(m: map<string, Instance>, nodes: seq<string>) {
    forall i | 0 <= i < |nodes| :: FitsIn(m, nodes[i], Worker)
  }

  lemma AllFitKept(w: World, w': World, c: string, names: set<string>, nodes: seq<string>)
    requires Provisions(w, w', c, names) && AllFit(w.instances, nodes)
    ensures AllFit(w'.instances, nodes)
  {
    forall i | 0 <= i < |nodes|
      ensures FitsIn(w'.instances, nodes[i], Worker)
    {
      FitsKept(w, w', c, names, nodes[i], Worker);
    }
  }

  /** None of a node's services was started in the container. */
  ghost predicate NoneServed(a: seq<ServiceStart>, b: seq<ServiceStart>, n: string) {
    forall k | |a| <= k < |b| :: b[k].container != n
  }

  /** All of the node's services were started or none of them; if nothing went wrong, all of them. */
  ghost predicate NodeUp(a: seq<ServiceStart>, b: seq<ServiceStart>, conf: WorkerConfig, clean: bool) {
    NodeStarted(a, b, conf) || (!clean && NoneServed(a, b, conf.container))
  }

  /** The starts added are all in one of the containers. */
  ghost predicate StartsWithin(a: seq<ServiceStart>, b: seq<ServiceStart>, nodes: seq<string>) {
    a <= b && forall k | |a| <= k < |b| :: b[k].container in nodes
  }

  /** What a node is told, told to another. */
  function For(conf: WorkerConfig, n: string): WorkerConfig {
    conf.(container := n)
  }

  ghost predicate NodesUpTo(a: seq<ServiceStart>, b: seq<ServiceStart>, nodes: seq<string>, i: nat, conf: WorkerConfig, clean: bool)
    requires i <= |nodes|
  {
    && StartsWithin(a, b, nodes[..i])
    && forall j | 0 <= j < i :: NodeUp(a, b, For(conf, nodes[j]), clean)
  }

  lemma NodeUpLater(a: seq<ServiceStart>, b0: seq<ServiceStart>, b1: seq<ServiceStart>, n: string, x: string,
                    conf: WorkerConfig, clean0: bool, clean: bool)
    requires a <= b0 && StartsIn(b0, b1, x) && (clean ==> clean0)
    requires NodeUp(a, b0, For(conf, n), clean0) && NodeUp(b0, b1, For(conf, x), clean)
    ensures NodeUp(a, b1, For(conf, n), clean)
  {
    if NodeStarted(a, b0, For(conf, n)) {
      NodeStartedWider(a, a, b0, b1, For(conf, n));
    } else if n == x && NodeStarted(b0, b1, For(conf, n)) {
      NodeStartedWider(a, b0, b1, b1, For(conf, n));
    } else {
      NoneServedLater(a, b0, b1, n, x);
    }
  }

  lemma NoneServedLater(a: seq<ServiceStart>, b0: seq<ServiceStart>, b1: seq<ServiceStart>, n: string, x: string)
    requires a <= b0 && StartsIn(b0, b1, x) && NoneServed(a, b0, n) && (n == x ==> NoneServed(b0, b1, n))
    ensures NoneServed(a, b1, n)
  {
    forall k | |a| <= k < |b1|
      ensures b1[k].container != n
    {
      if k < |b0| {
        assert b1[k] == b0[k];
      }
    }
  }

  lemma FirstVisit(a: seq<ServiceStart>, b0: seq<ServiceStart>, nodes: seq<string>, n: string)
    requires StartsWithin(a, b0, nodes) && n !in nodes
    ensures NoneServed(a, b0, n)
  {
  }

  lemma NodesUpNext(a: seq<ServiceStart>, b0: seq<ServiceStart>, b1: seq<ServiceStart>, nodes: seq<string>, i: nat,
                    conf: WorkerConfig, clean0: bool, clean: bool)
    requires i < |nodes| && NodesUpTo(a, b0, nodes, i, conf, clean0) && StartsIn(b0, b1, nodes[i])
    requires NodeUp(b0, b1, For(conf, nodes[i]), clean) && (clean ==> clean0)
    ensures NodesUpTo(a, b1, nodes, i + 1, conf, clean)
  {
    TakeNext(nodes, i);
    forall k | |a| <= k < |b1|
      ensures b1[k].container in nodes[..i + 1]
    {
      if k < |b0| {
        assert b1[k] == b0[k];
      }
    }
    forall j | 0 <= j < i + 1
      ensures NodeUp(a, b1, For(conf, nodes[j]), clean)
    {
      if j < i {
        NodeUpLater(a, b0, b1, nodes[j], nodes[i], conf, clean0, clean);
      } else if nodes[i] in nodes[..i] {
        var h :| 0 <= h < i && nodes[h] == nodes[i];
        NodeUpLater(a, b0, b1, nodes[h], nodes[i], conf, clean0, clean);
      } else {
        LastUp(a, b0, b1, nodes[..i], nodes[i], conf, clean);
      }
    }
  }

  lemma LastUp(a: seq<ServiceStart>, b0: seq<ServiceStart>, b1: seq<ServiceStart>, nodes: seq<string>, n: string,
               conf: WorkerConfig, clean: bool)
    requires StartsWithin(a, b0, nodes) && n !in nodes && StartsIn(b0, b1, n) && NodeUp(b0, b1, For(conf, n), clean)
    ensures NodeUp(a, b1, For(conf, n), clean)
  {
    if NodeStarted(b0, b1, For(conf, n)) {
      NodeStartedWider(a, b0, b1, b1, For(conf, n));
    } else {
      FirstVisit(a, b0, nodes, n);
      NoneServedLater(a, b0, b1, n, n);
    }
  }

  lemma UpNow(a: seq<ServiceStart>, b: seq<ServiceStart>, conf: WorkerConfig, clean: bool)
    requires clean || b != a ==> NodeStarted(a, b, conf)
    ensures NodeUp(a, b, conf, clean)
  {
  }

  /** One turn of the loop that makes nodes. */
  method ConfigureNode(lxd: Server, cache: Cache, c: string, nodes: seq<string>, i: nat, conf: WorkerConfig)
    returns (r: Outcome)
    requires c in cache.clusters && i < |nodes| && GoodName(nodes[i]) && NodesDone(cache.clusters[c], lxd.instances, nodes[..i])
    requires Certified(cache.clusters[c], ToLower(nodes[i])) && FitsIn(lxd.instances, nodes[i], Worker)
    modifies cache, lxd`instances, lxd`starts, lxd`faults
    ensures Provisions(old(Snapshot(lxd, cache)), Snapshot(lxd, cache), c, NameSet(nodes))
    ensures c in cache.clusters && CertsSame(old(cache.clusters)[c], cache.clusters[c])
    ensures r != Refused
    ensures r == Done ==> NodesDone(cache.clusters[c], lxd.instances, nodes[..i + 1]) && HasWorkerEnv(lxd.instances, nodes[i], conf.etcdIP)
    ensures r.Missing? ==> !CanJoin(old(cache.clusters)[c], ToLower(nodes[i]))
    ensures StartsIn(old(lxd.starts), lxd.starts, nodes[i])
    ensures Faults(lxd, cache) >= old(Faults(lxd, cache))
    ensures r == Done ==> NodeUp(old(lxd.starts), lxd.starts, For(conf, nodes[i]), Faults(lxd, cache) == old(Faults(lxd, cache)))
    ensures Faults(lxd, cache) == old(Faults(lxd, cache)) && nodes[i] in old(lxd.instances) ==> r == Done || r.Missing?
  {
    ghost var w := Snapshot(lxd, cache);
    r := ConfigureWorker(lxd, cache, c, conf.(container := nodes[i]));
    ghost var w1 := Snapshot(lxd, cache);
    ProvisionsMore(w, w1, c, {nodes[i]}, NameSet(nodes));
    DirGrows(w, w1, c, {nodes[i]});
    if r == Done {
      NodesOpen(w.clusters[c], w.instances, nodes[..i]);
      JoinedOneMore(w.clusters[c], w1.clusters[c], nodes, i);
      EquippedOneMore(w, w1, c, {nodes[i]}, nodes, i);
      NodesClose(w1.clusters[c], w1.instances, nodes[..i + 1]);
      SameNames(w, w1, c, {nodes[i]});
      UpNow(w.starts, w1.starts, For(conf, nodes[i]), Faults(lxd, cache) == old(Faults(lxd, cache)));
    }
  }

  lemma SameNames(w: World, w': World, c: string, names: set<string>)
    requires Provisions(w, w', c, names)
    ensures w'.instances.Keys == w.instances.Keys
  {
  }

  /** The loop of start over workers and controller that makes them nodes. */
  method ConfigureNodes(lxd: Server, cache: Cache, c: string, nodes: seq<string>, conf: WorkerConfig)
    returns (r: Outcome)
    requires c in cache.clusters && nodes != [] && forall i | 0 <= i < |nodes| :: GoodName(nodes[i])
    requires AllCertified(cache.clusters[c], nodes) && AllFit(lxd.instances, nodes)
    modifies cache, lxd`instances, lxd`starts, lxd`faults
    ensures Provisions(old(Snapshot(lxd, cache)), Snapshot(lxd, cache), c, NameSet(nodes)) && c in cache.clusters
    ensures r != Refused
    ensures r == Done ==> NodesDone(cache.clusters[c], lxd.instances, nodes)
    ensures r == Done ==> HasWorkerEnv(lxd.instances, nodes[|nodes| - 1], conf.etcdIP)
    ensures r.Missing? ==> SomeCannotJoin(old(cache.clusters)[c], nodes)
    ensures Faults(lxd, cache) >= old(Faults(lxd, cache))
    ensures r == Done ==>
              NodesUpTo(old(lxd.starts), lxd.starts, nodes, |nodes|, conf, Faults(lxd, cache) == old(Faults(lxd, cache)))
    ensures Faults(lxd, cache) == old(Faults(lxd, cache)) && NameSet(nodes) <= old(lxd.instances).Keys ==> r == Done || r.Missing?
  {
    ghost var w := Snapshot(lxd, cache);
    ProvisionsNothing(w, c, NameSet(nodes));
    NodesClose(cache.clusters[c], lxd.instances, nodes[..0]);
    r := Done;
    var i := 0;
    while i < |nodes| && r == Done
      invariant 0 <= i <= |nodes| && c in cache.clusters && r != Refused
      invariant Provisions(w, Snapshot(lxd, cache), c, NameSet(nodes))
      invariant AllCertified(cache.clusters[c], nodes)
      invariant r == Done ==> NodesDone(cache.clusters[c], lxd.instances, nodes[..i])
      invariant r == Done && i > 0 ==> HasWorkerEnv(lxd.instances, nodes[i - 1], conf.etcdIP)
      invariant r.Missing? ==> SomeCannotJoin(w.clusters[c], nodes)
      invariant Faults(lxd, cache) >= old(Faults(lxd, cache))
      invariant r == Done ==> NodesUpTo(w.starts, lxd.starts, nodes, i, conf, Faults(lxd, cache) == old(Faults(lxd, cache)))
      invariant Faults(lxd, cache) == old(Faults(lxd, cache)) && NameSet(nodes) <= w.instances.Keys ==> r == Done || r.Missing?
      decreases |nodes| - i
    {
      r := ConfigureNext(lxd, cache, c, nodes, i, conf, w, old(Faults(lxd, cache)));
      i := i + 1;
    }
    assert nodes[..|nodes|] == nodes;
  }

  /** One turn, seen together with those before it. */
  method ConfigureNext(lxd: Server, cache: Cache, c: string, nodes: seq<string>, i: nat, conf: WorkerConfig,
                       ghost w: World, ghost faults: nat)
    returns (r: Outcome)
    requires c in cache.clusters && i < |nodes| && forall j | 0 <= j < |nodes| :: GoodName(nodes[j])
    requires Provisions(w, Snapshot(lxd, cache), c, NameSet(nodes)) && AllCertified(cache.clusters[c], nodes) && AllFit(w.instances, nodes)
    requires NodesDone(cache.clusters[c], lxd.instances, nodes[..i]) && Faults(lxd, cache) >= faults
    requires NodesUpTo(w.starts, lxd.starts, nodes, i, conf, Faults(lxd, cache) == faults)
    modifies cache, lxd`instances, lxd`starts, lxd`faults
    ensures c in cache.clusters && Provisions(w, Snapshot(lxd, cache), c, NameSet(nodes)) && AllCertified(cache.clusters[c], nodes)
    ensures r != Refused
    ensures r == Done ==> NodesDone(cache.clusters[c], lxd.instances, nodes[..i + 1]) && HasWorkerEnv(lxd.instances, nodes[i], conf.etcdIP)
    ensures r.Missing? ==> SomeCannotJoin(w.clusters[c], nodes)
    ensures Faults(lxd, cache) >= faults
    ensures r == Done ==> NodesUpTo(w.starts, lxd.starts, nodes, i + 1, conf, Faults(lxd, cache) == faults)
    ensures Faults(lxd, cache) == faults && NameSet(nodes) <= w.instances.Keys ==> r == Done || r.Missing?
  {
    ghost var w1, faults1 := Snapshot(lxd, cache), Faults(lxd, cache);
    AllFitKept(w, w1, c, NameSet(nodes), nodes);
    SameNames(w, w1, c, NameSet(nodes));
    assert nodes[i] in NameSet(nodes);
    r := ConfigureNode(lxd, cache, c, nodes, i, conf);
    ghost var w2 := Snapshot(lxd, cache);
    DirGrows(w, w1, c, NameSet(nodes));
    ProvisionsTwice(w, w1, w2, c, NameSet(nodes));
    AllStayCertified(w1.clusters[c], w2.clusters[c], nodes);
    if r.Missing? {
      CouldNotJoinBefore(w.clusters[c], w1.clusters[c], nodes, i);
    } else if r == Done {
      CleanWholly(w1.starts, w2.starts, For(conf, nodes[i]), Faults(lxd, cache) == faults1, Faults(lxd, cache) == faults);
      NodesUpNext(w.starts, w1.starts, w2.starts, nodes, i, conf, faults1 == faults, Faults(lxd, cache) == faults);
    }
  }

  lemma CleanWholly(a: seq<ServiceStart>, b: seq<ServiceStart>, conf: WorkerConfig, clean1: bool, clean: bool)
    requires NodeUp(a, b, conf, clean1) && (clean ==> clean1)
    ensures NodeUp(a, b, conf, clean)
  {
  }

  // ---- the Kubernetes API ----

  /** Labelling and tainting the controller node. */
  const LABEL_COMMANDS := [Exec, Exec, Exec]

  lemma LabelsStartNothing()
    ensures forall x :: Systemctl(x) !in LABEL_COMMANDS
  {
  }

  /** The users' kubeconfigs are made; the client's server is the controller or, with use-remote-ip, the LXD host. */
  ghost predicate UsersMade(d: ClusterDir, controllerIP: string, hostname: string) {
    UsersConfigured(d, controllerIP, controllerIP) || UsersConfigured(d, controllerIP, hostname)
  }

  /** The users' kubeconfigs, what start does through the Kubernetes API, and the labels it puts on the controller. */
  method FinishStart(lxd: Server, cache: Cache, c: string, controller: string, controllerIP: string, hostname: string) returns (r: Outcome)
    requires c in cache.clusters
    modifies cache, lxd`starts, lxd`faults
    ensures Provisions(old(Snapshot(lxd, cache)), Snapshot(lxd, cache), c, {controller}) && c in cache.clusters
    ensures lxd.starts == old(lxd.starts)
    ensures r != Refused
    ensures r == Done ==> UsersMade(cache.clusters[c], controllerIP, hostname)
    ensures r.Missing? ==> !CanConfigure(old(cache.clusters)[c], "admin")
    ensures Faults(lxd, cache) >= old(Faults(lxd, cache))
    ensures Faults(lxd, cache) == old(Faults(lxd, cache)) && controller in lxd.instances ==> r == Done || r.Missing?
  {
    ghost var w0 := Snapshot(lxd, cache);
    var useRemote: bool := *; // the flag use-remote-ip
    var remote := if useRemote then hostname else controllerIP;
    r := MakeUserKubeconfigs(cache, c, controllerIP, remote);
    ghost var w1 := Snapshot(lxd, cache);
    CertsSameBase(w0.clusters[c], w1.clusters[c]);
    LocalProvisions(w0, w1, c, {controller});
    if r == Done {
      var api := cache.Attempt(); // GetClientset to WaitNode
      r := Failed;
      if api {
        LabelsStartNothing();
        r := RunAll(lxd, cache, c, controller, LABEL_COMMANDS);
        ProvisionsTwice(w0, w1, Snapshot(lxd, cache), c, {controller});
      }
    }
  }

  // ---- all of it ----

  /** The environment file of etcd's container binds this address. */
  ghost predicate EtcdBinds(m: map<string, Instance>, etcd: string, etcdIP: string) {
    forall x | x == etcd :: BindsIn(m, x, etcdIP)
  }

  /** The same, written out; the quantifiers here keep provers from looking inside where they need not. */
  ghost predicate BindsIn(m: map<string, Instance>, etcd: string, etcdIP: string) {
    etcd in m && Holds(m[etcd].tree, ETCD_DIR + "env", EtcdEnv(etcdIP))
  }

  lemma BindsOpens(m: map<string, Instance>, etcd: string, etcdIP: string)
    requires EtcdBinds(m, etcd, etcdIP)
    ensures etcd in m && Holds(m[etcd].tree, ETCD_DIR + "env", EtcdEnv(etcdIP))
  {
    assert BindsIn(m, etcd, etcdIP);
  }

  /** Provisioning other containers leaves etcd's as it is. */
  lemma EtcdUntouched(w: World, w': World, c: string, names: set<string>, etcd: string, etcdIP: string)
    requires Provisions(w, w', c, names) && etcd !in names && EtcdBinds(w.instances, etcd, etcdIP)
    ensures EtcdBinds(w'.instances, etcd, etcdIP)
  {
    var d :| ProvisionsTo(w, w', c, names, d);
    assert BindsIn(w.instances, etcd, etcdIP);
    assert w'.instances[etcd] == w.instances[etcd];
  }

  /** etcd and the registry were started. */
  ghost predicate ServicesStarted(a: seq<ServiceStart>, b: seq<ServiceStart>, s: ClusterState) {
    forall x | x == s :: ServicesWere(a, b, x)
  }

  ghost predicate ServicesWere(a: seq<ServiceStart>, b: seq<ServiceStart>, s: ClusterState) {
    WasStarted(a, b, s.etcd, EtcdService) && WasStarted(a, b, s.registry, RegistryService)
  }

  /** Every service of the control plane was started. */
  ghost predicate ControlPlaneStarted(a: seq<ServiceStart>, b: seq<ServiceStart>, s: ClusterState) {
    ServicesStarted(a, b, s) && ManagersStarted(a, b, s.controller)
  }

  lemma ServicesStartedWider(a0: seq<ServiceStart>, a: seq<ServiceStart>, b: seq<ServiceStart>, b1: seq<ServiceStart>, s: ClusterState)
    requires ServicesStarted(a, b, s) && a0 <= a && b <= b1
    ensures ServicesStarted(a0, b1, s)
  {
    assert ServicesWere(a, b, s);
    WasStartedWider(a0, a, b, b1, s.etcd, EtcdService);
    WasStartedWider(a0, a, b, b1, s.registry, RegistryService);
    assert ServicesWere(a0, b1, s);
  }

  lemma ManagersStartedWider(a0: seq<ServiceStart>, a: seq<ServiceStart>, b: seq<ServiceStart>, b1: seq<ServiceStart>, container: string)
    requires ManagersStarted(a, b, container) && a0 <= a && b <= b1
    ensures ManagersStarted(a0, b1, container)
  {
    forall s | OfController(s)
      ensures WasStarted(a0, b1, container, s)
    {
      WasStartedWider(a0, a, b, b1, container, s);
    }
  }

  lemma ControlPlaneStartedWider(a0: seq<ServiceStart>, a: seq<ServiceStart>, b: seq<ServiceStart>, b1: seq<ServiceStart>, s: ClusterState)
    requires ControlPlaneStarted(a, b, s) && a0 <= a && b <= b1
    ensures ControlPlaneStarted(a0, b1, s)
  {
    ServicesStartedWider(a0, a, b, b1, s);
    ManagersStartedWider(a0, a, b, b1, s.controller);
  }

  lemma BothStarted(a: seq<ServiceStart>, b: seq<ServiceStart>, e: seq<ServiceStart>, s: ClusterState)
    requires a <= b <= e && WasStarted(a, b, s.etcd, EtcdService) && WasStarted(b, e, s.registry, RegistryService)
    ensures ServicesStarted(a, e, s)
  {
    WasStartedWider(a, a, b, e, s.etcd, EtcdService);
    WasStartedWider(a, b, e, e, s.registry, RegistryService);
    assert ServicesWere(a, e, s);
  }

  /** etcd and the registry. */
  method ConfigureServices(lxd: Server, cache: Cache, c: string, s: ClusterState, etcdIP: string, ghost names: set<string>)
    returns (r: Outcome)
    requires c in cache.clusters && Issued(cache.clusters[c], ETCD_IDENTITY)
    requires {s.etcd, s.registry} <= names && '\n' !in etcdIP
    requires FitsIn(lxd.instances, s.etcd, Etcd) && FitsIn(lxd.instances, s.registry, Registry)
    modifies lxd`instances, lxd`starts, lxd`faults
    ensures Provisions(old(Snapshot(lxd, cache)), Snapshot(lxd, cache), c, names)
    ensures r == Done || r == Failed
    ensures r == Done ==> ServicesStarted(old(lxd.starts), lxd.starts, s) && EtcdBinds(lxd.instances, s.etcd, etcdIP)
    ensures lxd.faults >= old(lxd.faults)
    ensures lxd.faults == old(lxd.faults) && names <= old(lxd.instances).Keys ==> r == Done
  {
    ghost var w0 := Snapshot(lxd, cache);
    r := ConfigureEtcd(lxd, cache, c, s.etcd, etcdIP);
    ghost var w1 := Snapshot(lxd, cache);
    assert w1.clusters == w0.clusters;
    SameNames(w0, w1, c, {s.etcd});
    ProvisionsMore(w0, w1, c, {s.etcd}, names);
    if r == Done {
      FitsKept(w0, w1, c, names, s.registry, Registry);
      r := ConfigureRegistry(lxd, cache, c, s.registry);
      ghost var w2 := Snapshot(lxd, cache);
      ProvisionsMore(w1, w2, c, {s.registry}, names);
      ProvisionsTwice(w0, w1, w2, c, names);
      if r == Done {
        StartsGrow(w0, w1, c, names);
        StartsGrow(w1, w2, c, names);
        BothStarted(w0.starts, w1.starts, w2.starts, s);
        assert BindsIn(w1.instances, s.etcd, etcdIP) && lxd.instances == w1.instances;
      }
    }
  }

  /** The control plane is up, and etcd's container knows its address. */
  ghost predicate PlaneDone(d: ClusterDir, m: map<string, Instance>, a: seq<ServiceStart>, b: seq<ServiceStart>, s: ClusterState, etcdIP: string,
                            controllerIP: string, reports: set<(string, string)>) {
    forall x | x == s :: PlaneIsDone(d, m, a, b, x, etcdIP, controllerIP, reports)
  }

  ghost predicate PlaneIsDone(d: ClusterDir, m: map<string, Instance>, a: seq<ServiceStart>, b: seq<ServiceStart>, s: ClusterState, etcdIP: string,
                              controllerIP: string, reports: set<(string, string)>) {
    && KUBECONFIG_DIR in d.dirs && ControlPlaneStarted(a, b, s) && EtcdBinds(m, s.etcd, etcdIP)
    && PlaneTold(a, b, s.controller, controllerIP, reports)
  }

  lemma PlaneOpens(d: ClusterDir, m: map<string, Instance>, a: seq<ServiceStart>, b: seq<ServiceStart>, s: ClusterState, etcdIP: string,
                   controllerIP: string, reports: set<(string, string)>)
    requires PlaneDone(d, m, a, b, s, etcdIP, controllerIP, reports)
    ensures PlaneIsDone(d, m, a, b, s, etcdIP, controllerIP, reports)
  {
  }

  lemma CertsSameSelf(d: ClusterDir)
    ensures CertsSame(d, d)
  {
  }

  /** etcd, the registry and the controller. */
  method ConfigureControlPlane(lxd: Server, cache: Cache, c: string, s: ClusterState, etcdIP: string, controllerIP: string, hostname: string,
                               ghost names: set<string>)
    returns (r: Outcome)
    requires c in cache.clusters && PlaneCertified(cache.clusters[c])
    requires {s.etcd, s.registry, s.controller} <= names && '\n' !in etcdIP && s.etcd != s.controller
    requires FitsIn(lxd.instances, s.etcd, Etcd) && FitsIn(lxd.instances, s.registry, Registry) && FitsIn(lxd.instances, s.controller, Controller)
    modifies cache, lxd`instances, lxd`starts, lxd`faults, lxd`asked
    ensures Provisions(old(Snapshot(lxd, cache)), Snapshot(lxd, cache), c, names)
    ensures c in cache.clusters && CertsSame(old(cache.clusters)[c], cache.clusters[c])
    ensures r != Refused
    ensures r.Missing? ==> !HasControllerCerts(old(cache.clusters)[c])
    ensures r == Done ==> PlaneDone(cache.clusters[c], lxd.instances, old(lxd.starts), lxd.starts, s, etcdIP, controllerIP, lxd.reports)
    ensures Faults(lxd, cache) >= old(Faults(lxd, cache)) && old(lxd.asked) <= lxd.asked
    ensures Faults(lxd, cache) == old(Faults(lxd, cache)) && names <= old(lxd.instances).Keys ==>
              r == Done || r.Missing? || GaveUp(old(lxd.asked), lxd.asked, names, [hostname])
  {
    ghost var w0 := Snapshot(lxd, cache);
    r := ConfigureServices(lxd, cache, c, s, etcdIP, names);
    assert cache.clusters == w0.clusters && lxd.asked == old(lxd.asked);
    CertsSameSelf(cache.clusters[c]);
    if r == Done {
      r := ConfigurePlane(lxd, cache, c, s, etcdIP, controllerIP, hostname, names, w0);
    }
  }

  /** The controller, once etcd and the registry are up. */
  method ConfigurePlane(lxd: Server, cache: Cache, c: string, s: ClusterState, etcdIP: string, controllerIP: string, hostname: string,
                        ghost names: set<string>, ghost w0: World)
    returns (r: Outcome)
    requires c in cache.clusters && PlaneCertified(cache.clusters[c]) && Provisions(w0, Snapshot(lxd, cache), c, names)
    requires s.controller in names && '\n' !in etcdIP && s.etcd != s.controller && FitsIn(w0.instances, s.controller, Controller)
    requires ServicesStarted(w0.starts, lxd.starts, s) && EtcdBinds(lxd.instances, s.etcd, etcdIP)
    modifies cache, lxd`instances, lxd`starts, lxd`faults, lxd`asked
    ensures Provisions(w0, Snapshot(lxd, cache), c, names)
    ensures c in cache.clusters && CertsSame(old(cache.clusters)[c], cache.clusters[c])
    ensures r != Refused
    ensures r.Missing? ==> !HasControllerCerts(old(cache.clusters)[c])
    ensures r == Done ==> PlaneDone(cache.clusters[c], lxd.instances, w0.starts, lxd.starts, s, etcdIP, controllerIP, lxd.reports)
    ensures Faults(lxd, cache) >= old(Faults(lxd, cache)) && old(lxd.asked) <= lxd.asked
    ensures Faults(lxd, cache) == old(Faults(lxd, cache)) && names <= w0.instances.Keys ==>
              r == Done || r.Missing? || GaveUp(old(lxd.asked), lxd.asked, names, [hostname])
  {
    ghost var w1 := Snapshot(lxd, cache);
    SameNames(w0, w1, c, names);
    FitsKept(w0, w1, c, names, s.controller, Controller);
    r := ConfigureController(lxd, cache, c, s.controller, etcdIP, controllerIP, hostname);
    ghost var w2 := Snapshot(lxd, cache);
    EtcdUntouched(w1, w2, c, {s.controller}, s.etcd, etcdIP);
    ProvisionsMore(w1, w2, c, {s.controller}, names);
    ProvisionsTwice(w0, w1, w2, c, names);
    if r == Done {
      StartsGrow(w0, w1, c, names);
      StartsGrow(w1, w2, c, names);
      ServicesStartedWider(w0.starts, w0.starts, w1.starts, w2.starts, s);
      ManagersStartedWider(w0.starts, w1.starts, w2.starts, w2.starts, s.controller);
      PlaneToldWider(w0.starts, w1.starts, w2.starts, w2.starts, s.controller, controllerIP, lxd.reports);
      assert PlaneIsDone(w2.clusters[c], w2.instances, w0.starts, w2.starts, s, etcdIP, controllerIP, lxd.reports);
    } else if GaveUp(old(lxd.asked), lxd.asked, {s.controller}, [hostname]) {
      GaveUpWider(old(lxd.asked), old(lxd.asked), lxd.asked, lxd.asked, {s.controller}, names, [hostname]);
    }
  }

  /** What nodes are told are addresses reported for the containers they are said to be of. */
  ghost predicate Reported(conf: WorkerConfig, s: ClusterState, reports: set<(string, string)>) {
    && conf.registryName == s.registry && (s.registry, conf.registryIP) in reports
    && (s.etcd, conf.etcdIP) in reports && (s.controller, conf.controllerIP) in reports
  }

  /** Every node's services are up, and were started after the node had been told addresses reported for its peers. */
  ghost predicate NodesServed(a: seq<ServiceStart>, b: seq<ServiceStart>, nodes: seq<string>, s: ClusterState,
                              reports: set<(string, string)>, clean: bool) {
    exists a1, conf :: ServedFrom(a, a1, b, nodes, s, reports, conf, clean)
  }

  ghost predicate ServedFrom(a: seq<ServiceStart>, a1: seq<ServiceStart>, b: seq<ServiceStart>, nodes: seq<string>, s: ClusterState,
                             reports: set<(string, string)>, conf: WorkerConfig, clean: bool) {
    a <= a1 <= b && Reported(conf, s, reports) && NodesUpTo(a1, b, nodes, |nodes|, conf, clean)
  }

  lemma NodesServedBefore(a0: seq<ServiceStart>, a: seq<ServiceStart>, b: seq<ServiceStart>, nodes: seq<string>, s: ClusterState,
                          reports: set<(string, string)>, clean1: bool, clean: bool)
    requires NodesServed(a, b, nodes, s, reports, clean1) && a0 <= a && (clean ==> clean1)
    ensures NodesServed(a0, b, nodes, s, reports, clean)
  {
    var a1, conf :| ServedFrom(a, a1, b, nodes, s, reports, conf, clean1);
    forall j | 0 <= j < |nodes|
      ensures NodeUp(a1, b, For(conf, nodes[j]), clean)
    {
      CleanWholly(a1, b, For(conf, nodes[j]), clean1, clean);
    }
    assert ServedFrom(a0, a1, b, nodes, s, reports, conf, clean);
  }

  /** Find the registry, make the nodes. */
  method JoinRegistered(lxd: Server, cache: Cache, c: string, s: ClusterState, nodes: seq<string>, etcdIP: string, controllerIP: string,
                        hostname: string)
    returns (r: Outcome)
    requires c in cache.clusters && nodes != [] && forall i | 0 <= i < |nodes| :: GoodName(nodes[i])
    requires AllCertified(cache.clusters[c], nodes) && AllFit(lxd.instances, nodes)
    requires (s.etcd, etcdIP) in lxd.reports && (s.controller, controllerIP) in lxd.reports
    modifies cache, lxd`instances, lxd`starts, lxd`faults, lxd`asked
    ensures Provisions(old(Snapshot(lxd, cache)), Snapshot(lxd, cache), c, NameSet(nodes)) && c in cache.clusters
    ensures r != Refused
    ensures r == Done ==> NodesDone(cache.clusters[c], lxd.instances, nodes)
    ensures r == Done ==> HasWorkerEnv(lxd.instances, nodes[|nodes| - 1], etcdIP)
    ensures r.Missing? ==> SomeCannotJoin(old(cache.clusters)[c], nodes)
    ensures Faults(lxd, cache) >= old(Faults(lxd, cache)) && old(lxd.asked) <= lxd.asked
    ensures r == Done ==>
              NodesServed(old(lxd.starts), lxd.starts, nodes, s, lxd.reports, Faults(lxd, cache) == old(Faults(lxd, cache)))
    ensures Faults(lxd, cache) == old(Faults(lxd, cache)) && NameSet(nodes) <= old(lxd.instances).Keys ==>
              r == Done || r.Missing? || GaveUp(old(lxd.asked), lxd.asked, {s.registry}, [hostname])
  {
    ghost var w0 := Snapshot(lxd, cache);
    ProvisionsNothing(w0, c, NameSet(nodes));
    var registryIP := WaitContainerIP(lxd, s.registry, [hostname]);
    r := Failed;
    if registryIP.Some? {
      ghost var faults := Faults(lxd, cache);
      var conf := WorkerConfig(s.controller, controllerIP, s.registry, registryIP.value, etcdIP);
      r := ConfigureNodes(lxd, cache, c, nodes, conf);
      if r == Done {
        assert ServedFrom(w0.starts, w0.starts, lxd.starts, nodes, s, lxd.reports, conf, Faults(lxd, cache) == faults);
        NodesServedBefore(w0.starts, w0.starts, lxd.starts, nodes, s, lxd.reports, Faults(lxd, cache) == faults,
                          Faults(lxd, cache) == old(Faults(lxd, cache)));
      }
    } else {
      WaitedInVain(old(lxd.asked), lxd.asked, s.registry, {s.registry}, [hostname]);
    }
  }

  /** Expose the API server, find the registry, make the nodes. */
  method JoinNodes(lxd: Server, cache: Cache, c: string, s: ClusterState, nodes: seq<string>, etcdIP: string, controllerIP: string, hostname: string)
    returns (r: Outcome)
    requires c in cache.clusters && nodes != [] && forall i | 0 <= i < |nodes| :: GoodName(nodes[i])
    requires AllCertified(cache.clusters[c], nodes) && AllFit(lxd.instances, nodes) && s.controller in nodes
    requires (s.etcd, etcdIP) in lxd.reports && (s.controller, controllerIP) in lxd.reports
    modifies cache, lxd`instances, lxd`starts, lxd`faults, lxd`asked
    ensures Provisions(old(Snapshot(lxd, cache)), Snapshot(lxd, cache), c, NameSet(nodes)) && c in cache.clusters
    ensures r != Refused
    ensures r == Done ==> NodesDone(cache.clusters[c], lxd.instances, nodes)
    ensures r == Done ==> HasWorkerEnv(lxd.instances, nodes[|nodes| - 1], etcdIP)
    ensures r.Missing? ==> SomeCannotJoin(old(cache.clusters)[c], nodes)
    ensures Faults(lxd, cache) >= old(Faults(lxd, cache)) && old(lxd.asked) <= lxd.asked
    ensures r == Done ==> PoolFound(lxd, cache, s)
    ensures r == Done ==>
              NodesServed(old(lxd.starts), lxd.starts, nodes, s, lxd.reports, Faults(lxd, cache) == old(Faults(lxd, cache)))
    ensures Faults(lxd, cache) == old(Faults(lxd, cache)) && NameSet(nodes) <= old(lxd.instances).Keys && PoolFound(lxd, cache, s) ==>
              r == Done || r.Missing? || GaveUp(old(lxd.asked), lxd.asked, {s.registry}, [hostname])
  {
    ghost var w0 := Snapshot(lxd, cache);
    r := Expose(lxd, cache, c, s);
    ghost var w1, faults := Snapshot(lxd, cache), Faults(lxd, cache);
    assert s.controller in NameSet(nodes);
    ProvisionsMore(w0, w1, c, {s.controller}, NameSet(nodes));
    SameNames(w0, w1, c, NameSet(nodes));
    AllFitKept(w0, w1, c, NameSet(nodes), nodes);
    if r == Done {
      r := JoinRegistered(lxd, cache, c, s, nodes, etcdIP, controllerIP, hostname);
      ProvisionsTwice(w0, w1, Snapshot(lxd, cache), c, NameSet(nodes));
      if r == Done {
        NodesServedBefore(w0.starts, w1.starts, lxd.starts, nodes, s, lxd.reports, Faults(lxd, cache) == faults,
                          Faults(lxd, cache) == old(Faults(lxd, cache)));
      }
    }
  }

  lemma AllJoinedGrows(d: ClusterDir, e: ClusterDir, nodes: seq<string>)
    requires AllJoined(d, nodes) && FilesGrow(d, e)
    ensures AllJoined(e, nodes)
  {
  }

  lemma NodesDoneKept(w: World, w': World, c: string, names: set<string>, nodes: seq<string>)
    requires Provisions(w, w', c, names) && c in w.clusters && NodesDone(w.clusters[c], w.instances, nodes)
    ensures c in w'.clusters && NodesDone(w'.clusters[c], w'.instances, nodes)
  {
    DirGrows(w, w', c, names);
    NodesOpen(w.clusters[c], w.instances, nodes);
    AllJoinedGrows(w.clusters[c], w'.clusters[c], nodes);
    forall i | 0 <= i < |nodes|
      ensures Equipped(w'.instances, nodes[i])
    {
      EquippedKept(w, w', c, names, nodes[i]);
    }
    NodesClose(w'.clusters[c], w'.instances, nodes);
  }

  /** Making the nodes and the steps after it. */
  method JoinAndFinish(lxd: Server, cache: Cache, c: string, s: ClusterState, nodes: seq<string>, etcdIP: string, controllerIP: string,
                       hostname: string)
    returns (r: Outcome)
    requires c in cache.clusters && forall i | 0 <= i < |nodes| :: GoodName(nodes[i])
    requires nodes != [] && nodes[|nodes| - 1] == s.controller
    requires AllCertified(cache.clusters[c], nodes) && AllFit(lxd.instances, nodes)
    requires (s.etcd, etcdIP) in lxd.reports && (s.controller, controllerIP) in lxd.reports
    modifies cache, lxd`instances, lxd`starts, lxd`faults, lxd`asked
    ensures Provisions(old(Snapshot(lxd, cache)), Snapshot(lxd, cache), c, NameSet(nodes)) && c in cache.clusters
    ensures r != Refused
    ensures r == Done ==> NodesDone(cache.clusters[c], lxd.instances, nodes) && HasWorkerEnv(lxd.instances, s.controller, etcdIP)
    ensures r.Missing? ==> SomeCannotJoin(old(cache.clusters)[c], nodes) || !CanConfigure(old(cache.clusters)[c], "admin")
    ensures Faults(lxd, cache) >= old(Faults(lxd, cache)) && old(lxd.asked) <= lxd.asked
    ensures r == Done ==> PoolFound(lxd, cache, s) && UsersMade(cache.clusters[c], controllerIP, hostname)
    ensures r == Done ==>
              NodesServed(old(lxd.starts), lxd.starts, nodes, s, lxd.reports, Faults(lxd, cache) == old(Faults(lxd, cache)))
    ensures Faults(lxd, cache) == old(Faults(lxd, cache)) && NameSet(nodes) <= old(lxd.instances).Keys && PoolFound(lxd, cache, s) ==>
              r == Done || r.Missing? || GaveUp(old(lxd.asked), lxd.asked, {s.registry}, [hostname])
  {
    ghost var w0 := Snapshot(lxd, cache);
    r := JoinNodes(lxd, cache, c, s, nodes, etcdIP, controllerIP, hostname);
    ghost var w1, faults, asked := Snapshot(lxd, cache), Faults(lxd, cache), lxd.asked;
    DirGrows(w0, w1, c, NameSet(nodes));
    SameNames(w0, w1, c, NameSet(nodes));
    assert s.controller in NameSet(nodes);
    if r == Done {
      r := FinishJoined(lxd, cache, c, s, nodes, etcdIP, controllerIP, hostname, w0, old(Faults(lxd, cache)));
      assert lxd.asked == asked;
    }
  }

  /** The steps after the nodes are made. */
  method FinishJoined(lxd: Server, cache: Cache, c: string, s: ClusterState, nodes: seq<string>, ghost etcdIP: string, controllerIP: string,
                      hostname: string, ghost w0: World, ghost faults: nat)
    returns (r: Outcome)
    requires c in cache.clusters && s.controller in nodes && Provisions(w0, Snapshot(lxd, cache), c, NameSet(nodes))
    requires NodesDone(cache.clusters[c], lxd.instances, nodes) && HasWorkerEnv(lxd.instances, s.controller, etcdIP)
    requires Faults(lxd, cache) >= faults && NodesServed(w0.starts, lxd.starts, nodes, s, lxd.reports, Faults(lxd, cache) == faults)
    modifies cache, lxd`starts, lxd`faults
    ensures Provisions(w0, Snapshot(lxd, cache), c, NameSet(nodes)) && c in cache.clusters
    ensures r != Refused
    ensures NodesDone(cache.clusters[c], lxd.instances, nodes)
    ensures r.Missing? ==> !CanConfigure(old(cache.clusters)[c], "admin")
    ensures Faults(lxd, cache) >= faults
    ensures r == Done ==> UsersMade(cache.clusters[c], controllerIP, hostname)
    ensures r == Done ==> NodesServed(w0.starts, lxd.starts, nodes, s, lxd.reports, Faults(lxd, cache) == faults)
    ensures Faults(lxd, cache) == faults ==> r == Done || r.Missing?
  {
    ghost var w1, clean := Snapshot(lxd, cache), Faults(lxd, cache) == faults;
    assert s.controller in NameSet(nodes);
    r := FinishStart(lxd, cache, c, s.controller, controllerIP, hostname);
    ghost var w2 := Snapshot(lxd, cache);
    assert w2.instances == w1.instances && w2.starts == w1.starts;
    NodesDoneKept(w1, w2, c, {s.controller}, nodes);
    ProvisionsMore(w1, w2, c, {s.controller}, NameSet(nodes));
    ProvisionsTwice(w0, w1, w2, c, NameSet(nodes));
    NodesServedBefore(w0.starts, w0.starts, w2.starts, nodes, s, lxd.reports, clean, Faults(lxd, cache) == faults);
  }

  /** With what create left and what start has issued nothing that is read later on is missing. */
  lemma IssuedSuffices(d: ClusterDir, nodes: seq<string>)
    requires HasBase(d) && CertsIssued(d, nodes)
    ensures HasControllerCerts(d)
    ensures KUBECONFIG_DIR in d.dirs ==> !SomeCannotJoin(d, nodes) && CanConfigure(d, "admin")
  {
  }

  lemma IssuedGrows(d: ClusterDir, e: ClusterDir, nodes: seq<string>)
    requires FilesGrow(d, e)
    ensures HasBase(d) ==> HasBase(e)
    ensures CertsIssued(d, nodes) ==> CertsIssued(e, nodes)
  {
  }

  /** A node that joined shows that everything start-worker reads is there. */
  lemma JoinedIsStarted(d: ClusterDir, e: ClusterDir, nodes: seq<string>)
    requires CertsIssued(d, nodes) && FilesGrow(d, e) && AllJoined(e, nodes) && nodes != []
    ensures HasStarted(e)
  {
    assert CanJoin(e, ToLower(nodes[0]));
  }

  /** What is known of the cluster's directory once start has issued its certificates. */
  ghost predicate CertsReady(d: ClusterDir, nodes: seq<string>) {
    CertsIssued(d, nodes) && CertsTrusted(d, nodes) && BaseSound(d)
  }

  lemma CertsReadyMeans(d: ClusterDir, nodes: seq<string>)
    requires CertsReady(d, nodes)
    ensures PlaneCertified(d) && AllCertified(d, nodes)
  {
  }

  /** The roles' containers, as far as they exist, have what their images bring, and room. */
  ghost predicate RolesFit(m: map<string, Instance>, s: ClusterState) {
    && FitsIn(m, s.etcd, Etcd) && FitsIn(m, s.controller, Controller) && FitsIn(m, s.registry, Registry)
    && forall i | 0 <= i < |s.workers| :: FitsIn(m, s.workers[i], Worker)
  }

  lemma RolesFitKept(w: World, w': World, c: string, names: set<string>, s: ClusterState)
    requires Provisions(w, w', c, names) && RolesFit(w.instances, s)
    ensures RolesFit(w'.instances, s)
  {
    FitsKept(w, w', c, names, s.etcd, Etcd);
    FitsKept(w, w', c, names, s.controller, Controller);
    FitsKept(w, w', c, names, s.registry, Registry);
    forall i | 0 <= i < |s.workers|
      ensures FitsIn(w'.instances, s.workers[i], Worker)
    {
      FitsKept(w, w', c, names, s.workers[i], Worker);
    }
  }

  lemma RolesFitNodes(m: map<string, Instance>, s: ClusterState)
    requires RolesFit(m, s)
    ensures AllFit(m, s.workers + [s.controller])
  {
    if s.controller in m {
      ControllerUnits(m[s.controller].tree);
    }
  }

  /** What a start has done once everything after the certificates is done. */
  ghost predicate ClusterConfigured(d: ClusterDir, m: map<string, Instance>, a: seq<ServiceStart>, b: seq<ServiceStart>, s: ClusterState,
                                    etcdIP: string, controllerIP: string, reports: set<(string, string)>) {
    && NodesDone(d, m, s.workers + [s.controller]) && HasWorkerEnv(m, s.controller, etcdIP)
    && ControlPlaneStarted(a, b, s) && EtcdBinds(m, s.etcd, etcdIP) && PlaneTold(a, b, s.controller, controllerIP, reports)
  }

  /** Everything after the certificates. */
  method ConfigureCluster(lxd: Server, cache: Cache, c: string, s: ClusterState, nodes: seq<string>, etcdIP: string, controllerIP: string,
                          hostname: string, ghost names: set<string>)
    returns (r: Outcome)
    requires c in cache.clusters && CertsReady(cache.clusters[c], nodes) && forall i | 0 <= i < |nodes| :: GoodName(nodes[i])
    requires nodes == s.workers + [s.controller] && RolesFit(lxd.instances, s)
    requires {s.etcd, s.registry, s.controller} <= names && NameSet(nodes) <= names
    requires '\n' !in etcdIP && s.etcd !in nodes
    requires (s.etcd, etcdIP) in lxd.reports && (s.controller, controllerIP) in lxd.reports
    modifies cache, lxd`instances, lxd`starts, lxd`faults, lxd`asked
    ensures Provisions(old(Snapshot(lxd, cache)), Snapshot(lxd, cache), c, names) && c in cache.clusters
    ensures r != Refused
    ensures r == Done ==> ClusterConfigured(cache.clusters[c], lxd.instances, old(lxd.starts), lxd.starts, s, etcdIP, controllerIP, lxd.reports)
    ensures r.Missing? ==> !HasBase(old(cache.clusters)[c])
    ensures Faults(lxd, cache) >= old(Faults(lxd, cache)) && old(lxd.asked) <= lxd.asked
    ensures r == Done ==> PoolFound(lxd, cache, s) && UsersMade(cache.clusters[c], controllerIP, hostname)
    ensures r == Done ==>
              NodesServed(old(lxd.starts), lxd.starts, nodes, s, lxd.reports, Faults(lxd, cache) == old(Faults(lxd, cache)))
    ensures Faults(lxd, cache) == old(Faults(lxd, cache)) && names <= old(lxd.instances).Keys && PoolFound(lxd, cache, s) ==>
              r == Done || r.Missing? || GaveUp(old(lxd.asked), lxd.asked, names, [hostname])
  {
    ghost var w0 := Snapshot(lxd, cache);
    if HasBase(w0.clusters[c]) {
      IssuedSuffices(w0.clusters[c], nodes);
    }
    CertsReadyMeans(w0.clusters[c], nodes);
    r := ConfigureControlPlane(lxd, cache, c, s, etcdIP, controllerIP, hostname, names);
    if r == Done {
      r := ConfigureRest(lxd, cache, c, s, nodes, etcdIP, controllerIP, hostname, names, w0, old(Faults(lxd, cache)), old(lxd.asked));
    }
  }

  /** Everything after the control plane. */
  method ConfigureRest(lxd: Server, cache: Cache, c: string, s: ClusterState, nodes: seq<string>, etcdIP: string, controllerIP: string,
                       hostname: string, ghost names: set<string>, ghost w0: World, ghost faults: nat, ghost asked: seq<Ask>)
    returns (r: Outcome)
    requires c in cache.clusters && c in w0.clusters && CertsReady(w0.clusters[c], nodes) && forall i | 0 <= i < |nodes| :: GoodName(nodes[i])
    requires nodes == s.workers + [s.controller] && RolesFit(w0.instances, s)
    requires {s.etcd, s.registry, s.controller} <= names && NameSet(nodes) <= names && s.etcd !in nodes
    requires Provisions(w0, Snapshot(lxd, cache), c, names) && CertsSame(w0.clusters[c], cache.clusters[c])
    requires PlaneDone(cache.clusters[c], lxd.instances, w0.starts, lxd.starts, s, etcdIP, controllerIP, lxd.reports)
    requires Faults(lxd, cache) >= faults && asked <= lxd.asked
    requires (s.etcd, etcdIP) in lxd.reports && (s.controller, controllerIP) in lxd.reports
    modifies cache, lxd`instances, lxd`starts, lxd`faults, lxd`asked
    ensures Provisions(w0, Snapshot(lxd, cache), c, names) && c in cache.clusters
    ensures r != Refused
    ensures r == Done ==> ClusterConfigured(cache.clusters[c], lxd.instances, w0.starts, lxd.starts, s, etcdIP, controllerIP, lxd.reports)
    ensures r.Missing? ==> !HasBase(w0.clusters[c])
    ensures Faults(lxd, cache) >= faults && asked <= lxd.asked
    ensures r == Done ==> PoolFound(lxd, cache, s) && UsersMade(cache.clusters[c], controllerIP, hostname)
    ensures r == Done ==>
              NodesServed(w0.starts, lxd.starts, nodes, s, lxd.reports, Faults(lxd, cache) == faults)
    ensures Faults(lxd, cache) == faults && names <= w0.instances.Keys && PoolFound(lxd, cache, s) ==>
              r == Done || r.Missing? || GaveUp(asked, lxd.asked, names, [hostname])
  {
    ghost var w1, faults1, asked1 := Snapshot(lxd, cache), Faults(lxd, cache), lxd.asked;
    PlaneOpens(w1.clusters[c], w1.instances, w0.starts, w1.starts, s, etcdIP, controllerIP, lxd.reports);
    RestPrepared(w0, w1, c, s, nodes, names);
    r := JoinAndFinish(lxd, cache, c, s, nodes, etcdIP, controllerIP, hostname);
    ghost var w2 := Snapshot(lxd, cache);
    EtcdUntouched(w1, w2, c, NameSet(nodes), s.etcd, etcdIP);
    StartsGrow(w0, w1, c, names);
    StartsGrow(w1, w2, c, NameSet(nodes));
    ProvisionsMore(w1, w2, c, NameSet(nodes), names);
    ProvisionsTwice(w0, w1, w2, c, names);
    ControlPlaneStartedWider(w0.starts, w0.starts, w1.starts, w2.starts, s);
    PlaneToldWider(w0.starts, w0.starts, w1.starts, w2.starts, s.controller, controllerIP, lxd.reports);
    if r == Done {
      NodesServedBefore(w0.starts, w1.starts, w2.starts, nodes, s, lxd.reports, Faults(lxd, cache) == faults1, Faults(lxd, cache) == faults);
    } else if GaveUp(asked1, lxd.asked, {s.registry}, [hostname]) {
      GaveUpWider(asked, asked1, lxd.asked, lxd.asked, {s.registry}, names, [hostname]);
    }
  }

  lemma RestPrepared(w0: World, w1: World, c: string, s: ClusterState, nodes: seq<string>, names: set<string>)
    requires Provisions(w0, w1, c, names) && c in w0.clusters && c in w1.clusters && CertsSame(w0.clusters[c], w1.clusters[c])
    requires CertsReady(w0.clusters[c], nodes) && RolesFit(w0.instances, s) && nodes == s.workers + [s.controller]
    ensures AllCertified(w1.clusters[c], nodes) && AllFit(w1.instances, nodes) && w1.instances.Keys == w0.instances.Keys
    ensures HasBase(w0.clusters[c]) && KUBECONFIG_DIR in w1.clusters[c].dirs ==>
              !SomeCannotJoin(w1.clusters[c], nodes) && CanConfigure(w1.clusters[c], "admin")
  {
    DirGrows(w0, w1, c, names);
    SameNames(w0, w1, c, names);
    CertsReadyMeans(w0.clusters[c], nodes);
    AllStayCertified(w0.clusters[c], w1.clusters[c], nodes);
    RolesFitKept(w0, w1, c, names, s);
    RolesFitNodes(w1.instances, s);
    IssuedGrows(w0.clusters[c], w1.clusters[c], nodes);
    if HasBase(w1.clusters[c]) {
      IssuedSuffices(w1.clusters[c], nodes);
    }
  }

  /** What a whole start achieves: the files start-worker relies on, every node, every service, the same address in both environments. */
  ghost predicate WholeStart(d: ClusterDir, m: map<string, Instance>, a: seq<ServiceStart>, b: seq<ServiceStart>, s: ClusterState) {
    exists ip :: WholeStartAt(d, m, a, b, s, ip)
  }

  ghost predicate WholeStartAt(d: ClusterDir, m: map<string, Instance>, a: seq<ServiceStart>, b: seq<ServiceStart>,
                               s: ClusterState, etcdIP: string) {
    && HasStarted(d) && NodesDone(d, m, s.workers + [s.controller]) && ControlPlaneStarted(a, b, s)
    && '\n' !in etcdIP && HasWorkerEnv(m, s.controller, etcdIP) && EtcdBinds(m, s.etcd, etcdIP)
  }

  /** The container's environment file is the one configureWorker writes with an address reported for etcd's container. */
  ghost predicate HasEtcdAddress(m: map<string, Instance>, container: string, etcd: string, reports: set<(string, string)>) {
    exists ip :: HasReported(m, container, etcd, reports, ip)
  }

  ghost predicate HasReported(m: map<string, Instance>, container: string, etcd: string, reports: set<(string, string)>, ip: string) {
    (etcd, ip) in reports && HasWorkerEnv(m, container, ip)
  }

  /** The controller's own clients and the users know the API server by addresses reported for the controller. */
  ghost predicate UsersServed(d: ClusterDir, a: seq<ServiceStart>, b: seq<ServiceStart>, controller: string,
                              reports: set<(string, string)>, hostname: string) {
    exists ip :: (controller, ip) in reports && UsersMade(d, ip, hostname) && PlaneTold(a, b, controller, ip, reports)
  }

  /** What start promises of a cluster besides `WholeStart`, as far as LXD's reports and its own faults come into it. */
  ghost predicate StartReported(d: ClusterDir, m: map<string, Instance>, a: seq<ServiceStart>, b: seq<ServiceStart>, s: ClusterState,
                                reports: set<(string, string)>, hostname: string, clean: bool) {
    forall x | x == s :: ReportedStart(d, m, a, b, x, reports, hostname, clean)
  }

  /** The same, written out. */
  ghost predicate ReportedStart(d: ClusterDir, m: map<string, Instance>, a: seq<ServiceStart>, b: seq<ServiceStart>, s: ClusterState,
                                reports: set<(string, string)>, hostname: string, clean: bool) {
    && HasEtcdAddress(m, s.controller, s.etcd, reports) && UsersServed(d, a, b, s.controller, reports, hostname)
    && NodesServed(a, b, s.workers + [s.controller], s, reports, clean)
  }

  lemma ReportedOpens(d: ClusterDir, m: map<string, Instance>, a: seq<ServiceStart>, b: seq<ServiceStart>, s: ClusterState,
                      reports: set<(string, string)>, hostname: string, clean: bool)
    requires StartReported(d, m, a, b, s, reports, hostname, clean)
    ensures ReportedStart(d, m, a, b, s, reports, hostname, clean)
  {
  }

  /** All start does between starting the containers and writing the record. */
  method ProvisionCluster(lxd: Server, cache: Cache, c: string, s: ClusterState, nodes: seq<string>, hostname: string,
                          ghost names: set<string>)
    returns (r: Outcome)
    requires c in cache.clusters && BaseSound(cache.clusters[c]) && RolesFit(lxd.instances, s)
    requires forall i | 0 <= i < |nodes| :: GoodName(nodes[i]) && OwnedBy(nodes[i], c)
    requires nodes == s.workers + [s.controller] && s.etcd !in nodes
    requires {s.etcd, s.registry, s.controller} <= names && NameSet(nodes) <= names
    modifies cache, lxd`instances, lxd`starts, lxd`faults, lxd`asked
    ensures Provisions(old(Snapshot(lxd, cache)), Snapshot(lxd, cache), c, names) && c in cache.clusters
    ensures r != Refused
    ensures r == Done ==> WholeStart(cache.clusters[c], lxd.instances, old(lxd.starts), lxd.starts, s)
    ensures r == Done ==> StartReported(cache.clusters[c], lxd.instances, old(lxd.starts), lxd.starts, s, lxd.reports, hostname,
                                        Faults(lxd, cache) == old(Faults(lxd, cache)))
    ensures r.Missing? ==> !HasBase(old(cache.clusters)[c])
    ensures hostname == "" ==> r != Done
    ensures Faults(lxd, cache) >= old(Faults(lxd, cache)) && old(lxd.asked) <= lxd.asked
    ensures Faults(lxd, cache) == old(Faults(lxd, cache)) && names <= old(lxd.instances).Keys && PoolFound(lxd, cache, s) ==>
              r == Done || r.Missing? || GaveUp(old(lxd.asked), lxd.asked, names, [hostname])
  {
    ghost var w0 := Snapshot(lxd, cache);
    var etcdIP, controllerIP;
    r, etcdIP, controllerIP := IssueStartCerts(lxd, cache, c, s, nodes, hostname);
    ghost var w1, faults1, asked1 := Snapshot(lxd, cache), Faults(lxd, cache), lxd.asked;
    ProvisionsMore(w0, w1, c, {}, names);
    if r == Done {
      CertsMakeReady(w0, w1, c, s, nodes);
      r := ConfigureCluster(lxd, cache, c, s, nodes, etcdIP, controllerIP, hostname, names);
      ghost var w2 := Snapshot(lxd, cache);
      ProvisionsTwice(w0, w1, w2, c, names);
      if r == Done {
        StartIsWhole(w0, w1, w2, c, s, nodes, names, etcdIP, lxd.reports, controllerIP, hostname);
        NodesServedBefore(w0.starts, w1.starts, w2.starts, nodes, s, lxd.reports, Faults(lxd, cache) == faults1,
                          Faults(lxd, cache) == old(Faults(lxd, cache)));
        assert ReportedStart(w2.clusters[c], w2.instances, w0.starts, w2.starts, s, lxd.reports, hostname,
                             Faults(lxd, cache) == old(Faults(lxd, cache)));
      } else if GaveUp(asked1, lxd.asked, names, [hostname]) {
        GaveUpWider(old(lxd.asked), asked1, lxd.asked, lxd.asked, names, names, [hostname]);
      }
    } else if GaveUp(old(lxd.asked), lxd.asked, {s.etcd, s.controller} + NameSet(nodes), [hostname]) {
      GaveUpWider(old(lxd.asked), old(lxd.asked), lxd.asked, lxd.asked, {s.etcd, s.controller} + NameSet(nodes), names, [hostname]);
    }
  }

  lemma CertsMakeReady(w0: World, w1: World, c: string, s: ClusterState, nodes: seq<string>)
    requires Provisions(w0, w1, c, {}) && c in w0.clusters && c in w1.clusters && BaseSound(w0.clusters[c]) && RolesFit(w0.instances, s)
    requires CertsIssued(w1.clusters[c], nodes) && CertsTrusted(w1.clusters[c], nodes)
    ensures CertsReady(w1.clusters[c], nodes) && RolesFit(w1.instances, s) && w1.instances.Keys == w0.instances.Keys
    ensures HasBase(w0.clusters[c]) ==> HasBase(w1.clusters[c])
  {
    DirGrows(w0, w1, c, {});
    IssuedGrows(w0.clusters[c], w1.clusters[c], nodes);
    BaseStaysSound(w0.clusters[c], w1.clusters[c]);
    RolesFitKept(w0, w1, c, {}, s);
    SameNames(w0, w1, c, {});
  }

  lemma StartIsWhole(w0: World, w1: World, w2: World, c: string, s: ClusterState, nodes: seq<string>, names: set<string>,
                     etcdIP: string, reports: set<(string, string)>, controllerIP: string, hostname: string)
    requires Provisions(w0, w1, c, {}) && Provisions(w1, w2, c, names) && c in w1.clusters && c in w2.clusters
    requires nodes == s.workers + [s.controller] && CertsIssued(w1.clusters[c], nodes) && '\n' !in etcdIP
    requires ClusterConfigured(w2.clusters[c], w2.instances, w1.starts, w2.starts, s, etcdIP, controllerIP, reports)
    requires (s.etcd, etcdIP) in reports && (s.controller, controllerIP) in reports && UsersMade(w2.clusters[c], controllerIP, hostname)
    ensures WholeStart(w2.clusters[c], w2.instances, w0.starts, w2.starts, s) && w0.starts <= w1.starts
    ensures HasEtcdAddress(w2.instances, s.controller, s.etcd, reports) && UsersServed(w2.clusters[c], w0.starts, w2.starts, s.controller, reports, hostname)
  {
    StartsGrow(w0, w1, c, {});
    DirGrows(w1, w2, c, names);
    NodesOpen(w2.clusters[c], w2.instances, nodes);
    JoinedIsStarted(w1.clusters[c], w2.clusters[c], nodes);
    ControlPlaneStartedWider(w0.starts, w1.starts, w2.starts, w2.starts, s);
    PlaneToldWider(w0.starts, w1.starts, w2.starts, w2.starts, s.controller, controllerIP, reports);
    assert HasReported(w2.instances, s.controller, s.etcd, reports, etcdIP);
    assert WholeStartAt(w2.clusters[c], w2.instances, w0.starts, w2.starts, s, etcdIP);
  }
}
