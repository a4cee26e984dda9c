/**
  The LXD API as lxdk uses it, and the cache directory. A call may be lost on
  the way out (nothing happens) or its reply may be lost (it happened, but an
  error is reported); `faults` counts these transport errors. Otherwise LXD
  answers as its state says: a create of an existing name, a change to a
  missing instance and a delete of a network or pool in use are refused.
  Operations on local files and local processes may fail as well, and are
  counted in the cache's own `faults`.
 */
module Lxd {
  import opened Text
  import opened Paths
  import opened Trees
  import opened Rooms
  import opened Names
  import opened Wrappers
  import opened Worlds
  import opened Addresses

  /** What became of one request. */
  datatype Fate = Delivered | RequestLost | ReplyLost

  /** How one request to the file API ended. */
  datatype Push = Pushed | NotDirectory | NoParent | Lost

  /** The type GetInstanceFile reports. */
  datatype FileType = Directory | RegularFile

  /** An image brings what its alias stands for, and has room for what lxdk pushes. */
  ghost predicate ImageBrings(alias: string, t: Nodes) {
    HasAll(t, AliasFiles(alias)) && Roomy(t)
  }

  /** The images LXD has, by their aliases. */
  type Images = m: map<string, Tree> | forall alias | alias in m :: ImageBrings(alias, m[alias]) witness map[]

  /** What LXD tells of a storage pool: its driver and its source, if it has one. */
  datatype PoolConfig = PoolConfig(driver: string, source: Option<string>)

  /** One request for an instance's addresses, and the devices reported if it was answered. */
  datatype Ask = Ask(name: string, reply: Option<map<string, Nic>>)

  /** All addresses of the devices are among those reported for the instance. */
  predicate ReportedFor(nets: map<string, Nic>, name: string, reports: set<(string, string)>) {
    forall d | d in nets :: forall i | 0 <= i < |nets[d].addresses| :: (name, nets[d].addresses[i].text) in reports
  }

  class Server {
    var instances: map<string, Instance>
    var networks: set<string>
    var pools: set<string>
    var profiles: set<string>
    var starts: seq<ServiceStart>
    var faults: nat

    /** Every request for addresses so far. */
    var asked: seq<Ask>

    /** How many creates of instances were refused because the name was taken. */
    var collisions: nat

    const images: Images

    const poolConfigs: map<string, PoolConfig>

    /** Every address LXD ever reports for an instance, with the instance's name. */
    const reports: set<(string, string)>

    constructor (instances: map<string, Instance>, networks: set<string>, pools: set<string>, profiles: set<string>,
                 images: Images, poolConfigs: map<string, PoolConfig>, reports: set<(string, string)>)
      ensures this.instances == instances && this.networks == networks && this.pools == pools && this.profiles == profiles
      ensures starts == [] && faults == 0 && asked == [] && collisions == 0
      ensures this.images == images && this.poolConfigs == poolConfigs && this.reports == reports
    {
      this.instances, this.networks, this.pools, this.profiles := instances, networks, pools, profiles;
      starts, faults, asked, collisions := [], 0, [], 0;
      this.images, this.poolConfigs, this.reports := images, poolConfigs, reports;
    }

    method Send() returns (fate: Fate)
      modifies this`faults
      ensures faults == old(faults) + if fate == Delivered then 0 else 1
    {
      if * {
        fate := Delivered;
      } else if * {
        fate, faults := RequestLost, faults + 1;
      } else {
        fate, faults := ReplyLost, faults + 1;
      }
    }

    /** lxd.InstanceServerConnect */
    method Connect() returns (ok: bool)
      modifies this`faults
      ensures faults >= old(faults) && (faults == old(faults) ==> ok)
    {
      var fate := Send();
      ok := fate == Delivered;
    }

    // ---- networks, pools, profiles ----

    method CreateNetwork(name: string) returns (ok: bool)
      modifies this`networks, this`faults
      ensures ok ==> name !in old(networks)
      ensures networks == old(networks) || (name !in old(networks) && networks == old(networks) + {name})
      ensures ok ==> networks == old(networks) + {name}
      ensures faults >= old(faults) && (faults == old(faults) ==> (ok <==> name !in old(networks)) && (!ok ==> networks == old(networks)))
    {
      var fate := Send();
      if fate != RequestLost && name !in networks {
        networks := networks + {name};
        return fate == Delivered;
      }
      ok := false;
    }

    method DeleteNetwork(name: string) returns (ok: bool)
      modifies this`networks, this`faults
      ensures ok ==> name in old(networks) && networks == old(networks) - {name} && NetworkFree(instances, name)
      ensures networks == old(networks) || networks == old(networks) - {name}
      ensures networks != old(networks) ==> NetworkFree(instances, name)
      ensures faults >= old(faults)
      ensures faults == old(faults) && name in old(networks) && NetworkFree(instances, name) ==> ok
    {
      var fate := Send();
      if fate != RequestLost && name in networks && NetworkFree(instances, name) {
        networks := networks - {name};
        return fate == Delivered;
      }
      ok := false;
    }

    method CreateStoragePool(name: string) returns (ok: bool)
      modifies this`pools, this`faults
      ensures ok ==> name !in old(pools)
      ensures pools == old(pools) || (name !in old(pools) && pools == old(pools) + {name})
      ensures ok ==> pools == old(pools) + {name}
      ensures faults >= old(faults) && (faults == old(faults) ==> (ok <==> name !in old(pools)) && (!ok ==> pools == old(pools)))
    {
      var fate := Send();
      if fate != RequestLost && name !in pools {
        pools := pools + {name};
        return fate == Delivered;
      }
      ok := false;
    }

    method DeleteStoragePool(name: string) returns (ok: bool)
      modifies this`pools, this`faults
      ensures ok ==> name in old(pools) && pools == old(pools) - {name} && PoolFree(instances, name)
      ensures pools == old(pools) || pools == old(pools) - {name}
      ensures pools != old(pools) ==> PoolFree(instances, name)
      ensures faults >= old(faults)
      ensures faults == old(faults) && name in old(pools) && PoolFree(instances, name) ==> ok
    {
      var fate := Send();
      if fate != RequestLost && name in pools && PoolFree(instances, name) {
        pools := pools - {name};
        return fate == Delivered;
      }
      ok := false;
    }

    method GetNetwork(name: string) returns (ok: bool)
      modifies this`faults
      ensures ok ==> name in networks
      ensures faults >= old(faults) && (faults == old(faults) && name in networks ==> ok)
    {
      var fate := Send();
      ok := fate == Delivered && name in networks;
    }

    /** What LXD tells of a pool. */
    function ConfigOf(pool: string): PoolConfig {
      if pool in poolConfigs then poolConfigs[pool] else PoolConfig("", None)
    }

    method GetStoragePool(name: string) returns (ok: bool, conf: PoolConfig)
      modifies this`faults
      ensures ok ==> name in pools
      ensures conf == ConfigOf(name)
      ensures faults >= old(faults) && (faults == old(faults) && name in pools ==> ok)
    {
      var fate := Send();
      ok, conf := fate == Delivered && name in pools, ConfigOf(name);
    }

    method GetProfileNames() returns (ok: bool, names: set<string>)
      modifies this`faults
      ensures ok ==> names == profiles
      ensures faults >= old(faults) && (faults == old(faults) ==> ok)
    {
      var fate := Send();
      ok, names := fate == Delivered, profiles;
    }

    method GetProfile(name: string) returns (ok: bool)
      modifies this`faults
      ensures ok ==> name in profiles
      ensures faults >= old(faults) && (faults == old(faults) && name in profiles ==> ok)
    {
      var fate := Send();
      ok := fate == Delivered && name in profiles;
    }

    method CreateProfile(name: string) returns (ok: bool)
      modifies this`profiles, this`faults
      ensures ok ==> name !in old(profiles)
      ensures profiles == old(profiles) || profiles == old(profiles) + {name}
      ensures ok ==> profiles == old(profiles) + {name}
      ensures faults >= old(faults) && (faults == old(faults) && name !in old(profiles) ==> ok)
    {
      var fate := Send();
      if fate != RequestLost && name !in profiles {
        profiles := profiles + {name};
        return fate == Delivered;
      }
      ok := false;
    }

    // ---- instances ----

    /** Everything a new instance names is there. */
    predicate CanCreate(pool: string, network: string, source: string, profs: seq<string>)
      reads this`networks, this`pools, this`profiles
    {
      network in networks && pool in pools && source in images && forall p | p in profs :: p in profiles
    }

    /** CreateInstance and the Wait on its operation. The new instance's tree is its image's. */
    method CreateInstance(name: string, pool: string, network: string, source: string, profs: seq<string>)
      returns (ok: bool)
      modifies this`instances, this`faults, this`collisions
      ensures ok ==> name in instances && name !in old(instances)
      ensures instances == old(instances) ||
              (name !in old(instances) && CanCreate(pool, network, source, profs) &&
               instances == old(instances)[name := Instance(false, pool, network, source, profs, map[], images[source])])
      ensures faults >= old(faults) && collisions >= old(collisions)
      ensures faults == old(faults) && collisions == old(collisions) ==> (ok <==> CanCreate(pool, network, source, profs))
      ensures faults == old(faults) && !ok ==> instances == old(instances)
    {
      var fate := Send();
      if fate != RequestLost && name in instances {
        collisions := collisions + 1;
      } else if fate != RequestLost && CanCreate(pool, network, source, profs) {
        instances := instances[name := Instance(false, pool, network, source, profs, map[], images[source])];
        return fate == Delivered;
      }
      ok := false;
    }

    method GetInstanceState(name: string) returns (ok: bool, running: bool)
      modifies this`faults
      ensures ok ==> name in instances && running == instances[name].running
      ensures faults >= old(faults) && (faults == old(faults) && name in instances ==> ok)
    {
      var fate := Send();
      if fate == Delivered && name in instances {
        return true, instances[name].running;
      }
      ok, running := false, false;
    }

    /** UpdateInstanceState "start" and the Wait on its operation. */
    method StartInstance(name: string) returns (ok: bool)
      modifies this`instances, this`faults
      ensures ok ==> name in old(instances)
      ensures ok ==> instances == old(instances)[name := old(instances)[name].(running := true)]
      ensures instances == old(instances) ||
              (name in old(instances) && instances == old(instances)[name := old(instances)[name].(running := true)])
      ensures faults >= old(faults) && (faults == old(faults) && name in old(instances) ==> ok)
    {
      var fate := Send();
      if fate != RequestLost && name in instances {
        instances := instances[name := instances[name].(running := true)];
        return fate == Delivered;
      }
      ok := false;
    }

    /** UpdateInstanceState "stop": once accepted the instance ends up stopped, or was stopped already. */
    method StopInstance(name: string) returns (ok: bool)
      modifies this`instances, this`faults
      ensures ok ==> name in old(instances)
      ensures ok ==> instances == old(instances)[name := old(instances)[name].(running := false)]
      ensures instances == old(instances) ||
              (name in old(instances) && instances == old(instances)[name := old(instances)[name].(running := false)])
      ensures faults >= old(faults) && (faults == old(faults) && name in old(instances) ==> ok)
    {
      var fate := Send();
      if fate != RequestLost && name in instances {
        instances := instances[name := instances[name].(running := false)];
        return fate == Delivered;
      }
      ok := false;
    }

    /** DeleteInstance: once accepted it completes. A running instance is not deleted. */
    method DeleteInstance(name: string) returns (ok: bool)
      modifies this`instances, this`faults
      ensures ok ==> name in old(instances) && instances == old(instances) - {name}
      ensures instances == old(instances) || instances == old(instances) - {name}
      ensures faults >= old(faults)
      ensures faults == old(faults) && name in old(instances) && !old(instances)[name].running ==> ok
    {
      var fate := Send();
      if fate != RequestLost && name in instances && !instances[name].running {
        instances := instances - {name};
        return fate == Delivered;
      }
      ok := false;
    }

    /** A call that changes nothing the model keeps, as running a command in the instance. */
    method Touch(name: string) returns (ok: bool)
      modifies this`faults
      ensures ok ==> name in instances
      ensures faults >= old(faults) && (faults == old(faults) && name in instances ==> ok)
    {
      var fate := Send();
      ok := fate == Delivered && name in instances;
    }

    /** GetInstance, as far as its devices go. */
    method GetInstance(name: string) returns (ok: bool, devices: map<string, string>)
      modifies this`faults
      ensures ok ==> name in instances && devices == instances[name].devices
      ensures faults >= old(faults) && (faults == old(faults) && name in instances ==> ok)
    {
      var fate := Send();
      if fate == Delivered && name in instances {
        return true, instances[name].devices;
      }
      ok, devices := false, map[];
    }

    /** UpdateInstance with other devices, and the Wait on its operation. */
    method UpdateInstance(name: string, devices: map<string, string>) returns (ok: bool)
      modifies this`instances, this`faults
      ensures instances == old(instances) ||
              (name in old(instances) && instances == old(instances)[name := old(instances)[name].(devices := devices)])
      ensures ok ==> name in old(instances) && instances == old(instances)[name := old(instances)[name].(devices := devices)]
      ensures faults >= old(faults) && (faults == old(faults) && name in old(instances) ==> ok)
    {
      var fate := Send();
      if fate != RequestLost && name in instances {
        instances := instances[name := instances[name].(devices := devices)];
        return fate == Delivered;
      }
      ok := false;
    }

    /** "systemctl start" in a container. */
    method StartService(name: string, service: Service) returns (ok: bool)
      modifies this`starts, this`faults
      ensures ok ==> name in instances && starts != old(starts)
      ensures faults >= old(faults) && (faults == old(faults) && name in instances ==> ok)
      ensures starts == old(starts) ||
              (name in instances && starts == old(starts) + [ServiceStart(name, service, instances[name].tree)])
    {
      var fate := Send();
      if fate != RequestLost && name in instances {
        starts := starts + [ServiceStart(name, service, instances[name].tree)];
        return fate == Delivered;
      }
      ok := false;
    }

    /** GetInstanceFull: the network devices the instance reports. */
    method GetInstanceFull(name: string) returns (ok: bool, nets: map<string, Nic>)
      modifies this`faults, this`asked
      ensures ok ==> name in instances
      ensures faults >= old(faults) && (!ok && faults == old(faults) ==> name !in instances)
      ensures ReportedFor(nets, name, reports)
      ensures asked == old(asked) + [Ask(name, if ok then Some(nets) else None)]
    {
      var fate := Send();
      nets := *;
      if !ReportedFor(nets, name, reports) {
        nets := map[];
      }
      ok := fate == Delivered && name in instances;
      asked := asked + [Ask(name, if ok then Some(nets) else None)];
    }

    // ---- files in an instance ----

    /** GetInstanceFile: the type of what stands at the path, or an error if nothing does. */
    method GetInstanceFile(name: string, path: string) returns (ok: bool, kind: FileType)
      modifies this`faults
      ensures faults >= old(faults)
      ensures ok ==> name in instances && Locate(path) in instances[name].tree
      ensures ok ==> (kind == Directory <==> IsDir(instances[name].tree, Locate(path)))
      ensures !ok && faults == old(faults) ==> name !in instances || Locate(path) !in instances[name].tree
    {
      var fate := Send();
      if fate == Delivered && name in instances && Locate(path) in instances[name].tree {
        return true, if instances[name].tree[Locate(path)].Dir? then Directory else RegularFile;
      }
      ok, kind := false, RegularFile;
    }

    /** CreateInstanceFile with type "directory": an existing directory is left alone, anything else in the way refuses. */
    method CreateDirectory(name: string, path: string) returns (r: Push)
      modifies this`instances, this`faults
      ensures faults >= old(faults)
      ensures name !in old(instances) ==> instances == old(instances) && r != Pushed
      ensures name in old(instances) ==>
                var t, p := old(instances)[name].tree, Locate(path);
                && name in instances
                && instances == old(instances)[name := old(instances)[name].(tree := instances[name].tree)]
                && (instances[name].tree == t || (Free(t, p) && instances[name].tree == AddDir(t, p)))
                && (r == Pushed ==> Free(t, p) && instances[name].tree == AddDir(t, p))
                && (r == NoParent ==> p != [] && !IsDir(t, p[..|p| - 1]))
                && (faults == old(faults) && Free(t, p) && (p == [] || IsDir(t, p[..|p| - 1])) ==> r == Pushed)
    {
      var fate := Send();
      if fate == RequestLost || name !in instances {
        return Lost;
      }
      var i, p := instances[name], Locate(path);
      if p in i.tree {
        assert instances == instances[name := i];
        return if !i.tree[p].Dir? then NotDirectory else if fate == Delivered then Pushed else Lost;
      }
      if p != [] && !IsDir(i.tree, p[..|p| - 1]) {
        assert instances == instances[name := i];
        return NoParent;
      }
      instances := instances[name := i.(tree := Grow(i.tree, p))];
      r := if fate == Delivered then Pushed else Lost;
    }

    /** CreateInstanceFile with type "file". */
    method CreateFile(name: string, path: string, data: string) returns (r: Push)
      modifies this`instances, this`faults
      ensures faults >= old(faults)
      ensures name !in old(instances) ==> instances == old(instances) && r != Pushed
      ensures name in old(instances) ==>
                var t, p := old(instances)[name].tree, Locate(path);
                && name in instances
                && instances == old(instances)[name := old(instances)[name].(tree := instances[name].tree)]
                && (instances[name].tree == t || (CanPut(t, p) && instances[name].tree == t[p := File(data)]))
                && (r == Pushed ==> CanPut(t, p) && instances[name].tree == t[p := File(data)])
                && (faults == old(faults) && CanPut(t, p) ==> r == Pushed)
    {
      var fate := Send();
      if fate == RequestLost || name !in instances {
        return Lost;
      }
      var i, p := instances[name], Locate(path);
      if !CanPut(i.tree, p) {
        assert instances == instances[name := i];
        return NotDirectory;
      }
      instances := instances[name := i.(tree := Put(i.tree, p, data))];
      r := if fate == Delivered then Pushed else Lost;
    }
  }

  /**
    The cache directory, one sub-directory per cluster, and what else lxdk uses
    of the machine it runs on. `faults` counts local operations and processes
    that failed.
   */
  class Cache {
    var clusters: map<string, ClusterDir>
    var faults: nat

    /** What blkid prints. */
    const blkid: string

    /** The entries of /dev. */
    const dev: seq<string>

    constructor (blkid: string, dev: seq<string>)
      ensures clusters == map[] && faults == 0 && this.blkid == blkid && this.dev == dev
    {
      clusters, faults := map[], 0;
      this.blkid, this.dev := blkid, dev;
    }

    /** An operation that changes nothing here: a process, a request to the Kubernetes API, listing a directory. */
    method Attempt() returns (ok: bool)
      modifies this`faults
      ensures faults == old(faults) + if ok then 0 else 1
    {
      ok := *;
      if !ok {
        faults := faults + 1;
      }
    }

    /** config.ClusterStateFromContext */
    method ReadRecord(c: string) returns (r: Option<ClusterState>)
      ensures r == if c in clusters then clusters[c].record else None
    {
      r := if c in clusters then clusters[c].record else None;
    }

    /**
      config.WriteClusterState: the record is replaced as a whole, or not at
      all. The directory is made first, so of a cluster that had none an empty
      one may be left.
     */
    method WriteRecord(c: string, state: ClusterState) returns (ok: bool)
      modifies this
      ensures var d := if c in old(clusters) then old(clusters)[c] else EMPTY_DIR;
              && (ok ==> clusters == old(clusters)[c := d.(record := Some(state))])
              && (!ok ==> clusters == old(clusters) || (c !in old(clusters) && clusters == old(clusters)[c := EMPTY_DIR]))
      ensures faults >= old(faults) && (faults == old(faults) ==> ok)
    {
      ok := *; // os.MkdirAll
      if ok {
        if c !in clusters {
          clusters := clusters[c := EMPTY_DIR];
        }
        ok := *; // os.Create and Encode
        if ok {
          clusters := clusters[c := clusters[c].(record := Some(state))];
          return;
        }
      }
      faults := faults + 1;
    }

    /** os.MkdirAll of a directory in a cluster's directory. */
    method MakeDir(c: string, dir: string) returns (ok: bool)
      requires c in clusters
      modifies this
      ensures c in clusters && clusters == old(clusters)[c := clusters[c]]
      ensures ok ==> clusters[c] == old(clusters)[c].(dirs := old(clusters)[c].dirs + {dir})
      ensures !ok ==> clusters == old(clusters)
      ensures faults == old(faults) + if ok then 0 else 1
    {
      ok := Attempt();
      if ok {
        clusters := clusters[c := clusters[c].(dirs := clusters[c].dirs + {dir})];
      } else {
        assert clusters == clusters[c := clusters[c]];
      }
    }

    /** Write a file below a directory of the cluster's; nothing is written if the directory is not there. */
    method WriteFile(c: string, dir: string, path: string, data: string) returns (ok: bool)
      requires c in clusters
      modifies this
      ensures c in clusters && clusters == old(clusters)[c := clusters[c]]
      ensures clusters[c] == old(clusters)[c] || clusters[c] == old(clusters)[c].(files := old(clusters)[c].files[path := data])
      ensures ok ==> clusters[c] == old(clusters)[c].(files := old(clusters)[c].files[path := data]) && dir in old(clusters)[c].dirs
      ensures faults >= old(faults) && (faults == old(faults) && dir in old(clusters)[c].dirs ==> ok)
    {
      ok := false;
      if dir in clusters[c].dirs {
        ok := Attempt();
        var written: bool := *;
        if ok || written {
          clusters := clusters[c := clusters[c].(files := clusters[c].files[path := data])];
          return;
        }
      }
      assert clusters == clusters[c := clusters[c]];
    }

    /** os.RemoveAll of the cluster's directory; on failure any part of it may be left. */
    method RemoveAll(c: string) returns (ok: bool)
      modifies this
      ensures ok ==> clusters == old(clusters) - {c}
      ensures !ok && c !in old(clusters) ==> clusters == old(clusters)
      ensures !ok && c in old(clusters) ==>
                && c in clusters && clusters == old(clusters)[c := clusters[c]]
                && (clusters[c].record == None || clusters[c].record == old(clusters)[c].record)
                && forall f | f in clusters[c].files :: f in old(clusters)[c].files && clusters[c].files[f] == old(clusters)[c].files[f]
      ensures faults >= old(faults) && (faults == old(faults) ==> ok)
    {
      if * {
        clusters := clusters - {c};
        return true;
      }
      if c in clusters {
        var d := clusters[c];
        var keepRecord: bool, files: set<string>, dirs: set<string> := *, *, *;
        clusters := clusters[c := ClusterDir(if keepRecord then d.record else None, d.files - files, d.dirs - dirs)];
      }
      faults := faults + 1;
      ok := false;
    }
  }

  /** Everything that went wrong so far, with LXD or on this machine. */
  function Faults(lxd: Server, cache: Cache): nat
    reads lxd`faults, cache`faults
  {
    lxd.faults + cache.faults
  }

  function Snapshot(lxd: Server, cache: Cache): World
    reads lxd, cache
  {
    World(lxd.instances, lxd.networks, lxd.pools, lxd.profiles, lxd.starts, cache.clusters)
  }
}
