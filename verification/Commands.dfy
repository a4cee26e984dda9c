/** start, stop, start-worker and delete, each proved to do what its step relation says. */
module Commands {
  import opened Text
  import opened Paths
  import opened Trees
  import opened Names
  import opened Wrappers
  import opened Worlds
  import opened Lxd
  import opened Certificates
  import opened Containers
  import opened Provision
  import opened Workers
  import opened ControlPlane
  import opened Startup
  import opened Steps
  import Slices

  /**
    The cluster's record, if there is one, is its own, its containers have what
    the images of their roles bring, and the certificates create made say what
    they are to say.
   */
  ghost predicate OwnRecord(w: World, c: string) {
    && ClusterName(c)
    && (Recorded(w, c) ==> RecordFor(RecordOf(w, c), c) && RolesFit(w.instances, RecordOf(w, c)) && BaseSound(w.clusters[c]))
  }

  lemma Listed(s: ClusterState, c: string)
    requires RecordFor(s, c)
    ensures forall n :: n in s.containers <==> n in Roles(s)
    ensures {s.etcd, s.controller, s.registry} <= NameSet(s.containers) && NameSet(s.workers) <= NameSet(s.containers)
  {
    forall n
      ensures n in s.containers <==> n in Roles(s)
    {
      assert n in multiset(s.containers) <==> n in multiset(Roles(s));
    }
    assert Roles(s)[0] == s.etcd && Roles(s)[1] == s.controller && Roles(s)[2] == s.registry;
  }

  // ---- stop ----

  lemma FlagLowers(m0: map<string, Instance>, m1: map<string, Instance>, n: string, names: set<string>)
    requires Lowered(m0, m1, names) && n in names && n in m1
    ensures Lowered(m0, Flagged(m1, n, false), names)
  {
  }

  method StopContainers(lxd: Server, names: seq<string>) returns (ok: bool)
    modifies lxd`instances, lxd`faults
    ensures Lowered(old(lxd.instances), lxd.instances, NameSet(names))
    ensures ok ==> AllPresent(old(lxd.instances), names) && NoneRuns(lxd.instances, names)
    ensures lxd.faults >= old(lxd.faults)
    ensures lxd.faults == old(lxd.faults) && AllPresent(old(lxd.instances), names) ==> ok
  {
    ghost var m := lxd.instances;
    ok := true;
    var i := 0;
    while i < |names| && ok
      invariant 0 <= i <= |names| && Lowered(m, lxd.instances, NameSet(names))
      invariant ok ==> AllPresent(m, names[..i]) && NoneRuns(lxd.instances, names[..i])
      invariant lxd.faults >= old(lxd.faults) && (lxd.faults == old(lxd.faults) && AllPresent(m, names) ==> ok)
      decreases |names| - i
    {
      ghost var m1 := lxd.instances;
      ok := StopContainer(lxd, names[i]);
      if names[i] in m1 {
        FlagLowers(m, m1, names[i], NameSet(names));
      }
      TakeNext(names, i);
      i := i + 1;
    }
    assert names[..|names|] == names;
  }

  /** Nothing but a lost message or a failed write stands in the way of stopping the cluster. */
  ghost predicate Stoppable(w: World, c: string) {
    StopGuard(w, c) && AllPresent(w.instances, RecordOf(w, c).containers)
  }

  /** doStop */
  method DoStop(lxd: Server, cache: Cache, c: string) returns (r: Outcome)
    modifies cache, lxd`instances, lxd`faults
    ensures StopStep(old(Snapshot(lxd, cache)), c, r, Snapshot(lxd, cache))
    ensures Stoppable(old(Snapshot(lxd, cache)), c) && r != Done ==> lxd.faults > old(lxd.faults) || cache.faults > old(cache.faults)
  {
    ghost var w := Snapshot(lxd, cache);
    var read := cache.ReadRecord(c);
    if read.None? || read.value.runState == Stopped {
      return Refused;
    }
    var state := read.value;
    r := Failed;
    var ok := lxd.Connect();
    if ok {
      ok := StopContainers(lxd, state.containers);
      if ok {
        ok := cache.WriteRecord(c, state.(runState := Stopped));
        r := if ok then Done else Failed;
      }
    }
  }

  // ---- delete ----

  lemma FlagRemoves(m0: map<string, Instance>, m1: map<string, Instance>, n: string, names: set<string>)
    requires Removed(m0, m1, names) && n in names && n in m1
    ensures Removed(m0, Flagged(m1, n, false), names) && Removed(m0, m1 - {n}, names)
  {
  }

  /** The first `i` names are gone, each of them once. */
  ghost predicate GoneUpTo(m: map<string, Instance>, m1: map<string, Instance>, names: seq<string>, i: nat)
    requires i <= |names|
  {
    AllPresent(m, names[..i]) && Distinct(names[..i]) && m1 == m - NameSet(names[..i])
  }

  lemma GoneNext(m: map<string, Instance>, m1: map<string, Instance>, names: seq<string>, i: nat)
    requires i < |names| && GoneUpTo(m, m1, names, i)
    ensures names[i] in m1 ==> GoneUpTo(m, m1 - {names[i]}, names, i + 1)
    ensures AllPresent(m, names) && Distinct(names) ==> names[i] in m1
  {
    TakeNext(names, i);
  }

  /** deleteContainers */
  method DeleteContainers(lxd: Server, names: seq<string>) returns (ok: bool)
    modifies lxd`instances, lxd`faults
    ensures Removed(old(lxd.instances), lxd.instances, NameSet(names))
    ensures ok ==> AllPresent(old(lxd.instances), names) && lxd.instances == old(lxd.instances) - NameSet(names)
    ensures ok ==> Distinct(names)
    ensures lxd.faults >= old(lxd.faults)
    ensures lxd.faults == old(lxd.faults) && AllPresent(old(lxd.instances), names) && Distinct(names) ==> ok
  {
    ghost var m := lxd.instances;
    ok := true;
    var i := 0;
    while i < |names| && ok
      invariant 0 <= i <= |names| && Removed(m, lxd.instances, NameSet(names))
      invariant ok ==> GoneUpTo(m, lxd.instances, names, i)
      invariant lxd.faults >= old(lxd.faults)
      invariant lxd.faults == old(lxd.faults) && AllPresent(m, names) && Distinct(names) ==> ok
      decreases |names| - i
    {
      ghost var m1 := lxd.instances;
      GoneNext(m, m1, names, i);
      ok := DeleteContainer(lxd, names[i]);
      if names[i] in m1 {
        FlagRemoves(m, m1, names[i], NameSet(names));
      }
      i := i + 1;
    }
    assert names[..|names|] == names;
  }

  /** deleteStoragePool and deleteNetwork, as far as they are asked for and lxdk made them. */
  method DeleteHoldings(lxd: Server, state: ClusterState, storage: bool, network: bool) returns (ok: bool)
    modifies lxd`networks, lxd`pools, lxd`faults
    ensures lxd.pools == old(lxd.pools) || lxd.pools == WithoutOwn(old(lxd.pools), state.storagePool, storage)
    ensures lxd.networks == old(lxd.networks) || lxd.networks == WithoutOwn(old(lxd.networks), state.networkID, network)
    ensures lxd.networks != old(lxd.networks) || ok ==> lxd.pools == WithoutOwn(old(lxd.pools), state.storagePool, storage)
    ensures ok ==> lxd.networks == WithoutOwn(old(lxd.networks), state.networkID, network)
    ensures lxd.networks != old(lxd.networks) ==> NetworkFree(lxd.instances, state.networkID)
    ensures lxd.pools != old(lxd.pools) ==> PoolFree(lxd.instances, state.storagePool)
    ensures ok ==> HoldingsFree(lxd.instances, old(lxd.networks), old(lxd.pools), state, storage, network)
    ensures lxd.faults >= old(lxd.faults)
    ensures lxd.faults == old(lxd.faults) && HoldingsFree(lxd.instances, old(lxd.networks), old(lxd.pools), state, storage, network) ==> ok
  {
    ok := true;
    if storage && Contains(state.storagePool, "lxdk") {
      ok := lxd.DeleteStoragePool(state.storagePool);
    }
    if ok && network && Contains(state.networkID, "lxdk") {
      ok := lxd.DeleteNetwork(state.networkID);
    }
  }

  /** doDelete */
  method DoDelete(lxd: Server, cache: Cache, c: string, storage: bool, network: bool) returns (r: Outcome)
    modifies cache, lxd`instances, lxd`networks, lxd`pools, lxd`faults
    ensures DeleteStep(old(Snapshot(lxd, cache)), c, storage, network, r, Snapshot(lxd, cache))
    ensures r == Done ==> Deletable(old(Snapshot(lxd, cache)), c, storage, network)
    ensures Deletable(old(Snapshot(lxd, cache)), c, storage, network) && r != Done ==>
              lxd.faults > old(lxd.faults) || cache.faults > old(cache.faults)
  {
    var read := cache.ReadRecord(c);
    if read.None? {
      return Refused;
    }
    var state := read.value;
    r := Failed;
    var ok := lxd.Connect();
    if ok {
      ok := DeleteContainers(lxd, state.containers);
      if ok {
        ok := DeleteHoldings(lxd, state, storage, network);
        if ok {
          ok := cache.RemoveAll(c);
          r := if ok then Done else Failed;
        }
      }
    }
  }

  // ---- start ----

  /** start's check that no recorded container runs. */
  method CheckNoneRuns(lxd: Server, names: seq<string>) returns (r: Outcome)
    modifies lxd`faults
    ensures r == Done || r == Refused || r == Failed
    ensures r == Done ==> AllPresent(lxd.instances, names) && NoneRuns(lxd.instances, names)
    ensures r == Refused ==> !NoneRuns(lxd.instances, names)
    ensures lxd.faults >= old(lxd.faults)
    ensures lxd.faults == old(lxd.faults) && AllPresent(lxd.instances, names) && NoneRuns(lxd.instances, names) ==> r == Done
  {
    for i := 0 to |names|
      invariant AllPresent(lxd.instances, names[..i]) && NoneRuns(lxd.instances, names[..i])
      invariant lxd.faults >= old(lxd.faults)
    {
      var ok, running := lxd.GetInstanceState(names[i]);
      if !ok {
        return Failed;
      }
      if running {
        assert names[i] in names;
        return Refused;
      }
      TakeNext(names, i);
    }
    assert names[..|names|] == names;
    r := Done;
  }

  lemma RaisedTwice(m0: map<string, Instance>, m1: map<string, Instance>, m2: map<string, Instance>, names: set<string>)
    requires Raised(m0, m1, names) && Raised(m1, m2, names)
    ensures Raised(m0, m2, names)
  {
  }

  lemma FlagRaises(m: map<string, Instance>, n: string, names: set<string>)
    requires n in names && n in m
    ensures Raised(m, Flagged(m, n, true), names)
  {
  }

  lemma StaysRaised(m: map<string, Instance>, names: set<string>)
    ensures Raised(m, m, names)
  {
  }

  lemma ProvisionedIsRaised(m: map<string, Instance>, m': map<string, Instance>, names: set<string>)
    requires InstancesProvisioned(m, m', names)
    ensures Raised(m, m', names)
    ensures forall run: seq<string> :: AllRun(m, run) ==> AllRun(m', run)
  {
  }

  lemma RaisedFitsOne(m: map<string, Instance>, m': map<string, Instance>, names: set<string>, n: string, image: Image)
    requires Raised(m, m', names) && FitsIn(m, n, image)
    ensures FitsIn(m', n, image)
  {
    if n in m {
      assert n in names ==> RaisedOne(m[n], m'[n]);
      FitsOpens(m[n].tree, image);
      HasAllKept(m[n].tree, m'[n].tree, RoleFiles(image));
      assert RoleFits(m'[n].tree, image);
    }
  }

  lemma RaisedFits(m: map<string, Instance>, m': map<string, Instance>, names: set<string>, s: ClusterState)
    requires Raised(m, m', names) && RolesFit(m, s)
    ensures RolesFit(m', s)
  {
    RaisedFitsOne(m, m', names, s.etcd, Etcd);
    RaisedFitsOne(m, m', names, s.controller, Controller);
    RaisedFitsOne(m, m', names, s.registry, Registry);
    forall i | 0 <= i < |s.workers|
      ensures FitsIn(m', s.workers[i], Worker)
    {
      RaisedFitsOne(m, m', names, s.workers[i], Worker);
    }
  }

  method StartContainers(lxd: Server, names: seq<string>) returns (ok: bool)
    modifies lxd`instances, lxd`faults
    ensures Raised(old(lxd.instances), lxd.instances, NameSet(names))
    ensures ok ==> AllRun(lxd.instances, names)
    ensures lxd.faults >= old(lxd.faults)
    ensures lxd.faults == old(lxd.faults) && AllPresent(old(lxd.instances), names) ==> ok
  {
    ghost var m := lxd.instances;
    StaysRaised(m, NameSet(names));
    ok := true;
    var i := 0;
    while i < |names| && ok
      invariant 0 <= i <= |names| && Raised(m, lxd.instances, NameSet(names))
      invariant ok ==> AllRun(lxd.instances, names[..i])
      invariant lxd.faults >= old(lxd.faults) && (lxd.faults == old(lxd.faults) && AllPresent(m, names) ==> ok)
      decreases |names| - i
    {
      ghost var m1 := lxd.instances;
      ok := StartContainer(lxd, names[i]);
      if names[i] in m1 {
        FlagRaises(m1, names[i], NameSet(names));
        StaysRaised(m1, NameSet(names));
        RaisedTwice(m, m1, lxd.instances, NameSet(names));
      }
      TakeNext(names, i);
      i := i + 1;
    }
    assert names[..|names|] == names;
  }

  /** The nodes start visits are workers, then the controller; all have names an instance can have. */
  lemma NodesAreGood(s: ClusterState, c: string)
    requires ClusterName(c) && RecordFor(s, c)
    ensures forall i | 0 <= i < |s.workers + [s.controller]| ::
              GoodName((s.workers + [s.controller])[i]) && OwnedBy((s.workers + [s.controller])[i], c)
    ensures NameSet(s.workers + [s.controller]) <= NameSet(s.containers) && s.etcd !in s.workers + [s.controller]
  {
    Listed(s, c);
    forall i | 0 <= i < |s.workers + [s.controller]|
      ensures (s.workers + [s.controller])[i] != s.etcd
    {
      if (s.workers + [s.controller])[i] == s.etcd {
        OneOwner(s.etcd, c, Etcd, c, if i < |s.workers| then Worker else Controller);
      }
    }
    forall i | 0 <= i < |s.workers + [s.controller]|
      ensures GoodName((s.workers + [s.controller])[i]) && OwnedBy((s.workers + [s.controller])[i], c)
    {
      assert i < |s.workers| ==> NamedFor(s.workers[i], c, Worker);
      assert NamedFor((s.workers + [s.controller])[i], c, if i < |s.workers| then Worker else Controller);
      OwnedIsGood((s.workers + [s.controller])[i], c);
    }
  }

  /** Recorded containers may have been started and nothing else has happened since `w`. */
  ghost predicate Launched(w: World, w1: World, c: string, s: ClusterState) {
    exists m :: LaunchedTo(w, w1, c, s, m)
  }

  ghost predicate LaunchedTo(w: World, w1: World, c: string, s: ClusterState, m: map<string, Instance>) {
    Recorded(w, c) && RecordOf(w, c) == s && w1 == w.(instances := m) && Raised(w.instances, m, NameSet(s.containers))
  }

  /** Starting the containers and provisioning them, seen together. */
  lemma StartEndsTo(w: World, w1: World, w2: World, c: string, s: ClusterState, r: Outcome)
    requires Launched(w, w1, c, s) && Provisions(w1, w2, c, NameSet(s.containers))
    requires r != Done && (r.Missing? ==> !HasBase(w.clusters[c]))
    ensures Recorded(w, c) && RecordOf(w, c) == s && c in w2.clusters && StartedTo(w, c, r, w2, w2.clusters[c])
  {
    var m :| LaunchedTo(w, w1, c, s, m);
    var d :| ProvisionsTo(w1, w2, c, NameSet(s.containers), d);
    ProvisionedIsRaised(w1.instances, w2.instances, NameSet(s.containers));
    RaisedTwice(w.instances, w1.instances, w2.instances, NameSet(s.containers));
  }

  lemma StartEnds(w: World, w1: World, w2: World, c: string, s: ClusterState, r: Outcome)
    requires Launched(w, w1, c, s) && Provisions(w1, w2, c, NameSet(s.containers))
    requires r != Done && (r.Missing? ==> !HasBase(w.clusters[c]))
    ensures Recorded(w, c) && Started(w, c, r, w2)
  {
    StartEndsTo(w, w1, w2, c, s, r);
  }

  /** The same, with the record written. */
  lemma StartSucceeds(w: World, w1: World, w2: World, w3: World, c: string, s: ClusterState)
    requires Launched(w, w1, c, s) && Provisions(w1, w2, c, NameSet(s.containers)) && AllRun(w1.instances, s.containers)
    requires c in w2.clusters && WholeStart(w2.clusters[c], w2.instances, w.starts, w2.starts, s)
    requires w3 == w2.(clusters := w2.clusters[c := WithRunState(w2.clusters[c], s, Running)])
    ensures Recorded(w, c) && Started(w, c, Done, w3)
  {
    StartEndsTo(w, w1, w2, c, s, Failed);
    ProvisionsRun(w1, w2, c, s);
    RecordOnly(w2.clusters[c], w2.instances, w.starts, w2.starts, s);
    RecordWritten(w, w2, w3, c, s, w2.clusters[c], w3.clusters[c]);
  }

  /** Writing the record leaves the certificates as they were. */
  lemma RecordKeepsBase(d: ClusterDir, e: ClusterDir, f: ClusterDir)
    requires BaseSame(d, e) && f == e.(record := f.record)
    ensures BaseSame(d, f)
  {
    assert SameBase(d, e);
    assert SameBase(e, f);
    BaseSameTwice(d, e, f);
  }

  lemma RecordWritten(w: World, w2: World, w3: World, c: string, s: ClusterState, d2: ClusterDir, d3: ClusterDir)
    requires Recorded(w, c) && RecordOf(w, c) == s
    requires StartedTo(w, c, Failed, w2, d2) && d3 == WithRunState(d2, s, Running)
    requires AllRun(w2.instances, s.containers) && WholeStart(d3, w2.instances, w.starts, w2.starts, s)
    requires w3 == w2.(clusters := w2.clusters[c := d3])
    ensures StartedTo(w, c, Done, w3, d3)
  {
    UpdatedTwice(w.clusters, c, d2, d3);
    RecordKeepsBase(w.clusters[c], d2, d3);
  }

  lemma RecordOnly(d: ClusterDir, m: map<string, Instance>, a: seq<ServiceStart>, b: seq<ServiceStart>, s: ClusterState)
    requires WholeStart(d, m, a, b, s)
    ensures WholeStart(WithRunState(d, s, Running), m, a, b, s)
  {
    var ip :| WholeStartAt(d, m, a, b, s, ip);
    var e, nodes := WithRunState(d, s, Running), s.workers + [s.controller];
    NodesOpen(d, m, nodes);
    forall i | 0 <= i < |nodes|
      ensures CanJoin(e, ToLower(nodes[i]))
    {
    }
    NodesClose(e, m, nodes);
    assert WholeStartAt(e, m, a, b, s, ip);
  }

  lemma ProvisionsRun(w1: World, w2: World, c: string, s: ClusterState)
    requires Provisions(w1, w2, c, NameSet(s.containers)) && AllRun(w1.instances, s.containers)
    ensures AllRun(w2.instances, s.containers)
  {
  }

  /** The record is the cluster's own, and its containers hold what their images bring. */
  ghost predicate Startable(m: map<string, Instance>, c: string, s: ClusterState) {
    exists b :: b == c && RecordFor(s, b) && ClusterName(b) && RolesFit(m, s)
  }

  lemma StartableMeans(m: map<string, Instance>, c: string, s: ClusterState)
    ensures Startable(m, c, s) <==> RecordFor(s, c) && ClusterName(c) && RolesFit(m, s)
  {
  }

  /**
    Provisioning, and the list of workers as start holds it afterwards. The
    controller is appended to a slice that may share its array with that list.
   */
  method ProvisionNodes(lxd: Server, cache: Cache, c: string, state: ClusterState, hostname: string)
    returns (r: Outcome, workers: seq<string>)
    requires c in cache.clusters && Startable(lxd.instances, c, state) && BaseSound(cache.clusters[c])
    modifies cache, lxd`instances, lxd`starts, lxd`faults, lxd`asked
    ensures Provisions(old(Snapshot(lxd, cache)), Snapshot(lxd, cache), c, NameSet(state.containers)) && c in cache.clusters
    ensures r != Refused && (hostname == "" ==> r != Done)
    ensures r == Done ==> WholeStart(cache.clusters[c], lxd.instances, old(lxd.starts), lxd.starts, state)
    ensures r == Done ==> StartReported(cache.clusters[c], lxd.instances, old(lxd.starts), lxd.starts, state, lxd.reports, hostname,
                                        Faults(lxd, cache) == old(Faults(lxd, cache)))
    ensures r.Missing? ==> !HasBase(old(cache.clusters)[c])
    ensures workers == state.workers
    ensures Faults(lxd, cache) >= old(Faults(lxd, cache)) && old(lxd.asked) <= lxd.asked
    ensures Faults(lxd, cache) == old(Faults(lxd, cache)) && AllPresent(old(lxd.instances), state.containers) && PoolFound(lxd, cache, state) ==>
              r == Done || r.Missing? || GaveUp(old(lxd.asked), lxd.asked, NameSet(state.containers), [hostname])
  {
    StartableMeans(lxd.instances, c, state);
    NodesAreGood(state, c);
    Listed(state, c);
    var workerNames := Slices.Decode(state.workers);
    var workerContainers := Slices.Append(workerNames, state.controller);
    var nodes := Slices.Elements(workerContainers);
    workers := Slices.Elements(workerNames);
    r := ProvisionCluster(lxd, cache, c, state, nodes, hostname, NameSet(state.containers));
  }

  /** Write the record with the worker list as it was read. */
  method WriteRunning(lxd: Server, cache: Cache, c: string, state: ClusterState, workers: seq<string>,
                      ghost w: World, ghost w1: World)
    returns (r: Outcome)
    requires Launched(w, w1, c, state) && AllRun(w1.instances, state.containers) && workers == state.workers
    requires Provisions(w1, Snapshot(lxd, cache), c, NameSet(state.containers))
    requires c in cache.clusters && WholeStart(cache.clusters[c], lxd.instances, w.starts, lxd.starts, state)
    modifies cache
    ensures Recorded(w, c) && Started(w, c, r, Snapshot(lxd, cache))
    ensures r == Done ==> c in cache.clusters && cache.clusters[c] == WithRunState(old(cache.clusters)[c], state, Running)
    ensures r == Done || r == Failed
    ensures cache.faults >= old(cache.faults) && (cache.faults == old(cache.faults) ==> r == Done)
  {
    ghost var w2 := Snapshot(lxd, cache);
    var ok := cache.WriteRecord(c, state.(workers := workers, runState := Running));
    if ok {
      r := Done;
      StartSucceeds(w, w1, w2, Snapshot(lxd, cache), c, state);
    } else {
      r := Failed;
      StartEnds(w, w1, w2, c, state, r);
    }
  }

  /** What start reports does not depend on the record. */
  lemma ReportedWithRecord(d: ClusterDir, m: map<string, Instance>, a: seq<ServiceStart>, b: seq<ServiceStart>, s: ClusterState,
                           reports: set<(string, string)>, hostname: string, clean1: bool, clean: bool)
    requires StartReported(d, m, a, b, s, reports, hostname, clean1) && (clean ==> clean1)
    ensures StartReported(WithRunState(d, s, Running), m, a, b, s, reports, hostname, clean)
  {
    ReportedOpens(d, m, a, b, s, reports, hostname, clean1);
    var ip :| (s.controller, ip) in reports && UsersMade(d, ip, hostname) && PlaneTold(a, b, s.controller, ip, reports);
    UsersWithRecord(d, WithRunState(d, s, Running), ip, if UsersConfigured(d, ip, ip) then ip else hostname);
    assert UsersMade(WithRunState(d, s, Running), ip, hostname);
    NodesServedBefore(a, a, b, s.workers + [s.controller], s, reports, clean1, clean);
    assert ReportedStart(WithRunState(d, s, Running), m, a, b, s, reports, hostname, clean);
  }

  /** start once the containers run: provision them and write the record. */
  method ProvisionAndRecord(lxd: Server, cache: Cache, c: string, state: ClusterState, hostname: string, ghost w: World)
    returns (r: Outcome)
    requires Launched(w, Snapshot(lxd, cache), c, state) && AllRun(lxd.instances, state.containers)
    requires Startable(lxd.instances, c, state) && c in w.clusters && BaseSound(w.clusters[c])
    modifies cache, lxd`instances, lxd`starts, lxd`faults, lxd`asked
    ensures Recorded(w, c) && Started(w, c, r, Snapshot(lxd, cache))
    ensures r != Refused && (hostname == "" ==> r != Done)
    ensures AllRun(lxd.instances, state.containers)
    ensures r == Done ==> c in cache.clusters &&
                          StartReported(cache.clusters[c], lxd.instances, w.starts, lxd.starts, state, lxd.reports, hostname,
                                        Faults(lxd, cache) == old(Faults(lxd, cache)))
    ensures Faults(lxd, cache) >= old(Faults(lxd, cache)) && old(lxd.asked) <= lxd.asked
    ensures Faults(lxd, cache) == old(Faults(lxd, cache)) && PoolFound(lxd, cache, state) ==>
              r == Done || r.Missing? || GaveUp(old(lxd.asked), lxd.asked, NameSet(state.containers), [hostname])
  {
    ghost var w1 := Snapshot(lxd, cache);
    LaunchedSame(w, w1, c, state);
    var workers;
    r, workers := ProvisionNodes(lxd, cache, c, state, hostname);
    ProvisionsRun(w1, Snapshot(lxd, cache), c, state);
    r := EndStart(lxd, cache, c, state, workers, hostname, r, w, w1, old(Faults(lxd, cache)));
  }

  /** How start ends after provisioning: with the record written, if that succeeded. */
  method EndStart(lxd: Server, cache: Cache, c: string, state: ClusterState, workers: seq<string>, ghost hostname: string, r0: Outcome,
                  ghost w: World, ghost w1: World, ghost faults: nat)
    returns (r: Outcome)
    requires Launched(w, w1, c, state) && AllRun(w1.instances, state.containers) && workers == state.workers
    requires Provisions(w1, Snapshot(lxd, cache), c, NameSet(state.containers)) && c in cache.clusters && Faults(lxd, cache) >= faults
    requires r0 == Done ==> WholeStart(cache.clusters[c], lxd.instances, w.starts, lxd.starts, state)
    requires r0 == Done ==>
               StartReported(cache.clusters[c], lxd.instances, w.starts, lxd.starts, state, lxd.reports, hostname, Faults(lxd, cache) == faults)
    requires r0.Missing? ==> c in w.clusters && !HasBase(w.clusters[c])
    modifies cache
    ensures Recorded(w, c) && Started(w, c, r, Snapshot(lxd, cache))
    ensures r == Done ==> r0 == Done && c in cache.clusters
    ensures r0 != Done ==> r == r0
    ensures r == Refused ==> r0 == Refused
    ensures r == Done ==>
              StartReported(cache.clusters[c], lxd.instances, w.starts, lxd.starts, state, lxd.reports, hostname, Faults(lxd, cache) == faults)
    ensures Faults(lxd, cache) >= old(Faults(lxd, cache)) && (Faults(lxd, cache) == faults && r0 == Done ==> r == Done)
  {
    if r0 == Done {
      r := RecordRunning(lxd, cache, c, state, workers, hostname, w, w1, faults);
    } else {
      r := r0;
      StartEnds(w, w1, Snapshot(lxd, cache), c, state, r);
    }
  }

  /** Write the record; what start reports stays as it is. */
  method RecordRunning(lxd: Server, cache: Cache, c: string, state: ClusterState, workers: seq<string>, ghost hostname: string,
                       ghost w: World, ghost w1: World, ghost faults: nat)
    returns (r: Outcome)
    requires Launched(w, w1, c, state) && AllRun(w1.instances, state.containers) && workers == state.workers
    requires Provisions(w1, Snapshot(lxd, cache), c, NameSet(state.containers))
    requires c in cache.clusters && WholeStart(cache.clusters[c], lxd.instances, w.starts, lxd.starts, state)
    requires Faults(lxd, cache) >= faults &&
             StartReported(cache.clusters[c], lxd.instances, w.starts, lxd.starts, state, lxd.reports, hostname, Faults(lxd, cache) == faults)
    modifies cache
    ensures Recorded(w, c) && Started(w, c, r, Snapshot(lxd, cache))
    ensures r == Done || r == Failed
    ensures r == Done ==> c in cache.clusters &&
                          StartReported(cache.clusters[c], lxd.instances, w.starts, lxd.starts, state, lxd.reports, hostname,
                                        Faults(lxd, cache) == faults)
    ensures Faults(lxd, cache) >= old(Faults(lxd, cache)) && (Faults(lxd, cache) == faults ==> r == Done)
  {
    ghost var d, clean := cache.clusters[c], Faults(lxd, cache) == faults;
    r := WriteRunning(lxd, cache, c, state, workers, w, w1);
    if r == Done {
      ReportedWithRecord(d, lxd.instances, w.starts, lxd.starts, state, lxd.reports, hostname, clean, Faults(lxd, cache) == faults);
    }
  }

  lemma MissingFromBase(w: World, c: string, r: Outcome, w': World)
    requires Recorded(w, c) && Started(w, c, r, w') && r.Missing?
    ensures !HasBase(w.clusters[c])
  {
    var d :| StartedTo(w, c, r, w', d);
  }

  lemma LaunchedSame(w: World, w1: World, c: string, s: ClusterState)
    requires Launched(w, w1, c, s)
    ensures c in w.clusters && w1.clusters == w.clusters && w1.starts == w.starts
  {
  }

  /** start once its checks are passed: start the containers, provision them, write the record. */
  method BringUp(lxd: Server, cache: Cache, c: string, state: ClusterState, hostname: string) returns (r: Outcome)
    requires c in cache.clusters && cache.clusters[c].record == Some(state) && RecordFor(state, c) && ClusterName(c)
    requires RolesFit(lxd.instances, state) && BaseSound(cache.clusters[c]) && AllPresent(lxd.instances, state.containers)
    modifies cache, lxd`instances, lxd`starts, lxd`faults, lxd`asked
    ensures Started(old(Snapshot(lxd, cache)), c, r, Snapshot(lxd, cache))
    ensures r != Refused && (hostname == "" ==> r != Done)
    ensures r == Done ==> c in cache.clusters &&
                          StartReported(cache.clusters[c], lxd.instances, old(lxd.starts), lxd.starts, state, lxd.reports, hostname,
                                        Faults(lxd, cache) == old(Faults(lxd, cache)))
    ensures Faults(lxd, cache) >= old(Faults(lxd, cache)) && old(lxd.asked) <= lxd.asked
    ensures Faults(lxd, cache) == old(Faults(lxd, cache)) ==> AllRun(lxd.instances, state.containers)
    ensures Faults(lxd, cache) == old(Faults(lxd, cache)) && HasBase(old(cache.clusters)[c]) && PoolFound(lxd, cache, state) ==>
              r == Done || GaveUp(old(lxd.asked), lxd.asked, NameSet(state.containers), [hostname])
  {
    ghost var w := Snapshot(lxd, cache);
    var ok := StartContainers(lxd, state.containers);
    assert LaunchedTo(w, Snapshot(lxd, cache), c, state, lxd.instances);
    if ok {
      ghost var faults := Faults(lxd, cache);
      RaisedFits(w.instances, lxd.instances, NameSet(state.containers), state);
      StartableMeans(lxd.instances, c, state);
      r := ProvisionAndRecord(lxd, cache, c, state, hostname, w);
      if r.Missing? {
        MissingFromBase(w, c, r, Snapshot(lxd, cache));
      } else if r == Done {
        ReportedLess(cache.clusters[c], lxd.instances, w.starts, lxd.starts, state, lxd.reports, hostname,
                     Faults(lxd, cache) == faults, Faults(lxd, cache) == old(Faults(lxd, cache)));
      }
    } else {
      r := Failed;
      ProvisionsNothing(Snapshot(lxd, cache), c, NameSet(state.containers));
      StartEnds(w, Snapshot(lxd, cache), Snapshot(lxd, cache), c, state, r);
    }
  }

  lemma ReportedLess(d: ClusterDir, m: map<string, Instance>, a: seq<ServiceStart>, b: seq<ServiceStart>, s: ClusterState,
                     reports: set<(string, string)>, hostname: string, clean1: bool, clean: bool)
    requires StartReported(d, m, a, b, s, reports, hostname, clean1) && (clean ==> clean1)
    ensures StartReported(d, m, a, b, s, reports, hostname, clean)
  {
    ReportedOpens(d, m, a, b, s, reports, hostname, clean1);
    NodesServedBefore(a, a, b, s.workers + [s.controller], s, reports, clean1, clean);
    assert ReportedStart(d, m, a, b, s, reports, hostname, clean);
  }

  /** Nothing but a failed call, or an address never reported, stands in the way of starting the cluster. */
  ghost predicate CanStart(w: World, c: string, lxd: Server, cache: Cache)
    reads lxd`pools
  {
    StartGuard(w, c) && HasBase(w.clusters[c]) && PoolFound(lxd, cache, RecordOf(w, c))
  }

  lemma StartRefused(w: World, c: string, hostname: string)
    requires !StartGuard(w, c)
    ensures StartStep(w, c, hostname, Refused, w) && StartStep(w, c, hostname, Failed, w)
  {
  }

  lemma StartIsStep(w: World, c: string, hostname: string, r: Outcome, w': World)
    requires StartGuard(w, c) && r != Refused && (hostname == "" ==> r != Done) && Started(w, c, r, w')
    ensures StartStep(w, c, hostname, r, w')
  {
  }

  /** doStart once the record has been read. */
  method StartRecorded(lxd: Server, cache: Cache, c: string, state: ClusterState, hostname: string) returns (r: Outcome)
    requires OwnRecord(Snapshot(lxd, cache), c) && Recorded(Snapshot(lxd, cache), c) && RecordOf(Snapshot(lxd, cache), c) == state
    requires state.runState != Running
    modifies cache, lxd`instances, lxd`starts, lxd`faults, lxd`asked
    ensures StartStep(old(Snapshot(lxd, cache)), c, hostname, r, Snapshot(lxd, cache))
    ensures r == Done ==> c in cache.clusters && StartGuard(old(Snapshot(lxd, cache)), c)
    ensures r == Done ==> StartReported(cache.clusters[c], lxd.instances, old(lxd.starts), lxd.starts, state, lxd.reports, hostname,
                                        Faults(lxd, cache) == old(Faults(lxd, cache)))
    ensures Faults(lxd, cache) >= old(Faults(lxd, cache)) && old(lxd.asked) <= lxd.asked
    ensures StartGuard(old(Snapshot(lxd, cache)), c) && Faults(lxd, cache) == old(Faults(lxd, cache)) ==>
              AllRun(lxd.instances, state.containers)
    ensures StartGuard(old(Snapshot(lxd, cache)), c) && HasBase(old(cache.clusters)[c]) && PoolFound(lxd, cache, state) &&
            Faults(lxd, cache) == old(Faults(lxd, cache)) ==>
              r == Done || GaveUp(old(lxd.asked), lxd.asked, NameSet(state.containers), [hostname])
  {
    ghost var w := Snapshot(lxd, cache);
    StartFails(w, c, hostname);
    var ok := lxd.Connect();
    if !ok {
      return Failed;
    }
    r := CheckNoneRuns(lxd, state.containers);
    if r == Done {
      ghost var faults := Faults(lxd, cache);
      assert Snapshot(lxd, cache) == w;
      r := BringUp(lxd, cache, c, state, hostname);
      StartIsStep(w, c, hostname, r, Snapshot(lxd, cache));
      if r == Done {
        ReportedLess(cache.clusters[c], lxd.instances, w.starts, lxd.starts, state, lxd.reports, hostname,
                     Faults(lxd, cache) == faults, Faults(lxd, cache) == old(Faults(lxd, cache)));
      }
    } else if r == Refused {
      StartRefused(w, c, hostname);
    }
  }

  /** doStart */
  method DoStart(lxd: Server, cache: Cache, c: string, hostname: string) returns (r: Outcome)
    requires OwnRecord(Snapshot(lxd, cache), c)
    modifies cache, lxd`instances, lxd`starts, lxd`faults, lxd`asked
    ensures StartStep(old(Snapshot(lxd, cache)), c, hostname, r, Snapshot(lxd, cache))
    ensures r == Done ==> StartGuard(old(Snapshot(lxd, cache)), c) && c in cache.clusters &&
                          StartReported(cache.clusters[c], lxd.instances, old(lxd.starts), lxd.starts, RecordOf(old(Snapshot(lxd, cache)), c),
                                        lxd.reports, hostname, Faults(lxd, cache) == old(Faults(lxd, cache)))
    ensures Faults(lxd, cache) >= old(Faults(lxd, cache)) && old(lxd.asked) <= lxd.asked
    ensures StartGuard(old(Snapshot(lxd, cache)), c) && Faults(lxd, cache) == old(Faults(lxd, cache)) ==>
              AllRun(lxd.instances, RecordOf(old(Snapshot(lxd, cache)), c).containers)
    ensures CanStart(old(Snapshot(lxd, cache)), c, lxd, cache) && Faults(lxd, cache) == old(Faults(lxd, cache)) ==>
              r == Done || GaveUp(old(lxd.asked), lxd.asked, NameSet(RecordOf(old(Snapshot(lxd, cache)), c).containers), [hostname])
  {
    var read := cache.ReadRecord(c);
    if read.None? || read.value.runState == Running {
      StartRefused(Snapshot(lxd, cache), c, hostname);
      return Refused;
    }
    r := StartRecorded(lxd, cache, c, read.value, hostname);
  }

  /** start may fail before it changes anything. */
  lemma StartFails(w: World, c: string, hostname: string)
    requires Recorded(w, c)
    ensures StartStep(w, c, hostname, Failed, w)
  {
    assert w.clusters == w.clusters[c := w.clusters[c]];
    StaysRaised(w.instances, NameSet(RecordOf(w, c).containers));
    BaseSameSelf(w.clusters[c]);
    assert StartedTo(w, c, Failed, w, w.clusters[c]);
  }

  // ---- start-worker ----

  /** The new node's services are up, and were started after it had been told addresses reported for its peers. */
  ghost predicate WorkerServed(a: seq<ServiceStart>, b: seq<ServiceStart>, n: string, s: ClusterState, reports: set<(string, string)>,
                               clean: bool) {
    exists conf :: Reported(conf, s, reports) && NodeUp(a, b, For(conf, n), clean)
  }

  lemma WorkerServedLess(a: seq<ServiceStart>, b: seq<ServiceStart>, n: string, s: ClusterState, reports: set<(string, string)>,
                         clean1: bool, clean: bool)
    requires WorkerServed(a, b, n, s, reports, clean1) && (clean ==> clean1)
    ensures WorkerServed(a, b, n, s, reports, clean)
  {
    var conf :| Reported(conf, s, reports) && NodeUp(a, b, For(conf, n), clean1);
    CleanWholly(a, b, For(conf, n), clean1, clean);
  }

  /** The containers whose addresses start-worker waits for once it has the new one's. */
  function Peers(s: ClusterState): set<string> {
    {s.registry, s.controller, s.etcd}
  }

  /** Everything start-worker does between starting the container and writing the record. */
  method JoinWorker(lxd: Server, cache: Cache, c: string, state: ClusterState, container: string, hostname: string)
    returns (r: Outcome)
    requires c in cache.clusters && GoodName(container) && OwnedBy(container, c) && BaseSound(cache.clusters[c])
    requires FitsIn(lxd.instances, container, Worker) && container in lxd.instances
    modifies cache, lxd`instances, lxd`starts, lxd`faults, lxd`asked
    ensures Provisions(old(Snapshot(lxd, cache)), Snapshot(lxd, cache), c, {container}) && c in cache.clusters
    ensures r != Refused && (hostname == "" ==> r != Done)
    ensures r.Missing? ==> !HasStarted(old(cache.clusters)[c])
    ensures r == Done ==> WorkerJoined(cache.clusters[c], lxd.instances, container, state, lxd.reports)
    ensures Faults(lxd, cache) >= old(Faults(lxd, cache)) && old(lxd.asked) <= lxd.asked
    ensures r == Done ==> WorkerServed(old(lxd.starts), lxd.starts, container, state, lxd.reports,
                                       Faults(lxd, cache) == old(Faults(lxd, cache)))
    ensures Faults(lxd, cache) == old(Faults(lxd, cache)) ==>
              r == Done || r.Missing? || GaveUp(old(lxd.asked), lxd.asked, {container} + Peers(state), [hostname])
  {
    ghost var w0 := Snapshot(lxd, cache);
    r := CreateWorkerCert(lxd, cache, c, container, hostname);
    ghost var w1 := Snapshot(lxd, cache);
    ProvisionsMore(w0, w1, c, {}, {container});
    if r == Done {
      DirGrows(w0, w1, c, {});
      FitsKept(w0, w1, c, {}, container, Worker);
      WorkerCanJoin(w0.clusters[c], w1.clusters[c], ToLower(container));
      WorkerIsCertified(w0.clusters[c], w1.clusters[c], container, lxd.reports);
      r := WaitAndConfigure(lxd, cache, c, state, container, hostname, w0, old(Faults(lxd, cache)), old(lxd.asked));
    } else if GaveUp(old(lxd.asked), lxd.asked, {container}, [hostname]) {
      GaveUpWider(old(lxd.asked), old(lxd.asked), lxd.asked, lxd.asked, {container}, {container} + Peers(state), [hostname]);
    }
  }

  lemma WorkerIsCertified(d: ClusterDir, e: ClusterDir, container: string, reports: set<(string, string)>)
    requires BaseSound(d) && BaseSame(d, e) && exists ip :: (container, ip) in reports && NodeIssued(e, container, ip)
    ensures Certified(e, ToLower(container))
  {
    BaseStaysSound(d, e);
    var ip :| (container, ip) in reports && NodeIssued(e, container, ip);
    IssuedWithIsIssued(e, NodeIdentity(ToLower(container)), ip + "," + container);
  }

  /** start-worker once the new container has its certificate: wait for its peers, configure it. */
  method WaitAndConfigure(lxd: Server, cache: Cache, c: string, state: ClusterState, container: string, hostname: string,
                          ghost w0: World, ghost faults: nat, ghost asked: seq<Ask>)
    returns (r: Outcome)
    requires c in cache.clusters && GoodName(container) && Certified(cache.clusters[c], ToLower(container))
    requires FitsIn(lxd.instances, container, Worker) && container in lxd.instances
    requires Provisions(w0, Snapshot(lxd, cache), c, {container}) && lxd.starts == w0.starts
    requires c in w0.clusters && (HasStarted(w0.clusters[c]) ==> CanJoin(cache.clusters[c], ToLower(container)))
    requires Faults(lxd, cache) >= faults && asked <= lxd.asked
    modifies cache, lxd`instances, lxd`starts, lxd`faults, lxd`asked
    ensures Provisions(w0, Snapshot(lxd, cache), c, {container}) && c in cache.clusters
    ensures r != Refused
    ensures r.Missing? ==> !HasStarted(w0.clusters[c])
    ensures r == Done ==> WorkerJoined(cache.clusters[c], lxd.instances, container, state, lxd.reports)
    ensures Faults(lxd, cache) >= faults && asked <= lxd.asked
    ensures r == Done ==> WorkerServed(w0.starts, lxd.starts, container, state, lxd.reports, Faults(lxd, cache) == faults)
    ensures Faults(lxd, cache) == faults ==>
              r == Done || r.Missing? || GaveUp(asked, lxd.asked, {container} + Peers(state), [hostname])
  {
    ghost var asked1 := lxd.asked;
    var ok, registryIP, etcdIP, controllerIP := WaitAll(lxd, state, hostname);
    r := Failed;
    if ok {
      r := ConfigureNewWorker(lxd, cache, c, state, container, registryIP, etcdIP, controllerIP, w0, faults);
    } else {
      GaveUpWider(asked, asked1, lxd.asked, lxd.asked, Peers(state), {container} + Peers(state), [hostname]);
    }
  }

  /** What joining a new worker has done; the quantifier keeps provers from looking inside where they need not. */
  ghost predicate WorkerJoined(d: ClusterDir, m: map<string, Instance>, n: string, s: ClusterState, reports: set<(string, string)>) {
    forall x | x == n :: JoinedWorker(d, m, x, s, reports)
  }

  ghost predicate JoinedWorker(d: ClusterDir, m: map<string, Instance>, n: string, s: ClusterState, reports: set<(string, string)>) {
    Equipped(m, n) && CanJoin(d, ToLower(n)) && HasEtcdAddress(m, n, s.etcd, reports)
  }

  lemma WorkerJoinedOpens(d: ClusterDir, m: map<string, Instance>, n: string, s: ClusterState, reports: set<(string, string)>)
    requires WorkerJoined(d, m, n, s, reports)
    ensures JoinedWorker(d, m, n, s, reports)
  {
  }

  method ConfigureNewWorker(lxd: Server, cache: Cache, c: string, state: ClusterState, container: string,
                            registryIP: string, etcdIP: string, controllerIP: string, ghost w0: World, ghost faults: nat)
    returns (r: Outcome)
    requires c in cache.clusters && GoodName(container) && Certified(cache.clusters[c], ToLower(container))
    requires FitsIn(lxd.instances, container, Worker) && container in lxd.instances
    requires Provisions(w0, Snapshot(lxd, cache), c, {container}) && lxd.starts == w0.starts && Faults(lxd, cache) >= faults
    requires c in w0.clusters && (HasStarted(w0.clusters[c]) ==> CanJoin(cache.clusters[c], ToLower(container)))
    requires (state.registry, registryIP) in lxd.reports && (state.etcd, etcdIP) in lxd.reports
    requires (state.controller, controllerIP) in lxd.reports
    modifies cache, lxd`instances, lxd`starts, lxd`faults
    ensures Provisions(w0, Snapshot(lxd, cache), c, {container}) && c in cache.clusters
    ensures r != Refused
    ensures r.Missing? ==> !HasStarted(w0.clusters[c])
    ensures r == Done ==> WorkerJoined(cache.clusters[c], lxd.instances, container, state, lxd.reports)
    ensures Faults(lxd, cache) >= faults
    ensures r == Done ==> WorkerServed(w0.starts, lxd.starts, container, state, lxd.reports, Faults(lxd, cache) == faults)
    ensures Faults(lxd, cache) == faults ==> r == Done || r.Missing?
  {
    ghost var w1, faults1 := Snapshot(lxd, cache), Faults(lxd, cache);
    var conf := WorkerConfig(container, controllerIP, state.registry, registryIP, etcdIP);
    r := ConfigureWorker(lxd, cache, c, conf);
    ProvisionsTwice(w0, w1, Snapshot(lxd, cache), c, {container});
    if r == Done {
      assert HasReported(lxd.instances, container, state.etcd, lxd.reports, etcdIP);
      assert JoinedWorker(cache.clusters[c], lxd.instances, container, state, lxd.reports);
      UpNow(w0.starts, lxd.starts, conf, Faults(lxd, cache) == faults1);
      assert For(conf, container) == conf && Reported(conf, state, lxd.reports);
      WorkerServedLess(w0.starts, lxd.starts, container, state, lxd.reports, Faults(lxd, cache) == faults1, Faults(lxd, cache) == faults);
    }
  }

  /** Wait for the addresses of the registry, the controller and etcd, in that order. */
  method WaitAll(lxd: Server, state: ClusterState, hostname: string)
    returns (ok: bool, registryIP: string, etcdIP: string, controllerIP: string)
    modifies lxd`faults, lxd`asked
    ensures ok ==> state.registry in lxd.instances && state.controller in lxd.instances && state.etcd in lxd.instances
    ensures ok ==> (state.registry, registryIP) in lxd.reports && (state.etcd, etcdIP) in lxd.reports
    ensures ok ==> (state.controller, controllerIP) in lxd.reports
    ensures lxd.faults >= old(lxd.faults) && old(lxd.asked) <= lxd.asked
    ensures !ok ==> GaveUp(old(lxd.asked), lxd.asked, Peers(state), [hostname])
  {
    ok, registryIP, etcdIP, controllerIP := false, "", "", "";
    ghost var asked := lxd.asked;
    var registry := WaitContainerIP(lxd, state.registry, [hostname]);
    if registry.None? {
      WaitedInVain(asked, lxd.asked, state.registry, Peers(state), [hostname]);
      return;
    }
    ghost var asked1 := lxd.asked;
    var controller := WaitContainerIP(lxd, state.controller, [hostname]);
    if controller.None? {
      WaitedInVain(asked1, lxd.asked, state.controller, Peers(state), [hostname]);
      GaveUpWider(asked, asked1, lxd.asked, lxd.asked, Peers(state), Peers(state), [hostname]);
      return;
    }
    ghost var asked2 := lxd.asked;
    var etcd := WaitContainerIP(lxd, state.etcd, [hostname]);
    if etcd.Some? {
      ok, registryIP, etcdIP, controllerIP := true, registry.value, etcd.value, controller.value;
    } else {
      WaitedInVain(asked2, lxd.asked, state.etcd, Peers(state), [hostname]);
      GaveUpWider(asked, asked2, lxd.asked, lxd.asked, Peers(state), Peers(state), [hostname]);
    }
  }

  /** After a full start a new worker needs only its own certificate. */
  lemma WorkerCanJoin(d: ClusterDir, e: ClusterDir, node: string)
    requires FilesGrow(d, e) && HasPair(e, node)
    ensures HasStarted(d) ==> CanJoin(e, node)
  {
  }

  /** Creating, perhaps starting and perhaps provisioning one container, seen together. */
  lemma WorkerEnds(w: World, w1: World, w2: World, w3: World, c: string, s: ClusterState, n: string, r: Outcome)
    requires Recorded(w, c) && RecordOf(w, c) == s
    requires w1 == w.(instances := w1.instances)
    requires AddsContainer(w.instances, w1.instances, n, c, Worker, s.storagePool, s.networkID)
    requires w2 == w.(instances := w2.instances)
    requires w2.instances == w1.instances || w2.instances == Flagged(w1.instances, n, true)
    requires Provisions(w2, w3, c, {n}) && r != Done && (r.Missing? ==> !HasStarted(w.clusters[c]))
    ensures c in w3.clusters && WorkerAdded(w, c, r, w3, n, w3.clusters[c])
  {
    var d :| ProvisionsTo(w2, w3, c, {n}, d);
    CreatedSettles(w1.instances[n], w2.instances[n], w3.instances[n], n, s.storagePool, s.networkID);
    assert w3.instances == w.instances[n := w3.instances[n]];
    assert w3.clusters[c] == d && FilesKept(w.clusters[c], d);
  }

  /** A new worker that was started and provisioned is as it was created but for that. */
  lemma CreatedSettles(i: Instance, j: Instance, k: Instance, n: string, pool: string, network: string)
    requires AsCreated(i, n, Worker, pool, network) && j == i.(running := j.running) && TreeOnly(j, k)
    ensures AsCreated(k.(running := false, devices := map[]), n, Worker, pool, network)
  {
    FitsOpens(i.tree, Worker);
    HasAllKept(i.tree, k.tree, RoleFiles(Worker));
    assert RoleFits(k.tree, Worker);
  }

  lemma WorkerSucceeds(w: World, w3: World, w4: World, c: string, s: ClusterState, n: string)
    requires Recorded(w, c) && RecordOf(w, c) == s
    requires c in w3.clusters && WorkerAdded(w, c, Failed, w3, n, w3.clusters[c]) && w3.instances[n].running
    requires Equipped(w3.instances, n) && CanJoin(w3.clusters[c], ToLower(n))
    requires w4 == w3.(clusters := w3.clusters[c := w3.clusters[c].(record := Some(s.(containers := s.containers + [n], workers := s.workers + [n])))])
    ensures WorkerAdded(w, c, Done, w4, n, w4.clusters[c])
  {
    RecordKeepsBase(w.clusters[c], w3.clusters[c], w4.clusters[c]);
  }

  /** start-worker once its container is made. */
  method StartNewWorker(lxd: Server, cache: Cache, c: string, state: ClusterState, container: string, hostname: string, ghost w: World)
    returns (r: Outcome)
    requires Recorded(w, c) && RecordOf(w, c) == state && GoodName(container) && BaseSound(w.clusters[c])
    requires Snapshot(lxd, cache) == w.(instances := lxd.instances)
    requires AddsContainer(w.instances, lxd.instances, container, c, Worker, state.storagePool, state.networkID)
    modifies cache, lxd`instances, lxd`starts, lxd`faults, lxd`asked
    ensures c in cache.clusters && WorkerAdded(w, c, r, Snapshot(lxd, cache), container, cache.clusters[c])
    ensures r != Refused && (hostname == "" ==> r != Done)
    ensures Faults(lxd, cache) >= old(Faults(lxd, cache)) && old(lxd.asked) <= lxd.asked
    ensures r == Done ==> HasEtcdAddress(lxd.instances, container, state.etcd, lxd.reports) &&
                          WorkerServed(w.starts, lxd.starts, container, state, lxd.reports, Faults(lxd, cache) == old(Faults(lxd, cache)))
    ensures Faults(lxd, cache) == old(Faults(lxd, cache)) ==>
              r == Done || r.Missing? || GaveUp(old(lxd.asked), lxd.asked, {container} + Peers(state), [hostname])
  {
    ghost var w1 := Snapshot(lxd, cache);
    r := Failed;
    var ok := StartContainer(lxd, container);
    ghost var w2 := Snapshot(lxd, cache);
    ProvisionsNothing(w2, c, {container});
    if ok {
      ghost var faults := Faults(lxd, cache);
      assert OwnedBy(container, c);
      r := JoinWorker(lxd, cache, c, state, container, hostname);
      if r == Done {
        WorkerJoinedOpens(cache.clusters[c], lxd.instances, container, state, lxd.reports);
        WorkerServedLess(w2.starts, lxd.starts, container, state, lxd.reports, Faults(lxd, cache) == faults,
                         Faults(lxd, cache) == old(Faults(lxd, cache)));
      }
    }
    ghost var w3 := Snapshot(lxd, cache);
    WorkerEnds(w, w1, w2, w3, c, state, container, if r == Done then Failed else r);
    if r == Done {
      r := RecordWorker(lxd, cache, c, state, container, w, w2, w3, old(Faults(lxd, cache)));
    }
  }

  /** Write the record with the new worker in both lists. */
  method RecordWorker(lxd: Server, cache: Cache, c: string, state: ClusterState, container: string,
                      ghost w: World, ghost w2: World, ghost w3: World, ghost faults: nat)
    returns (r: Outcome)
    requires Recorded(w, c) && RecordOf(w, c) == state && w3 == Snapshot(lxd, cache) && Provisions(w2, w3, c, {container})
    requires container in w2.instances && w2.instances[container].running
    requires c in w3.clusters && WorkerAdded(w, c, Failed, w3, container, w3.clusters[c])
    requires Equipped(w3.instances, container) && CanJoin(w3.clusters[c], ToLower(container)) && Faults(lxd, cache) >= faults
    requires WorkerServed(w.starts, w3.starts, container, state, lxd.reports, Faults(lxd, cache) == faults)
    modifies cache
    ensures c in cache.clusters && WorkerAdded(w, c, r, Snapshot(lxd, cache), container, cache.clusters[c])
    ensures r == Done || r == Failed
    ensures Faults(lxd, cache) >= faults && (Faults(lxd, cache) == faults ==> r == Done)
    ensures WorkerServed(w.starts, lxd.starts, container, state, lxd.reports, Faults(lxd, cache) == faults)
  {
    WorkerServedLess(w.starts, w3.starts, container, state, lxd.reports, Faults(lxd, cache) == faults, false);
    StillRuns(w2, w3, c, container);
    var containers, workers := state.containers + [container], state.workers + [container];
    var ok := cache.WriteRecord(c, state.(containers := containers, workers := workers));
    r := if ok then Done else Failed;
    if ok {
      WorkerSucceeds(w, w3, Snapshot(lxd, cache), c, state, container);
    }
  }

  lemma StillRuns(w: World, w': World, c: string, n: string)
    requires Provisions(w, w', c, {n}) && n in w.instances && w.instances[n].running
    ensures n in w'.instances && w'.instances[n].running
  {
  }

  /** Nothing but a failed call, a name already taken or an address never reported stands in the way of adding a worker. */
  ghost predicate CanAddWorker(w: World, c: string, lxd: Server)
    reads lxd`networks, lxd`pools, lxd`profiles
  {
    && WorkerGuard(w, c) && HasStarted(w.clusters[c]) && RecordOf(w, c).name == c
    && CanMake(lxd, Worker, RecordOf(w, c).storagePool, RecordOf(w, c).networkID)
  }

  /** The worker added is up, and knows etcd and the registry by addresses reported for them. */
  ghost predicate WorkerReported(w: World, w': World, s: ClusterState, reports: set<(string, string)>, clean: bool) {
    exists n :: n !in w.instances && WorkerReportedAt(w, w', s, reports, clean, n)
  }

  ghost predicate WorkerReportedAt(w: World, w': World, s: ClusterState, reports: set<(string, string)>, clean: bool, n: string) {
    HasEtcdAddress(w'.instances, n, s.etcd, reports) && WorkerServed(w.starts, w'.starts, n, s, reports, clean)
  }

  /** doStartWorker */
  method DoStartWorker(lxd: Server, cache: Cache, c: string, hostname: string) returns (r: Outcome)
    requires OwnRecord(Snapshot(lxd, cache), c)
    modifies cache, lxd`instances, lxd`starts, lxd`faults, lxd`asked, lxd`collisions
    ensures StartWorkerStep(old(Snapshot(lxd, cache)), c, hostname, r, Snapshot(lxd, cache))
    ensures Faults(lxd, cache) >= old(Faults(lxd, cache)) && old(lxd.asked) <= lxd.asked && lxd.collisions >= old(lxd.collisions)
    ensures r == Done ==> WorkerGuard(old(Snapshot(lxd, cache)), c) &&
                          WorkerReported(old(Snapshot(lxd, cache)), Snapshot(lxd, cache), RecordOf(old(Snapshot(lxd, cache)), c), lxd.reports,
                                         Faults(lxd, cache) == old(Faults(lxd, cache)))
    ensures CanAddWorker(old(Snapshot(lxd, cache)), c, lxd) && Faults(lxd, cache) == old(Faults(lxd, cache)) &&
            lxd.collisions == old(lxd.collisions) ==>
              r == Done || GaveUp(old(lxd.asked), lxd.asked,
                                  Peers(RecordOf(old(Snapshot(lxd, cache)), c)) + (lxd.instances.Keys - old(lxd.instances).Keys), [hostname])
  {
    var read := cache.ReadRecord(c);
    if read.None? || read.value.runState != Running {
      return Refused;
    }
    r := AddWorker(lxd, cache, c, read.value, hostname);
  }

  lemma WorkerIsStep(w: World, c: string, hostname: string, r: Outcome, w': World, n: string)
    requires WorkerGuard(w, c) && r != Refused && (hostname == "" ==> r != Done)
    requires c in w'.clusters && WorkerAdded(w, c, r, w', n, w'.clusters[c])
    ensures StartWorkerStep(w, c, hostname, r, w')
  {
  }

  /** The create failed; if it had an effect nonetheless the container stays. */
  lemma UnmadeIsStep(w: World, w': World, c: string, hostname: string)
    requires WorkerGuard(w, c) && w' == w.(instances := w'.instances)
    requires w'.instances == w.instances ||
             exists n :: AddsContainer(w.instances, w'.instances, n, c, Worker, RecordOf(w, c).storagePool, RecordOf(w, c).networkID)
    ensures StartWorkerStep(w, c, hostname, Failed, w')
  {
    if w'.instances != w.instances {
      var n :| AddsContainer(w.instances, w'.instances, n, c, Worker, RecordOf(w, c).storagePool, RecordOf(w, c).networkID);
      OrphanWorker(w, w', c, n);
    }
  }

  /** doStartWorker once the record has been read. */
  method AddWorker(lxd: Server, cache: Cache, c: string, state: ClusterState, hostname: string) returns (r: Outcome)
    requires OwnRecord(Snapshot(lxd, cache), c) && WorkerGuard(Snapshot(lxd, cache), c) && RecordOf(Snapshot(lxd, cache), c) == state
    modifies cache, lxd`instances, lxd`starts, lxd`faults, lxd`asked, lxd`collisions
    ensures StartWorkerStep(old(Snapshot(lxd, cache)), c, hostname, r, Snapshot(lxd, cache))
    ensures Faults(lxd, cache) >= old(Faults(lxd, cache)) && old(lxd.asked) <= lxd.asked && lxd.collisions >= old(lxd.collisions)
    ensures r == Done ==> WorkerReported(old(Snapshot(lxd, cache)), Snapshot(lxd, cache), state, lxd.reports,
                                         Faults(lxd, cache) == old(Faults(lxd, cache)))
    ensures CanMake(lxd, Worker, state.storagePool, state.networkID) && HasStarted(old(cache.clusters)[c]) &&
            Faults(lxd, cache) == old(Faults(lxd, cache)) && lxd.collisions == old(lxd.collisions) ==>
              r == Done || GaveUp(old(lxd.asked), lxd.asked, Peers(state) + (lxd.instances.Keys - old(lxd.instances).Keys), [hostname])
  {
    ghost var w := Snapshot(lxd, cache);
    r := Failed;
    var made := MakeWorker(lxd, cache, c, state, hostname);
    if made.Some? {
      r := FinishWorker(lxd, cache, c, state, made.value, hostname, w, old(Faults(lxd, cache)));
      WorkerIsStep(w, c, hostname, r, Snapshot(lxd, cache), made.value);
    }
  }

  /** Connect to LXD and create the new worker's container. */
  method MakeWorker(lxd: Server, cache: Cache, c: string, state: ClusterState, ghost hostname: string) returns (made: Option<string>)
    requires OwnRecord(Snapshot(lxd, cache), c) && WorkerGuard(Snapshot(lxd, cache), c) && RecordOf(Snapshot(lxd, cache), c) == state
    modifies lxd`instances, lxd`faults, lxd`collisions
    ensures Snapshot(lxd, cache) == old(Snapshot(lxd, cache)).(instances := lxd.instances)
    ensures made.Some? ==>
              AddsContainer(old(lxd.instances), lxd.instances, made.value, c, Worker, state.storagePool, state.networkID)
    ensures made.None? ==> StartWorkerStep(old(Snapshot(lxd, cache)), c, hostname, Failed, Snapshot(lxd, cache))
    ensures lxd.faults >= old(lxd.faults) && lxd.collisions >= old(lxd.collisions)
    ensures lxd.faults == old(lxd.faults) && lxd.collisions == old(lxd.collisions) ==>
              CanMake(lxd, Worker, state.storagePool, state.networkID) ==> made.Some?
  {
    made := None;
    var ok := lxd.Connect();
    if ok {
      made := CreateContainer(lxd, Worker, state.name, state.storagePool, state.networkID);
    }
    if made.None? {
      UnmadeIsStep(old(Snapshot(lxd, cache)), Snapshot(lxd, cache), c, hostname);
    }
  }

  /** start-worker once its container is made, as far as the whole command is concerned. */
  method FinishWorker(lxd: Server, cache: Cache, c: string, state: ClusterState, container: string, hostname: string,
                      ghost w: World, ghost faults: nat)
    returns (r: Outcome)
    requires OwnRecord(w, c) && Recorded(w, c) && RecordOf(w, c) == state
    requires Snapshot(lxd, cache) == w.(instances := lxd.instances) && Faults(lxd, cache) >= faults
    requires AddsContainer(w.instances, lxd.instances, container, c, Worker, state.storagePool, state.networkID)
    modifies cache, lxd`instances, lxd`starts, lxd`faults, lxd`asked
    ensures c in cache.clusters && WorkerAdded(w, c, r, Snapshot(lxd, cache), container, cache.clusters[c])
    ensures r != Refused && (hostname == "" ==> r != Done) && (r.Missing? ==> !HasStarted(w.clusters[c]))
    ensures Faults(lxd, cache) >= faults && old(lxd.asked) <= lxd.asked
    ensures r == Done ==> WorkerReported(w, Snapshot(lxd, cache), state, lxd.reports, Faults(lxd, cache) == faults)
    ensures Faults(lxd, cache) == faults ==>
              r == Done || r.Missing? || GaveUp(old(lxd.asked), lxd.asked, Peers(state) + (lxd.instances.Keys - w.instances.Keys), [hostname])
  {
    ghost var faults1, all := Faults(lxd, cache), {container} + Peers(state);
    WorkerNameIsGood(container, c);
    r := StartNewWorker(lxd, cache, c, state, container, hostname, w);
    if r == Done {
      WorkerServedLess(w.starts, lxd.starts, container, state, lxd.reports, Faults(lxd, cache) == faults1, Faults(lxd, cache) == faults);
      assert WorkerReportedAt(w, Snapshot(lxd, cache), state, lxd.reports, Faults(lxd, cache) == faults, container);
    } else if GaveUp(old(lxd.asked), lxd.asked, all, [hostname]) {
      GaveUpWider(old(lxd.asked), old(lxd.asked), lxd.asked, lxd.asked, all, Peers(state) + (lxd.instances.Keys - w.instances.Keys), [hostname]);
    }
  }

  lemma WorkerNameIsGood(n: string, c: string)
    requires ClusterName(c) && NamedFor(n, c, Worker)
    ensures GoodName(n)
  {
    assert OwnedBy(n, c);
    OwnedIsGood(n, c);
  }

  /** A create whose reply was lost leaves a container that is not recorded. */
  lemma OrphanWorker(w: World, w': World, c: string, n: string)
    requires WorkerGuard(w, c) && w' == w.(instances := w'.instances)
    requires AddsContainer(w.instances, w'.instances, n, c, Worker, RecordOf(w, c).storagePool, RecordOf(w, c).networkID)
    ensures WorkerAdded(w, c, Failed, w', n, w.clusters[c])
  {
    BaseSameSelf(w.clusters[c]);
    assert w'.instances[n].(running := false, devices := map[]) == w'.instances[n];
  }
}
