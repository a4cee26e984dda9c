/**
  What every command keeps: records stay their cluster's own, other clusters'
  directories and instances are not touched, services start ready.
 */
module Isolation {
  import opened Text
  import opened Names
  import opened Worlds
  import opened Containers
  import opened Provision
  import opened Startup
  import opened Steps
  import opened Commands

  /** Every record is its own cluster's. */
  ghost predicate Sound(w: World) {
    forall c | c in w.clusters :: OwnRecord(w, c)
  }

  /** The same instance, or none, under a name. */
  ghost predicate SameAt(m: map<string, Instance>, m': map<string, Instance>, n: string) {
    (n in m <==> n in m') && (n in m ==> m'[n] == m[n])
  }

  /** Nothing that belongs to the cluster changed: not its directory, not an instance with a name of its own. */
  ghost predicate SameFor(w: World, w': World, c: string) {
    && (c in w.clusters <==> c in w'.clusters)
    && (c in w.clusters ==> w'.clusters[c] == w.clusters[c])
    && forall n | OwnedBy(n, c) :: SameAt(w.instances, w'.instances, n)
  }

  /** Only instances with a name of the cluster's own changed. */
  ghost predicate OnlyOwn(m: map<string, Instance>, m': map<string, Instance>, c: string) {
    forall n | !OwnedBy(n, c) :: SameAt(m, m', n)
  }

  /** Only this cluster's directory changed. */
  ghost predicate OnlyDirectory(w: World, w': World, c: string) {
    forall b | b != c :: (b in w.clusters <==> b in w'.clusters) && (b in w.clusters ==> w'.clusters[b] == w.clusters[b])
  }

  lemma RecordedAreOwned(s: ClusterState, c: string)
    requires RecordFor(s, c)
    ensures forall n | n in s.containers :: OwnedBy(n, c)
  {
    Listed(s, c);
    forall n | n in s.containers
      ensures OwnedBy(n, c)
    {
      assert n in Roles(s);
      assert NamedFor(n, c, Etcd) || NamedFor(n, c, Controller) || NamedFor(n, c, Registry) || NamedFor(n, c, Worker);
    }
  }

  lemma NewAreOwned(m: map<string, Instance>, m': map<string, Instance>, c: string, pool: string, network: string)
    requires OldKept(m, m') && NewOwned(m, m', c, pool, network)
    ensures OnlyOwn(m, m', c)
  {
  }

  lemma MadeAreOwned(m: map<string, Instance>, m': map<string, Instance>, c: string, s: ClusterState)
    requires MadeAs(m, m', c, s) && RecordFor(s, c)
    ensures OnlyOwn(m, m', c)
  {
    RecordedAreOwned(s, c);
    assert forall n | n in m' && n !in m :: n in NameSet(s.containers);
  }

  /** A command on one cluster changes only that cluster's directory and instances with its names. */
  lemma StepIsolated(w: World, a: Action, r: Outcome, w': World)
    requires Sound(w) && Step(w, a, r, w')
    ensures OnlyDirectory(w, w', a.c) && OnlyOwn(w.instances, w'.instances, a.c)
  {
    match a
    case Create(c, o) => CreateIsolated(w, c, o, r, w');
    case Start(c, hostname) => StartIsolated(w, c, hostname, r, w');
    case Stop(c) => StopIsolated(w, c, r, w');
    case StartWorker(c, hostname) => StartWorkerIsolated(w, c, hostname, r, w');
    case Delete(c, storage, network) => DeleteIsolated(w, c, storage, network, r, w');
  }

  lemma CreateIsolated(w: World, c: string, o: Options, r: Outcome, w': World)
    requires CreateStep(w, c, o, r, w')
    ensures OnlyDirectory(w, w', c) && OnlyOwn(w.instances, w'.instances, c)
  {
    if c !in w.clusters {
      if CreateAborted(w, c, o, w') {
        NewAreOwned(w.instances, w'.instances, c, PoolOf(c, o), NetworkOf(c, o));
      } else {
        var s :| CreateMade(w, c, o, w', s);
        MadeAreOwned(w.instances, w'.instances, c, s);
      }
    }
  }

  lemma StartIsolated(w: World, c: string, hostname: string, r: Outcome, w': World)
    requires Sound(w) && StartStep(w, c, hostname, r, w')
    ensures OnlyDirectory(w, w', c) && OnlyOwn(w.instances, w'.instances, c)
  {
    if StartGuard(w, c) {
      var d :| StartedTo(w, c, r, w', d);
      RecordedAreOwned(RecordOf(w, c), c);
    }
  }

  lemma StopIsolated(w: World, c: string, r: Outcome, w': World)
    requires Sound(w) && StopStep(w, c, r, w')
    ensures OnlyDirectory(w, w', c) && OnlyOwn(w.instances, w'.instances, c)
  {
    if StopGuard(w, c) {
      RecordedAreOwned(RecordOf(w, c), c);
    }
  }

  lemma StartWorkerIsolated(w: World, c: string, hostname: string, r: Outcome, w': World)
    requires StartWorkerStep(w, c, hostname, r, w')
    ensures OnlyDirectory(w, w', c) && OnlyOwn(w.instances, w'.instances, c)
  {
  }

  lemma DeleteIsolated(w: World, c: string, storage: bool, network: bool, r: Outcome, w': World)
    requires Sound(w) && DeleteStep(w, c, storage, network, r, w')
    ensures OnlyDirectory(w, w', c) && OnlyOwn(w.instances, w'.instances, c)
  {
    if Recorded(w, c) {
      RecordedAreOwned(RecordOf(w, c), c);
    }
  }

  // ---- records ----

  /** The new worker is in both lists, so the roles still add up. */
  lemma GrownRecord(s: ClusterState, c: string, n: string)
    requires RecordFor(s, c) && NamedFor(n, c, Worker)
    ensures RecordFor(s.(containers := s.containers + [n], workers := s.workers + [n]), c)
  {
  }

  /** Every command leaves its cluster with a record of its own, or none. */
  lemma RecordStaysOwn(w: World, a: Action, r: Outcome, w': World)
    requires Sound(w) && Step(w, a, r, w') && Recorded(w', a.c)
    ensures RecordFor(RecordOf(w', a.c), a.c)
  {
    assert a.c in w.clusters ==> OwnRecord(w, a.c);
    match a
    case Create(c, o) => CreateRecord(w, c, o, r, w');
    case Start(c, hostname) =>
      if StartGuard(w, c) {
        StartRecord(w, c, r, w');
      }
    case Stop(c) => StopRecord(w, c, r, w');
    case StartWorker(c, hostname) => WorkerRecord(w, c, hostname, r, w');
    case Delete(c, storage, network) => DeleteRecord(w, c, storage, network, r, w');
  }

  lemma CreateRecord(w: World, c: string, o: Options, r: Outcome, w': World)
    requires CreateStep(w, c, o, r, w') && Recorded(w', c) && (Recorded(w, c) ==> RecordFor(RecordOf(w, c), c))
    ensures RecordFor(RecordOf(w', c), c)
  {
  }

  lemma StopRecord(w: World, c: string, r: Outcome, w': World)
    requires StopStep(w, c, r, w') && Recorded(w', c) && (Recorded(w, c) ==> RecordFor(RecordOf(w, c), c))
    ensures RecordFor(RecordOf(w', c), c)
  {
  }

  lemma WorkerRecord(w: World, c: string, hostname: string, r: Outcome, w': World)
    requires StartWorkerStep(w, c, hostname, r, w') && Recorded(w', c) && (Recorded(w, c) ==> RecordFor(RecordOf(w, c), c))
    ensures RecordFor(RecordOf(w', c), c)
  {
    if WorkerGuard(w, c) && w' != w {
      var n, d :| WorkerAdded(w, c, r, w', n, d);
      GrownRecord(RecordOf(w, c), c, n);
    }
  }

  lemma DeleteRecord(w: World, c: string, storage: bool, network: bool, r: Outcome, w': World)
    requires DeleteStep(w, c, storage, network, r, w') && Recorded(w', c)
    requires Recorded(w, c) ==> RecordFor(RecordOf(w, c), c)
    ensures RecordFor(RecordOf(w', c), c)
  {
  }

  lemma StartRecord(w: World, c: string, r: Outcome, w': World)
    requires Recorded(w, c) && RecordFor(RecordOf(w, c), c) && exists d :: StartedTo(w, c, r, w', d)
    ensures Recorded(w', c) && RecordFor(RecordOf(w', c), c)
  {
    var d :| StartedTo(w, c, r, w', d);
    assert Roles(RecordOf(w', c)) == Roles(RecordOf(w, c));
  }

  // ---- images ----

  lemma NewFits(m: map<string, Instance>, m': map<string, Instance>, n: string, c: string, image: Image, pool: string, network: string)
    requires NewContainer(m, m', n, c, image, pool, network)
    ensures FitsIn(m', n, image)
  {
  }

  lemma CreateFits(w: World, c: string, o: Options, w': World, s: ClusterState)
    requires CreateMade(w, c, o, w', s)
    ensures RolesFit(w'.instances, s)
  {
    NewFits(w.instances, w'.instances, s.etcd, c, Etcd, s.storagePool, s.networkID);
    NewFits(w.instances, w'.instances, s.controller, c, Controller, s.storagePool, s.networkID);
    NewFits(w.instances, w'.instances, s.registry, c, Registry, s.storagePool, s.networkID);
    forall i | 0 <= i < |s.workers|
      ensures FitsIn(w'.instances, s.workers[i], Worker)
    {
      NewFits(w.instances, w'.instances, s.workers[i], c, Worker, s.storagePool, s.networkID);
    }
  }

  lemma StartFits(w: World, c: string, r: Outcome, w': World, d: ClusterDir)
    requires Recorded(w, c) && StartedTo(w, c, r, w', d) && RolesFit(w.instances, RecordOf(w, c))
    ensures Recorded(w', c) && RolesFit(w'.instances, RecordOf(w', c))
  {
    RaisedFits(w.instances, w'.instances, NameSet(RecordOf(w, c).containers), RecordOf(w, c));
  }

  /** Every tree is as it was, or its instance is gone. */
  ghost predicate TreesSame(m: map<string, Instance>, m': map<string, Instance>) {
    forall n | n in m' :: n in m && m'[n].tree == m[n].tree
  }

  lemma SameTreesFit(m: map<string, Instance>, m': map<string, Instance>, s: ClusterState)
    requires TreesSame(m, m') && RolesFit(m, s)
    ensures RolesFit(m', s)
  {
  }

  lemma LoweredSame(m: map<string, Instance>, m': map<string, Instance>, names: set<string>)
    requires Removed(m, m', names) || Lowered(m, m', names)
    ensures TreesSame(m, m')
  {
    forall n | n in m'
      ensures n in m && m'[n].tree == m[n].tree
    {
      assert n in m;
      assert n in names ==> LoweredOne(m[n], m'[n]);
    }
  }

  lemma StopFits(w: World, c: string, r: Outcome, w': World)
    requires StopStep(w, c, r, w') && Recorded(w, c) && RolesFit(w.instances, RecordOf(w, c))
    ensures Recorded(w', c) && RolesFit(w'.instances, RecordOf(w', c))
  {
    if StopGuard(w, c) {
      LoweredSame(w.instances, w'.instances, NameSet(RecordOf(w, c).containers));
      SameTreesFit(w.instances, w'.instances, RecordOf(w, c));
    }
  }

  /** A container of another role is not the new worker. */
  lemma OtherFits(w: World, c: string, r: Outcome, w': World, n: string, d: ClusterDir, x: string, image: Image)
    requires Recorded(w, c) && WorkerAdded(w, c, r, w', n, d) && NamedFor(x, c, image) && FitsIn(w.instances, x, image)
    ensures FitsIn(w'.instances, x, image)
  {
    if x == n {
      OneOwner(n, c, Worker, c, image);
      assert w'.instances[n].(running := false, devices := map[]).tree == w'.instances[n].tree;
    }
  }

  lemma WorkerFits(w: World, c: string, r: Outcome, w': World, n: string, d: ClusterDir)
    requires Recorded(w, c) && WorkerAdded(w, c, r, w', n, d)
    requires RecordFor(RecordOf(w, c), c) && RolesFit(w.instances, RecordOf(w, c))
    ensures Recorded(w', c) && RolesFit(w'.instances, RecordOf(w', c))
  {
    var s, s' := RecordOf(w, c), RecordOf(w', c);
    OtherFits(w, c, r, w', n, d, s.etcd, Etcd);
    OtherFits(w, c, r, w', n, d, s.controller, Controller);
    OtherFits(w, c, r, w', n, d, s.registry, Registry);
    forall i | 0 <= i < |s'.workers|
      ensures FitsIn(w'.instances, s'.workers[i], Worker)
    {
      if i < |s.workers| {
        OtherFits(w, c, r, w', n, d, s.workers[i], Worker);
      } else {
        assert s'.workers[i] == n && n !in w.instances;
        OtherFits(w, c, r, w', n, d, n, Worker);
      }
    }
  }

  lemma DeleteFits(w: World, c: string, storage: bool, network: bool, w': World)
    requires Recorded(w, c) && DeletedPart(w, c, storage, network, w') && RolesFit(w.instances, RecordOf(w, c))
    ensures Recorded(w', c) ==> RolesFit(w'.instances, RecordOf(w', c))
  {
    LoweredSame(w.instances, w'.instances, NameSet(RecordOf(w, c).containers));
    SameTreesFit(w.instances, w'.instances, RecordOf(w, c));
  }

  /** The roles' containers keep what their images bring, and room. */
  lemma RolesStayFit(w: World, a: Action, r: Outcome, w': World)
    requires Sound(w) && Step(w, a, r, w') && Recorded(w', a.c)
    ensures RolesFit(w'.instances, RecordOf(w', a.c))
  {
    assert a.c in w.clusters ==> OwnRecord(w, a.c);
    match a
    case Create(c, o) =>
      if c !in w.clusters {
        var s :| CreateMade(w, c, o, w', s);
        CreateFits(w, c, o, w', s);
      }
    case Start(c, hostname) =>
      if StartGuard(w, c) {
        var d :| StartedTo(w, c, r, w', d);
        StartFits(w, c, r, w', d);
      }
    case Stop(c) =>
      if Recorded(w, c) {
        StopFits(w, c, r, w');
      }
    case StartWorker(c, hostname) =>
      if WorkerGuard(w, c) && w' != w {
        var n, d :| WorkerAdded(w, c, r, w', n, d);
        WorkerFits(w, c, r, w', n, d);
      }
    case Delete(c, storage, network) =>
      if Recorded(w, c) {
        DeleteFits(w, c, storage, network, w');
      }
  }

  // ---- certificates ----

  lemma KeptStaysSound(d: ClusterDir, e: ClusterDir)
    requires BaseSound(d) && FilesKept(d, e)
    ensures BaseSound(e)
  {
    BaseStaysSound(d, e);
  }

  /** What is left of a directory is as it was. */
  lemma RemnantStaysSound(d: ClusterDir, e: ClusterDir)
    requires BaseSound(d) && RemnantOf(d, e)
    ensures BaseSound(e)
  {
    forall i | 0 <= i < |BASE_IDENTITIES| && HasChain(e, BASE_IDENTITIES[i])
      ensures Issued(e, BASE_IDENTITIES[i])
    {
      BaseSays(d, i);
      IssuedStays(d, e, BASE_IDENTITIES[i]);
    }
    assert BaseIssued(e);
  }

  lemma StopStaysSound(w: World, c: string, r: Outcome, w': World)
    requires StopStep(w, c, r, w') && Recorded(w, c) && BaseSound(w.clusters[c])
    ensures c in w'.clusters && BaseSound(w'.clusters[c])
  {
    BaseSameSelf(w.clusters[c]);
    RecordKeepsBase(w.clusters[c], w.clusters[c], w'.clusters[c]);
    BaseStaysSound(w.clusters[c], w'.clusters[c]);
  }

  /** The certificates create made keep saying what they are to say. */
  lemma BaseStays(w: World, a: Action, r: Outcome, w': World)
    requires Sound(w) && Step(w, a, r, w') && Recorded(w', a.c)
    ensures BaseSound(w'.clusters[a.c])
  {
    assert a.c in w.clusters ==> OwnRecord(w, a.c);
    match a
    case Create(c, o) =>
    case Start(c, hostname) =>
      if StartGuard(w, c) {
        var d :| StartedTo(w, c, r, w', d);
        KeptStaysSound(w.clusters[c], d);
      }
    case Stop(c) =>
      if Recorded(w, c) {
        StopStaysSound(w, c, r, w');
      }
    case StartWorker(c, hostname) =>
      if WorkerGuard(w, c) && w' != w {
        var n, d :| WorkerAdded(w, c, r, w', n, d);
        KeptStaysSound(w.clusters[c], d);
      }
    case Delete(c, storage, network) =>
      if Recorded(w, c) && w'.clusters != w.clusters {
        RemnantStaysSound(w.clusters[c], w'.clusters[c]);
      }
  }

  lemma SameFits(w: World, w': World, c: string, x: string, image: Image)
    requires SameFor(w, w', c) && OwnedBy(x, c) && FitsIn(w.instances, x, image)
    ensures FitsIn(w'.instances, x, image)
  {
    assert SameAt(w.instances, w'.instances, x);
  }

  /** Commands on other clusters leave a cluster's record its own. */
  lemma OthersStayOwn(w: World, w': World, c: string)
    requires OwnRecord(w, c) && c in w.clusters && SameFor(w, w', c)
    ensures OwnRecord(w', c)
  {
    if Recorded(w, c) {
      var s := RecordOf(w, c);
      SameFits(w, w', c, s.etcd, Etcd);
      SameFits(w, w', c, s.controller, Controller);
      SameFits(w, w', c, s.registry, Registry);
      forall i | 0 <= i < |s.workers|
        ensures FitsIn(w'.instances, s.workers[i], Worker)
      {
        assert NamedFor(s.workers[i], c, Worker);
        SameFits(w, w', c, s.workers[i], Worker);
      }
    }
  }

  lemma NamesApart(n: string, b: string, c: string)
    requires OwnedBy(n, b) && OwnedBy(n, c)
    ensures b == c
  {
    var i :| NamedFor(n, b, i);
    var j :| NamedFor(n, c, j);
    OneOwner(n, b, i, c, j);
  }

  /** A command on one cluster leaves everything of another as it was. */
  lemma StepLeaves(w: World, a: Action, r: Outcome, w': World, b: string)
    requires Sound(w) && Step(w, a, r, w') && b != a.c
    ensures SameFor(w, w', b)
  {
    StepIsolated(w, a, r, w');
    forall n | OwnedBy(n, b)
      ensures SameAt(w.instances, w'.instances, n)
    {
      if OwnedBy(n, a.c) {
        NamesApart(n, b, a.c);
      }
    }
  }

  lemma StepKeepsSound(w: World, a: Action, r: Outcome, w': World)
    requires Sound(w) && Step(w, a, r, w') && ClusterName(a.c)
    ensures Sound(w')
  {
    StepIsolated(w, a, r, w');
    if Recorded(w', a.c) {
      RecordStaysOwn(w, a, r, w');
      RolesStayFit(w, a, r, w');
      BaseStays(w, a, r, w');
    }
    forall c | c in w'.clusters
      ensures OwnRecord(w', c)
    {
      if c != a.c {
        StepLeaves(w, a, r, w', c);
        OthersStayOwn(w, w', c);
      }
    }
  }

  /** The containers recorded for two clusters are never the same, whether they still exist or not. */
  lemma RecordedDisjoint(w: World, b: string, c: string, n: string)
    requires Sound(w) && b != c && Recorded(w, b) && Recorded(w, c) && n in RecordOf(w, b).containers
    ensures n !in RecordOf(w, c).containers
  {
    assert OwnRecord(w, b) && OwnRecord(w, c);
    RecordedAreOwned(RecordOf(w, b), b);
    if n in RecordOf(w, c).containers {
      RecordedAreOwned(RecordOf(w, c), c);
      NamesApart(n, b, c);
    }
  }

  // ---- single moves ----

  /** One command and how it ended. */
  datatype Event = Event(action: Action, outcome: Outcome)

  /**
    The event leads from one world to the other. It is written with a
    quantifier so that provers look inside only where `Step` is spoken of.
   */
  ghost predicate Next(w: World, e: Event, w': World) {
    ClusterName(e.action.c) && forall r | r == e.outcome :: Step(w, e.action, r, w')
  }

  datatype Transition = Transition(before: World, event: Event, after: World)

  const EMPTY := World(map[], {}, {}, {}, [], map[])

  /** A command on a cluster with a proper name, in a world whose records are their clusters' own. */
  type Move = t: Transition | IsMove(t) witness Transition(EMPTY, Event(Stop("c"), Refused), EMPTY)

  ghost predicate IsMove(t: Transition) {
    Sound(t.before) && Next(t.before, t.event, t.after)
  }

  /** What a move is, spelled out. */
  lemma StepOf(t: Move)
    ensures Step(t.before, t.event.action, t.event.outcome, t.after)
  {
  }

  /** A command on one cluster changes only that cluster's directory and instances with its names. */
  lemma MoveIsolated(t: Move)
    ensures OnlyDirectory(t.before, t.after, t.event.action.c)
    ensures OnlyOwn(t.before.instances, t.after.instances, t.event.action.c)
  {
    StepOf(t);
    StepIsolated(t.before, t.event.action, t.event.outcome, t.after);
  }

  /** A command on one cluster leaves everything of another as it was. */
  lemma OthersUntouched(t: Move, b: string)
    requires b != t.event.action.c
    ensures SameFor(t.before, t.after, b)
  {
    StepOf(t);
    StepLeaves(t.before, t.event.action, t.event.outcome, t.after, b);
  }

  // ---- services ----

  /** Whatever a command starts is ready to be started. */
  lemma StepStartsReady(w: World, a: Action, r: Outcome, w': World)
    requires Step(w, a, r, w')
    ensures StartsReady(w.starts, w'.starts)
  {
  }

  lemma MoveStartsReady(t: Move)
    ensures StartsReady(t.before.starts, t.after.starts)
  {
    StepOf(t);
    StepStartsReady(t.before, t.event.action, t.event.outcome, t.after);
  }
}
