/**
  No command reads a local certificate, key or kubeconfig that no earlier one
  wrote, and what start leaves on the controller.
 */
module Closure {
  import opened Text
  import opened Names
  import opened Trees
  import opened Rooms
  import opened Worlds
  import opened Containers
  import opened Provision
  import opened Startup
  import opened Steps
  import opened Commands
  import opened Isolation
  import opened Runs
  import opened Guards

  /** The files create leaves are there. */
  ghost predicate Based(w: World, c: string) {
    c in w.clusters && HasBase(w.clusters[c])
  }

  /** Recorded as running: the files a full start leaves are there. */
  ghost predicate StartedOnce(w: World, c: string) {
    WorkerGuard(w, c) ==> HasStarted(w.clusters[c])
  }

  lemma BaseKept(d: ClusterDir, e: ClusterDir)
    requires FilesStay(d, e)
    ensures HasBase(d) ==> HasBase(e)
    ensures HasStarted(d) ==> HasStarted(e)
  {
  }

  /** The cluster's directory is there, and every file in it stays. */
  ghost predicate KeepsFiles(t: Transition, c: string) {
    c in t.before.clusters && c in t.after.clusters && FilesStay(t.before.clusters[c], t.after.clusters[c])
  }

  /** A delete of the cluster changed something. */
  ghost predicate Deletes(t: Transition, c: string) {
    t.event.action.c == c && t.event.action.Delete? && t.after != t.before
  }

  /** Every command but delete keeps the cluster's local files. */
  lemma MoveKeepsFiles(t: Move, c: string)
    requires c in t.before.clusters && !Deletes(t, c)
    ensures KeepsFiles(t, c)
  {
    StepOf(t);
    if t.event.action.c != c {
      OthersUntouched(t, c);
    } else if t.event.action.Start? {
      if StartGuard(t.before, c) {
        var d :| StartedTo(t.before, c, t.event.outcome, t.after, d);
      }
    } else if t.event.action.StartWorker? {
      if WorkerGuard(t.before, c) && t.after != t.before {
        var n, d :| WorkerAdded(t.before, c, t.event.outcome, t.after, n, d);
      }
    }
  }

  lemma MoveKeepsBase(t: Move, c: string)
    requires Based(t.before, c) && !Deletes(t, c)
    ensures Based(t.after, c)
  {
    MoveKeepsFiles(t, c);
    BaseKept(t.before.clusters[c], t.after.clusters[c]);
  }

  lemma {:induction false} BasedKept(run: Run, i: nat, j: nat, c: string)
    requires i <= j <= |run.events| && Based(run.worlds[i], c)
    requires forall k | i <= k < j :: !Deletes(MoveAt(run, k), c)
    ensures Based(run.worlds[j], c)
    decreases j
  {
    if i < j {
      BasedKept(run, i, j - 1, c);
      MoveKeepsBase(MoveAt(run, j - 1), c);
    }
  }

  lemma MissingFromStart(t: Move)
    requires t.event.action.Start? && t.event.outcome.Missing?
    ensures !Based(t.before, t.event.action.c)
  {
    StepOf(t);
    var d :| StartedTo(t.before, t.event.action.c, t.event.outcome, t.after, d);
  }

  lemma CreateLeavesBase(t: Move)
    requires t.event.action.Create? && t.event.outcome == Done
    ensures Based(t.after, t.event.action.c)
  {
    StepOf(t);
  }

  /** After a successful create no start of the cluster ever finds a file missing, as long as no delete touches it. */
  lemma StartFindsItsFiles(run: Run, i: nat, j: nat, c: string)
    requires i < j < |run.events| && run.events[i].action.c == c && run.events[j].action.c == c
    requires run.events[i].action.Create? && run.events[i].outcome == Done && run.events[j].action.Start?
    requires forall k | i < k < j :: !Deletes(MoveAt(run, k), c)
    ensures !run.events[j].outcome.Missing?
  {
    CreateLeavesBase(MoveAt(run, i));
    BasedKept(run, i + 1, j, c);
    if run.events[j].outcome.Missing? {
      MissingFromStart(MoveAt(run, j));
    }
  }

  lemma WholeStartLeavesFiles(d: ClusterDir, m: map<string, Instance>, a: seq<ServiceStart>, b: seq<ServiceStart>, s: ClusterState)
    requires WholeStart(d, m, a, b, s)
    ensures HasStarted(d)
  {
    var ip :| WholeStartAt(d, m, a, b, s, ip);
  }

  lemma CreateDoesNotRun(w: World, c: string, o: Options, r: Outcome, w': World)
    requires CreateStep(w, c, o, r, w') && !WorkerGuard(w, c)
    ensures !WorkerGuard(w', c)
  {
  }

  lemma StopDoesNotRun(w: World, c: string, r: Outcome, w': World)
    requires StopStep(w, c, r, w') && !WorkerGuard(w, c)
    ensures !WorkerGuard(w', c)
  {
  }

  lemma DeleteDoesNotRun(w: World, c: string, storage: bool, network: bool, r: Outcome, w': World)
    requires DeleteStep(w, c, storage, network, r, w') && !WorkerGuard(w, c)
    ensures !WorkerGuard(w', c)
  {
  }

  lemma OnlyStartRuns(t: Move, c: string)
    requires !WorkerGuard(t.before, c) && WorkerGuard(t.after, c)
    ensures t.event.action.c == c && t.event.action.Start?
  {
    StepOf(t);
    if t.event.action.c != c {
      OthersUntouched(t, c);
    } else {
      match t.event.action
      case Create(_, o) => CreateDoesNotRun(t.before, c, o, t.event.outcome, t.after);
      case Start(_, _) =>
      case Stop(_) => StopDoesNotRun(t.before, c, t.event.outcome, t.after);
      case StartWorker(_, _) =>
      case Delete(_, storage, network) => DeleteDoesNotRun(t.before, c, storage, network, t.event.outcome, t.after);
    }
  }

  /** Only a successful start makes a cluster recorded as running. */
  lemma RunningOnlyByStart(t: Move, c: string)
    requires !WorkerGuard(t.before, c) && WorkerGuard(t.after, c)
    ensures t.event.action.c == c && t.event.action.Start? && t.event.outcome == Done
    ensures t.event.action.hostname != "" && HasStarted(t.after.clusters[c])
  {
    OnlyStartRuns(t, c);
    StartMakesRunning(t, c);
  }

  lemma StartMakesRunning(t: Move, c: string)
    requires t.event.action.c == c && t.event.action.Start? && !WorkerGuard(t.before, c) && WorkerGuard(t.after, c)
    ensures t.event.outcome == Done && t.event.action.hostname != "" && HasStarted(t.after.clusters[c])
  {
    StepOf(t);
    var d :| StartedTo(t.before, c, t.event.outcome, t.after, d);
    WholeStartLeavesFiles(d, t.after.instances, t.before.starts, t.after.starts, RecordOf(t.before, c));
  }

  lemma MoveKeepsStarted(t: Move, c: string)
    requires StartedOnce(t.before, c) && !DeleteFails(t, c)
    ensures StartedOnce(t.after, c)
  {
    StepOf(t);
    if WorkerGuard(t.after, c) {
      if WorkerGuard(t.before, c) {
        MoveKeepsFiles(t, c);
        BaseKept(t.before.clusters[c], t.after.clusters[c]);
      } else {
        RunningOnlyByStart(t, c);
      }
    }
  }

  lemma {:induction false} StartedKept(run: Run, i: nat, j: nat, c: string)
    requires i <= j <= |run.events| && StartedOnce(run.worlds[i], c)
    requires forall k | i <= k < j :: !DeleteFails(MoveAt(run, k), c)
    ensures StartedOnce(run.worlds[j], c)
    decreases j
  {
    if i < j {
      StartedKept(run, i, j - 1, c);
      MoveKeepsStarted(MoveAt(run, j - 1), c);
    }
  }

  lemma MissingFromStartWorker(t: Move)
    requires t.event.action.StartWorker? && t.event.outcome.Missing?
    ensures !StartedOnce(t.before, t.event.action.c)
  {
    StepOf(t);
    var n, d :| WorkerAdded(t.before, t.event.action.c, t.event.outcome, t.after, n, d);
  }

  /**
    start-worker never finds a file missing, unless a delete of the cluster
    failed partway since it was last without a record: a record that says
    running means that a whole start went before.
   */
  lemma StartWorkerFindsItsFiles(run: Run, i: nat, j: nat, c: string)
    requires i <= j < |run.events| && !Recorded(run.worlds[i], c)
    requires forall k | i <= k < j :: !DeleteFails(MoveAt(run, k), c)
    requires run.events[j].action.c == c && run.events[j].action.StartWorker?
    ensures !run.events[j].outcome.Missing?
  {
    StartedKept(run, i, j, c);
    if run.events[j].outcome.Missing? {
      MissingFromStartWorker(MoveAt(run, j));
    }
  }

  // ---- the controller's environment ----

  /**
    The controller's environment file binds its own name and then the very
    address that the environment file of etcd's container binds.
   */
  ghost predicate SameAddress(m: map<string, Instance>, controller: string, etcd: string) {
    exists ip :: AddressIn(m, controller, etcd, ip)
  }

  ghost predicate AddressIn(m: map<string, Instance>, controller: string, etcd: string, ip: string) {
    && controller in m && etcd in m
    && (exists env :: Holds(m[controller].tree, ENV_PATH, env) && Bindings(env) == [NameLine(controller), EtcdEnv(ip)])
    && (exists env :: Holds(m[etcd].tree, ETCD_DIR + "env", env) && Bindings(env) == [EtcdEnv(ip)])
  }

  lemma EnvsAgree(m: map<string, Instance>, s: ClusterState, c: string, d: ClusterDir, a: seq<ServiceStart>, b: seq<ServiceStart>)
    requires ClusterName(c) && RecordFor(s, c) && WholeStart(d, m, a, b, s)
    ensures SameAddress(m, s.controller, s.etcd)
  {
    var ip :| WholeStartAt(d, m, a, b, s, ip);
    OwnedIsGood(s.controller, c);
    EnvKeepsEtcd(s.controller, c, ip);
    BindsOpens(m, s.etcd, ip);
    assert Holds(m[s.controller].tree, ENV_PATH, WorkerEnv(s.controller, ip));
    assert Holds(m[s.etcd].tree, ETCD_DIR + "env", EtcdEnv(ip));
    assert AddressIn(m, s.controller, s.etcd, ip);
  }

  /**
    A successful start leaves on the controller an environment file that binds
    the address etcd's own does, though it is written twice.
   */
  lemma StartKeepsEtcdAddress(run: Run, i: nat, c: string)
    requires i < |run.events| && run.events[i].action.c == c && run.events[i].action.Start? && run.events[i].outcome == Done
    ensures Recorded(run.worlds[i], c)
    ensures var s := RecordOf(run.worlds[i], c);
            SameAddress(run.worlds[i + 1].instances, s.controller, s.etcd)
  {
    var t := MoveAt(run, i);
    StepOf(t);
    assert OwnRecord(t.before, c);
    var d :| StartedTo(t.before, c, Done, t.after, d);
    EnvsAgree(t.after.instances, RecordOf(t.before, c), c, d, t.before.starts, t.after.starts);
  }

  /** With a remote that has no host name, as a local snap's, no cluster is ever recorded as running. */
  lemma {:induction false} NoHostNeverRuns(run: Run, i: nat, c: string)
    requires i <= |run.events|
    requires forall k {:trigger run.events[k]} | 0 <= k < i && run.events[k].action.Start? :: run.events[k].action.hostname == ""
    ensures !WorkerGuard(run.worlds[i], c)
    decreases i
  {
    if i > 0 {
      NoHostNeverRuns(run, i - 1, c);
      if WorkerGuard(run.worlds[i], c) {
        RunningOnlyByStart(MoveAt(run, i - 1), c);
      }
    }
  }
}
