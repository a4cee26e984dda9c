/**
  What the recorded run state says about LXD, and what the guards of start and
  stop make of it: where both refuse, how that comes about, and what helps.
 */
module Guards {
  import opened Text
  import opened Names
  import opened Worlds
  import opened Containers
  import opened Steps
  import opened Commands
  import opened Isolation
  import opened Runs

  // ---- what the record says of the containers ----

  /** Recorded as running: every recorded container runs. */
  ghost predicate RunningAgrees(w: World, c: string) {
    WorkerGuard(w, c) ==> AllRun(w.instances, RecordOf(w, c).containers)
  }

  ghost predicate RecordedStopped(w: World, c: string) {
    Recorded(w, c) && RecordOf(w, c).runState == Stopped
  }

  /** Recorded as stopped: no recorded container runs. */
  ghost predicate StoppedAgrees(w: World, c: string) {
    RecordedStopped(w, c) ==> NoneRuns(w.instances, RecordOf(w, c).containers)
  }

  /** Every recorded container exists. */
  ghost predicate Complete(w: World, c: string) {
    Recorded(w, c) ==> AllPresent(w.instances, RecordOf(w, c).containers)
  }

  /** Every recorded container exists, and none is recorded twice. */
  ghost predicate AllThere(w: World, c: string) {
    Recorded(w, c) ==> AllPresent(w.instances, RecordOf(w, c).containers) && Distinct(RecordOf(w, c).containers)
  }

  /** Commands on other clusters change none of the three. */
  lemma OthersAgree(t: Move, c: string)
    requires t.event.action.c != c
    ensures RunningAgrees(t.before, c) ==> RunningAgrees(t.after, c)
    ensures StoppedAgrees(t.before, c) ==> StoppedAgrees(t.after, c)
    ensures AllThere(t.before, c) ==> AllThere(t.after, c)
    ensures Complete(t.before, c) ==> Complete(t.after, c)
  {
    OthersUntouched(t, c);
    if Recorded(t.before, c) {
      assert OwnRecord(t.before, c);
      RecordedAreOwned(RecordOf(t.before, c), c);
      assert forall n | n in RecordOf(t.before, c).containers :: SameAt(t.before.instances, t.after.instances, n);
    }
  }

  /** The command is on this cluster and failed after it had changed something. */
  ghost predicate FailsPartway(t: Transition, c: string) {
    t.event.action.c == c && Partway(t.before, t.event.outcome, t.after)
  }

  // ---- running ----

  /** A stop or delete of the cluster failed partway. */
  ghost predicate StopFails(t: Transition, c: string) {
    FailsPartway(t, c) && (t.event.action.Stop? || t.event.action.Delete?)
  }

  lemma StartAgrees(w: World, c: string, r: Outcome, w': World, d: ClusterDir)
    requires StartGuard(w, c) && StartedTo(w, c, r, w', d)
    ensures RunningAgrees(w', c) && (AllThere(w, c) ==> AllThere(w', c)) && Complete(w', c)
    ensures RecordedStopped(w', c) ==> RecordedStopped(w, c) && r != Done
  {
  }

  lemma WorkerAgrees(w: World, c: string, r: Outcome, w': World, n: string, d: ClusterDir)
    requires WorkerGuard(w, c) && WorkerAdded(w, c, r, w', n, d)
    ensures RunningAgrees(w, c) ==> RunningAgrees(w', c)
    ensures AllThere(w, c) ==> AllThere(w', c)
    ensures Complete(w, c) ==> Complete(w', c)
    ensures !RecordedStopped(w', c)
  {
  }

  lemma MoveKeepsRunning(t: Move, c: string)
    requires RunningAgrees(t.before, c) && !StopFails(t, c)
    ensures RunningAgrees(t.after, c)
  {
    StepOf(t);
    if t.event.action.c != c {
      OthersAgree(t, c);
    } else if t.event.action.Start? {
      if StartGuard(t.before, c) {
        var d :| StartedTo(t.before, c, t.event.outcome, t.after, d);
        StartAgrees(t.before, c, t.event.outcome, t.after, d);
      }
    } else if t.event.action.StartWorker? {
      if WorkerGuard(t.before, c) && t.after != t.before {
        var n, d :| WorkerAdded(t.before, c, t.event.outcome, t.after, n, d);
        WorkerAgrees(t.before, c, t.event.outcome, t.after, n, d);
      }
    }
  }

  lemma {:induction false} RunningKept(run: Run, i: nat, j: nat, c: string)
    requires i <= j <= |run.events| && RunningAgrees(run.worlds[i], c)
    requires forall k | i <= k < j :: !StopFails(MoveAt(run, k), c)
    ensures RunningAgrees(run.worlds[j], c)
    decreases j
  {
    if i < j {
      RunningKept(run, i, j - 1, c);
      MoveKeepsRunning(MoveAt(run, j - 1), c);
    }
  }

  /**
    If since the cluster was last without a record no stop or delete of it
    failed partway, a cluster recorded as running has every container running.
   */
  lemma RecordedRunningRuns(run: Run, i: nat, j: nat, c: string)
    requires i <= j <= |run.events| && !Recorded(run.worlds[i], c)
    requires forall k | i <= k < j :: !StopFails(MoveAt(run, k), c)
    requires Recorded(run.worlds[j], c) && RecordOf(run.worlds[j], c).runState == Running
    ensures AllRun(run.worlds[j].instances, RecordOf(run.worlds[j], c).containers)
  {
    RunningKept(run, i, j, c);
  }

  // ---- stopped ----

  /** A start of the cluster failed partway from a record saying stopped. */
  ghost predicate RestartFails(t: Transition, c: string) {
    FailsPartway(t, c) && t.event.action.Start? && RecordedStopped(t.before, c)
  }

  lemma MoveKeepsStopped(t: Move, c: string)
    requires StoppedAgrees(t.before, c) && !RestartFails(t, c)
    ensures StoppedAgrees(t.after, c)
  {
    StepOf(t);
    if t.event.action.c != c {
      OthersAgree(t, c);
    } else if t.event.action.Start? {
      if StartGuard(t.before, c) {
        var d :| StartedTo(t.before, c, t.event.outcome, t.after, d);
        StartAgrees(t.before, c, t.event.outcome, t.after, d);
      }
    } else if t.event.action.StartWorker? {
      if WorkerGuard(t.before, c) && t.after != t.before {
        var n, d :| WorkerAdded(t.before, c, t.event.outcome, t.after, n, d);
        WorkerAgrees(t.before, c, t.event.outcome, t.after, n, d);
      }
    } else if t.event.action.Delete? {
      DeleteKeepsStopped(t.before, c, t.event.action.storage, t.event.action.network, t.event.outcome, t.after);
    }
  }

  lemma DeleteKeepsStopped(w: World, c: string, storage: bool, network: bool, r: Outcome, w': World)
    requires DeleteStep(w, c, storage, network, r, w') && StoppedAgrees(w, c)
    ensures StoppedAgrees(w', c)
  {
  }

  lemma {:induction false} StoppedKept(run: Run, i: nat, j: nat, c: string)
    requires i <= j <= |run.events| && StoppedAgrees(run.worlds[i], c)
    requires forall k | i <= k < j :: !RestartFails(MoveAt(run, k), c)
    ensures StoppedAgrees(run.worlds[j], c)
    decreases j
  {
    if i < j {
      StoppedKept(run, i, j - 1, c);
      MoveKeepsStopped(MoveAt(run, j - 1), c);
    }
  }

  /**
    If since the cluster was last without a record no start of it failed
    partway from a record saying stopped, a cluster recorded as stopped has no
    container running.
   */
  lemma RecordedStoppedRests(run: Run, i: nat, j: nat, c: string)
    requires i <= j <= |run.events| && !Recorded(run.worlds[i], c)
    requires forall k | i <= k < j :: !RestartFails(MoveAt(run, k), c)
    requires RecordedStopped(run.worlds[j], c)
    ensures NoneRuns(run.worlds[j].instances, RecordOf(run.worlds[j], c).containers)
  {
    StoppedKept(run, i, j, c);
  }

  // ---- missing containers ----

  /** A delete of the cluster failed partway. */
  ghost predicate DeleteFails(t: Transition, c: string) {
    FailsPartway(t, c) && t.event.action.Delete?
  }

  lemma CreateThere(w: World, c: string, o: Options, r: Outcome, w': World)
    requires CreateStep(w, c, o, r, w') && AllThere(w, c)
    ensures AllThere(w', c)
  {
    if c !in w.clusters && Recorded(w', c) {
      var s :| CreateMade(w, c, o, w', s);
      Listed(s, c);
    }
  }

  lemma MoveKeepsThere(t: Move, c: string)
    requires AllThere(t.before, c) && !DeleteFails(t, c)
    ensures AllThere(t.after, c)
  {
    StepOf(t);
    if t.event.action.c != c {
      OthersAgree(t, c);
    } else if t.event.action.Create? {
      CreateThere(t.before, c, t.event.action.options, t.event.outcome, t.after);
    } else if t.event.action.Start? {
      if StartGuard(t.before, c) {
        var d :| StartedTo(t.before, c, t.event.outcome, t.after, d);
        StartAgrees(t.before, c, t.event.outcome, t.after, d);
      }
    } else if t.event.action.StartWorker? {
      if WorkerGuard(t.before, c) && t.after != t.before {
        var n, d :| WorkerAdded(t.before, c, t.event.outcome, t.after, n, d);
        WorkerAgrees(t.before, c, t.event.outcome, t.after, n, d);
      }
    }
  }

  lemma {:induction false} ThereKept(run: Run, i: nat, j: nat, c: string)
    requires i <= j <= |run.events| && AllThere(run.worlds[i], c)
    requires forall k | i <= k < j :: !DeleteFails(MoveAt(run, k), c)
    ensures AllThere(run.worlds[j], c)
    decreases j
  {
    if i < j {
      ThereKept(run, i, j - 1, c);
      MoveKeepsThere(MoveAt(run, j - 1), c);
    }
  }

  /**
    If since the cluster was last without a record no delete of it failed
    partway, its recorded containers all exist and none is recorded twice.
   */
  lemma RecordedContainersExist(run: Run, i: nat, j: nat, c: string)
    requires i <= j <= |run.events| && !Recorded(run.worlds[i], c) && Recorded(run.worlds[j], c)
    requires forall k | i <= k < j :: !DeleteFails(MoveAt(run, k), c)
    ensures AllPresent(run.worlds[j].instances, RecordOf(run.worlds[j], c).containers)
    ensures Distinct(RecordOf(run.worlds[j], c).containers)
  {
    ThereKept(run, i, j, c);
  }

  // ---- where both guards refuse ----

  /** A recorded container runs. */
  ghost predicate SomeRuns(w: World, c: string)
    requires Recorded(w, c)
  {
    !NoneRuns(w.instances, RecordOf(w, c).containers)
  }

  /** A recorded container is gone. */
  ghost predicate SomeMissing(w: World, c: string)
    requires Recorded(w, c)
  {
    !AllPresent(w.instances, RecordOf(w, c).containers)
  }

  /**
    Neither start nor stop gets past its checks exactly if the record says
    stopped while a recorded container runs or is gone. The first arises only
    from a start that failed partway from a record saying stopped, the second
    only from a delete that failed partway.
   */
  lemma WhereBothGuardsRefuse(run: Run, i: nat, j: nat, c: string)
    requires i <= j <= |run.events| && !Recorded(run.worlds[i], c) && Recorded(run.worlds[j], c)
    ensures !StartGuard(run.worlds[j], c) && !StopGuard(run.worlds[j], c) <==>
            RecordedStopped(run.worlds[j], c) && (SomeRuns(run.worlds[j], c) || SomeMissing(run.worlds[j], c))
    ensures RecordedStopped(run.worlds[j], c) && SomeRuns(run.worlds[j], c) ==>
            exists k | i <= k < j :: RestartFails(MoveAt(run, k), c)
    ensures SomeMissing(run.worlds[j], c) ==> exists k | i <= k < j :: DeleteFails(MoveAt(run, k), c)
  {
    if forall k | i <= k < j :: !RestartFails(MoveAt(run, k), c) {
      StoppedKept(run, i, j, c);
    }
    if forall k | i <= k < j :: !DeleteFails(MoveAt(run, k), c) {
      ThereKept(run, i, j, c);
    }
  }

  /** Neither start nor stop gets past its checks. */
  ghost predicate BothRefuse(w: World, c: string) {
    Recorded(w, c) && !StartGuard(w, c) && !StopGuard(w, c)
  }

  lemma MoveStaysRefused(t: Move, c: string)
    requires BothRefuse(t.before, c) && !(t.event.action.c == c && t.event.action.Delete?)
    ensures BothRefuse(t.after, c)
    ensures t.event.action.c == c ==> t.event.outcome != Done && t.after == t.before
  {
    StepOf(t);
    if t.event.action.c != c {
      OthersUntouched(t, c);
      assert OwnRecord(t.before, c);
      RecordedAreOwned(RecordOf(t.before, c), c);
      assert forall n | n in RecordOf(t.before, c).containers :: SameAt(t.before.instances, t.after.instances, n);
    }
  }

  lemma {:induction false} StaysRefused(run: Run, i: nat, j: nat, c: string)
    requires i <= j <= |run.events| && BothRefuse(run.worlds[i], c)
    requires forall k {:trigger run.events[k]} | i <= k < j && run.events[k].action.c == c :: !run.events[k].action.Delete?
    ensures BothRefuse(run.worlds[j], c)
    decreases j
  {
    if i < j {
      StaysRefused(run, i, j - 1, c);
      MoveLinks(run, j - 1);
      MoveStaysRefused(MoveAt(run, j - 1), c);
    }
  }

  /**
    Once both guards refuse they go on refusing until a delete of the cluster,
    and no other command on it succeeds or changes anything.
   */
  lemma OnlyDeleteHelps(run: Run, i: nat, j: nat, c: string)
    requires i <= j < |run.events| && BothRefuse(run.worlds[i], c) && run.events[j].action.c == c
    requires forall k {:trigger run.events[k]} | i <= k <= j && run.events[k].action.c == c :: !run.events[k].action.Delete?
    ensures BothRefuse(run.worlds[j], c)
    ensures run.events[j].outcome != Done && run.worlds[j + 1] == run.worlds[j]
  {
    StaysRefused(run, i, j, c);
    MoveLinks(run, j);
    MoveStaysRefused(MoveAt(run, j), c);
  }

  // ---- recovery ----

  /** A successful stop leaves a cluster that start accepts. */
  lemma StopThenStart(w: World, w': World, c: string)
    requires StopStep(w, c, Done, w')
    ensures StartGuard(w', c) && RecordedStopped(w', c)
  {
  }

  lemma MoveKeepsComplete(t: Move, c: string)
    requires Complete(t.before, c) && !DeleteFails(t, c)
    ensures Complete(t.after, c)
  {
    StepOf(t);
    if t.event.action.c != c {
      OthersAgree(t, c);
    } else if t.event.action.Start? {
      if StartGuard(t.before, c) {
        var d :| StartedTo(t.before, c, t.event.outcome, t.after, d);
        StartAgrees(t.before, c, t.event.outcome, t.after, d);
      }
    } else if t.event.action.StartWorker? {
      if WorkerGuard(t.before, c) && t.after != t.before {
        var n, d :| WorkerAdded(t.before, c, t.event.outcome, t.after, n, d);
        WorkerAgrees(t.before, c, t.event.outcome, t.after, n, d);
      }
    }
  }

  lemma {:induction false} CompleteKept(run: Run, i: nat, j: nat, c: string)
    requires i <= j <= |run.events| && Complete(run.worlds[i], c)
    requires forall k | i <= k < j :: !DeleteFails(MoveAt(run, k), c)
    ensures Complete(run.worlds[j], c)
    decreases j
  {
    if i < j {
      CompleteKept(run, i, j - 1, c);
      MoveLinks(run, j - 1);
      MoveKeepsComplete(MoveAt(run, j - 1), c);
    }
  }

  /** A start that failed partway from a cluster that was never started. */
  ghost predicate FirstStartFails(t: Transition, c: string) {
    FailsPartway(t, c) && t.event.action.Start? && Recorded(t.before, c) && RecordOf(t.before, c).runState == Uninitialized
  }

  lemma FirstStartLeaves(t: Move, c: string)
    requires FirstStartFails(t, c)
    ensures Stoppable(t.after, c) && Complete(t.after, c)
  {
    StepOf(t);
    FirstStartStarts(t, c);
    var d :| StartedTo(t.before, c, t.event.outcome, t.after, d);
    assert RecordOf(t.after, c) == RecordOf(t.before, c);
  }

  /** It got past its checks, as it changed something. */
  lemma FirstStartStarts(t: Move, c: string)
    requires FirstStartFails(t, c)
    ensures StartGuard(t.before, c) && Started(t.before, c, t.event.outcome, t.after)
  {
    StepOf(t);
  }

  lemma StopLeavesStartable(t: Move, c: string)
    requires t.event == Event(Stop(c), Done)
    ensures StartGuard(t.after, c)
  {
    StepOf(t);
    StopThenStart(t.before, t.after, c);
  }

  /**
    A start that failed partway from a cluster that was never started can
    always be recovered from. Right after it, and at every later time at which
    the cluster has a record that does not say stopped and no delete of it has
    failed partway since, nothing but a lost message or a failed write keeps
    stop from succeeding; and after a successful stop start's guard passes.
   */
  lemma FirstStartRecovers(run: Run, i: nat, j: nat, c: string)
    requires i < j <= |run.events| && FirstStartFails(MoveAt(run, i), c)
    requires forall k | i < k < j :: !DeleteFails(MoveAt(run, k), c)
    ensures Stoppable(run.worlds[i + 1], c)
    ensures StopGuard(run.worlds[j], c) ==> Stoppable(run.worlds[j], c)
    ensures j < |run.events| && run.events[j] == Event(Stop(c), Done) ==> StartGuard(run.worlds[j + 1], c)
  {
    MoveLinks(run, i);
    FirstStartLeaves(MoveAt(run, i), c);
    CompleteKept(run, i + 1, j, c);
    if j < |run.events| && run.events[j] == Event(Stop(c), Done) {
      MoveLinks(run, j);
      StopLeavesStartable(MoveAt(run, j), c);
    }
  }

  // ---- dead ends ----

  /** The directory is there, but its record is gone, or does not say running while a recorded container is gone. */
  ghost predicate DeadEnd(w: World, c: string) {
    c in w.clusters && (Recorded(w, c) ==> RecordOf(w, c).runState != Running && SomeMissing(w, c))
  }

  lemma OthersStayDead(t: Move, c: string)
    requires t.event.action.c != c && DeadEnd(t.before, c)
    ensures DeadEnd(t.after, c) && t.after.clusters[c] == t.before.clusters[c]
  {
    OthersUntouched(t, c);
    if Recorded(t.before, c) {
      assert OwnRecord(t.before, c);
      RecordedAreOwned(RecordOf(t.before, c), c);
      var n :| n in RecordOf(t.before, c).containers && n !in t.before.instances;
      assert SameAt(t.before.instances, t.after.instances, n);
    }
  }

  lemma MoveStaysDead(t: Move, c: string)
    requires DeadEnd(t.before, c)
    ensures DeadEnd(t.after, c) && t.after.clusters[c] == t.before.clusters[c]
    ensures t.event.action.c == c ==> t.event.outcome != Done
  {
    StepOf(t);
    if t.event.action.c != c {
      OthersStayDead(t, c);
    } else {
      assert !StartGuard(t.before, c) && !WorkerGuard(t.before, c);
    }
  }

  /**
    Once a cluster's record is gone while its directory is not, or a recorded
    container is gone while the record does not say running, no command on the
    cluster ever succeeds again, delete included.
   */
  lemma {:induction false} DeadEndsStay(run: Run, i: nat, j: nat, c: string)
    requires i <= j <= |run.events| && DeadEnd(run.worlds[i], c)
    ensures DeadEnd(run.worlds[j], c) && run.worlds[j].clusters[c] == run.worlds[i].clusters[c]
    ensures forall k {:trigger run.events[k]} | i <= k < j && run.events[k].action.c == c :: run.events[k].outcome != Done
    decreases j
  {
    if i < j {
      DeadEndsStay(run, i, j - 1, c);
      MoveStaysDead(MoveAt(run, j - 1), c);
    }
  }

  lemma EmptyDirectoryIsDead(t: Move, c: string)
    requires t.event.action.c == c && t.event.action.Create? && c !in t.before.clusters
    requires c in t.after.clusters && !Recorded(t.after, c)
    ensures DeadEnd(t.after, c)
  {
  }

  /** A create that failed writing its record and left an empty directory makes the cluster's name useless for good. */
  lemma EmptyDirectoryIsFinal(run: Run, i: nat, j: nat, c: string)
    requires i < j < |run.events| && run.events[i].action.c == c && run.events[i].action.Create?
    requires c !in run.worlds[i].clusters && c in run.worlds[i + 1].clusters && !Recorded(run.worlds[i + 1], c)
    requires run.events[j].action.c == c
    ensures run.events[j].outcome != Done
  {
    MoveLinks(run, i);
    EmptyDirectoryIsDead(MoveAt(run, i), c);
    DeadEndsStay(run, i + 1, j + 1, c);
  }
}
