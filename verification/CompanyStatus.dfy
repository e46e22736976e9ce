/** What the status of a run says about its stages and its past, over every run, in memory and on disk. */
module CompanyStatus {
  import opened CompanyRecord
  import opened CompanyDriver
  import opened CompanyStops
  import opened CompanyOutcomes

  // ---------------------------------------------------------------- what can fail a run

  predicate IsWaitedFor(run: Run, i: nat) {
    i < |run.stages| && run.stages[i].task
    && (run.stages[i].status == StagePending || run.stages[i].status == StageRunning)
  }

  /** A task has timed out and could not be aborted. */
  predicate AbortFails(a: Answer) {
    a.result.status == TaskTimedOut && !a.ok
  }

  /** The driver is rejected, a restart finds no usable record, a provider is missing, or a task cannot be aborted. */
  predicate FailsRun(p: Plan, w: World, e: Event) {
    match e
    case Throw => true
    case Restart(valid) => !valid
    case Drive(a) =>
      (match w.pc
       case Selecting => exists i: nat :: i < p.teams && i in a.unavailable
       case LoopTop =>
         1 < w.it <= p.maxIterations
         && exists i :: 0 <= i < |w.mem.stages| && w.mem.stages[i].status != StageCompleted && i in a.unavailable
       case Reconciling(i) => IsWaitedFor(w.mem, i) && AbortFails(a)
       case AwaitingTask(s, i, count) => AbortFails(a)
       case _ => false)
    case Work(k, a) => k < |w.workers| && w.workers[k] == WaitingForTask && AbortFails(a)
    case _ => false
  }

  predicate EverCancelled(es: seq<Event>) {
    es != [] && (es[0] == Cancel || EverCancelled(es[1..]))
  }

  predicate EverFails(p: Plan, w: World, es: seq<Event>)
    requires IsWorld(p, w) && IsRun(p, w, es)
    decreases |es|
  {
    es != [] && (FailsRun(p, w, es[0]) || EverFails(p, Step(p, w, es[0]), es[1..]))
  }

  // ---------------------------------------------------------------- what a status says

  predicate AllDone(stages: seq<Stage>) {
    forall i :: 0 <= i < |stages| ==> stages[i].status == StageCompleted || stages[i].status == StageSkipped
  }

  predicate SomeCompleted(stages: seq<Stage>) {
    exists i :: 0 <= i < |stages| && stages[i].status == StageCompleted
  }

  /**
   * Completed: every stage is completed or skipped. Planned: a dry run. Cancelled: it was cancelled. Failed: something
   * failed it, or it ended with no stage completed. Partial: it is blocked, or ended with some stages completed.
   */
  predicate StatusFits(p: Plan, run: Run, cancelled: bool, failed: bool) {
    && (run.status == Completed ==> AllDone(run.stages))
    && (run.status == Planned ==> p.dryRun)
    && (run.status == Cancelled ==> cancelled)
    && (run.status == Failed ==> failed || (!AllDone(run.stages) && !SomeCompleted(run.stages)))
    && (run.status == Partial ==> run.blockers != {} || (!AllDone(run.stages) && SomeCompleted(run.stages)))
  }

  /** With such a status nothing is going on any more that could change a stage. */
  predicate IsAtRest(w: World, failed: bool) {
    && (w.mem.status == Completed || w.mem.status == Planned
        || (w.mem.status == Partial && w.mem.blockers == {}) || (w.mem.status == Failed && !failed) ==>
          (w.pc.Ended? || w.pc.Down?) && AllIdle(w.workers))
  }

  predicate Fits(p: Plan, w: World, cancelled: bool, failed: bool) {
    && StatusFits(p, w.mem, cancelled, failed) && StatusFits(p, w.disk, cancelled, failed)
    && IsAtRest(w, failed)
    && (w.pc.Down? ==> w.mem == w.disk)
    && (w.pc.Reviewing? ==> AllDone(w.mem.stages))
  }

  lemma FinalizedFits(p: Plan, run: Run, cancelled: bool, failed: bool)
    requires run.status == Cancelled ==> cancelled
    requires BlockersKnown(run.stages, run.blockers)
    ensures StatusFits(p, FinalizeRun(run), cancelled, failed) && IsFinal(FinalizeRun(run).status)
    ensures FinalizeRun(run).status != Planned && FinalizeRun(run) == run.(status := FinalizeRun(run).status)
  {
    FinalizeMeaning(run);
    BlockedByFingerprint(run);
    hide FinalizeRun, IsBlocked;
    assert (forall i :: 0 <= i < |run.stages| ==> IsDone(run.stages[i])) <==> AllDone(run.stages);
  }

  predicate IsResting(w: World) {
    (w.pc.Ended? || w.pc.Down?) && AllIdle(w.workers)
  }

  /** While something is going on, a step that leaves the status, or gives one that claims nothing, keeps what it says. */
  lemma StillFits(p: Plan, w: World, r: World, cancelled: bool, failed: bool)
    requires Fits(p, w, cancelled, failed) && !IsResting(w)
    requires w.mem.blockers <= r.mem.blockers && !r.pc.Down? && (r.pc.Reviewing? ==> AllDone(r.mem.stages))
    requires || r.mem.status == w.mem.status || !IsFinal(r.mem.status) || (r.mem.status == Partial && r.mem.blockers != {})
             || (r.mem.status == Failed && failed)
    requires r.disk == r.mem || r.disk == w.disk
    ensures Fits(p, r, cancelled, failed)
  {
    hide AllDone, SomeCompleted, AllIdle;
    assert w.mem.blockers != {} ==> r.mem.blockers != {};
  }

  lemma MoreFits(p: Plan, w: World, cancelled: bool, failed: bool, c: bool, f: bool)
    requires Fits(p, w, cancelled, failed) && (cancelled ==> c) && (failed ==> f)
    ensures Fits(p, w, c, f)
  {
    hide AllDone, SomeCompleted, AllIdle;
  }

  lemma FinishedFits(p: Plan, w: World, r: World, run: Run, cancelled: bool, failed: bool)
    requires HasFinished(r, run) && AllIdle(r.workers) && BlockersKnown(run.stages, run.blockers)
    requires run.status == Cancelled ==> cancelled
    ensures Fits(p, r, cancelled, failed)
  {
    hide AllDone, SomeCompleted, AllIdle, FinalizeRun;
    FinalizedFits(p, run, cancelled, failed);
  }

  lemma FailedFits(p: Plan, w: World, r: World, cancelled: bool, failed: bool)
    requires Fits(p, w, cancelled, failed) && !IsResting(w) && HasFailed(r, w)
    ensures Fits(p, r, cancelled, true)
  {
    hide AllDone, SomeCompleted, AllIdle;
    MoreFits(p, w, cancelled, failed, cancelled, true);
    StillFits(p, w, r, cancelled, true);
  }

  // ---------------------------------------------------------------- every step keeps it

  lemma RequestFits(p: Plan, w: World, e: Event, cancelled: bool, failed: bool)
    requires Inv(p, w) && IsEnabled(w, e) && !e.Drive? && !e.Work? && Fits(p, w, cancelled, failed)
    ensures Fits(p, Step(p, w, e), cancelled || e == Cancel, failed || FailsRun(p, w, e))
  {
    RequestOutcome(p, w, e);
    MoreFits(p, w, cancelled, failed, cancelled || e == Cancel, failed || FailsRun(p, w, e));
    var r := Step(p, w, e);
    hide Step, SomeCompleted, RetriesOf, BlockersKnown;
    if e == Throw {
      FailedFits(p, w, r, cancelled, failed);
    } else if e == Cancel && w.pc.Reviewing? {
      forall i | 0 <= i < |w.mem.stages| ensures r.mem.stages[i] == w.mem.stages[i] {
        assert w.mem.stages[i].status == StageCompleted || w.mem.stages[i].status == StageSkipped;
      }
      assert r.mem.stages == w.mem.stages;
    }
  }

  lemma RecoveryFits(p: Plan, w: World, a: Answer, cancelled: bool, failed: bool)
    requires Inv(p, w) && IsRecover(w.pc) && Fits(p, w, cancelled, failed)
    ensures Fits(p, Step(p, w, Drive(a)), cancelled, failed || FailsRun(p, w, Drive(a)))
  {
    RecoveryOutcome(p, w, a);
    var r := Step(p, w, Drive(a));
    var f := failed || FailsRun(p, w, Drive(a));
    MoreFits(p, w, cancelled, failed, cancelled, f);
    assert r.workers == w.workers;
    hide Step, IsBlocked, AllCompleted, FinalizeRun, CountersSaved, RetriesOf, AllDone, SomeCompleted, BlockersKnown,
      AllIdle, Fits, IsResting;
    RestsOnlyAtEnd(w);
    var run := w.mem.(resumeCount := w.mem.resumeCount + 1);
    CancelledWasCancelled(p, w, cancelled, failed);
    if HasFinished(r, w.mem) {
      FinishedFits(p, w, r, w.mem, cancelled, f);
    } else if HasFinished(r, run) {
      FinishedFits(p, w, r, run, cancelled, f);
    } else if HasFailed(r, w) && f {
      FailedFits(p, w, r, cancelled, failed);
    } else {
      StillFits(p, w, r, cancelled, f);
    }
  }

  lemma RestsOnlyAtEnd(w: World)
    ensures IsResting(w) ==> w.pc.Ended? || w.pc.Down?
  {
  }

  lemma CancelledWasCancelled(p: Plan, w: World, cancelled: bool, failed: bool)
    requires Fits(p, w, cancelled, failed)
    ensures w.mem.status == Cancelled ==> cancelled
  {
  }

  lemma PlannedFits(p: Plan, w: World, cancelled: bool, failed: bool)
    requires p.dryRun && w.mem.status == Planned && w.mem == w.disk && w.pc.Ended? && AllIdle(w.workers)
    ensures Fits(p, w, cancelled, failed)
  {
    hide AllDone, SomeCompleted, AllIdle;
  }

  lemma PreparationFits(p: Plan, w: World, a: Answer, cancelled: bool, failed: bool)
    requires Inv(p, w) && IsPrepare(w.pc) && Fits(p, w, cancelled, failed)
    ensures Fits(p, Step(p, w, Drive(a)), cancelled, failed || FailsRun(p, w, Drive(a)))
  {
    PreparationOutcome(p, w, a);
    var r := Step(p, w, Drive(a));
    var f := failed || FailsRun(p, w, Drive(a));
    MoreFits(p, w, cancelled, failed, cancelled, f);
    assert r.workers == w.workers;
    hide Step, CountersSaved, FingerprintsKept, RetriesOf, AllDone, SomeCompleted, AllIdle, AreFailed, Fits, IsResting;
    RestsOnlyAtEnd(w);
    CancelledWasCancelled(p, w, cancelled, failed);
    if r.pc.Ended? && r.mem.status == Planned {
      PlannedFits(p, r, cancelled, f);
    } else {
      StillFits(p, w, r, cancelled, f);
    }
  }

  lemma LoopFits(p: Plan, w: World, a: Answer, cancelled: bool, failed: bool)
    requires Inv(p, w) && IsLoop(w.pc) && Fits(p, w, cancelled, failed)
    ensures Fits(p, Step(p, w, Drive(a)), cancelled, failed || FailsRun(p, w, Drive(a)))
  {
    if w.pc == LoopTop {
      LoopTopFits(p, w, a, cancelled, failed);
    } else if w.pc == PassEnd {
      PassEndFits(p, w, a, cancelled, failed);
    } else {
      ReviewFits(p, w, a, cancelled, failed);
    }
  }

  lemma LoopTopFits(p: Plan, w: World, a: Answer, cancelled: bool, failed: bool)
    requires Inv(p, w) && w.pc == LoopTop && Fits(p, w, cancelled, failed)
    ensures Fits(p, Step(p, w, Drive(a)), cancelled, failed || FailsRun(p, w, Drive(a)))
  {
    PassBegins(p, w, a);
    var r := Step(p, w, Drive(a));
    var f := failed || FailsRun(p, w, Drive(a));
    MoreFits(p, w, cancelled, failed, cancelled, f);
    assert r.workers == w.workers && w.mem.blockers <= r.mem.blockers;
    hide Step, IsBlocked, FinalizeRun, CountersSaved, RetriesOf, AllDone, SomeCompleted, BlockersKnown, AllIdle, Fits,
      IsResting;
    RestsOnlyAtEnd(w);
    CancelledWasCancelled(p, w, cancelled, failed);
    if HasFinished(r, w.mem) {
      FinishedFits(p, w, r, w.mem, cancelled, f);
    } else {
      StillFits(p, w, r, cancelled, f);
    }
  }

  lemma PassEndFits(p: Plan, w: World, a: Answer, cancelled: bool, failed: bool)
    requires Inv(p, w) && w.pc == PassEnd && Fits(p, w, cancelled, failed)
    ensures Fits(p, Step(p, w, Drive(a)), cancelled, failed || FailsRun(p, w, Drive(a)))
  {
    PassEnds(p, w, a);
    var r := Step(p, w, Drive(a));
    var run := w.mem.(completedIterations := w.it);
    assert r.workers == w.workers;
    hide Step, IsBlocked, FinalizeRun, CountersSaved, RetriesOf, SomeCompleted, BlockersKnown, AllIdle, Fits, IsResting;
    RestsOnlyAtEnd(w);
    CancelledWasCancelled(p, w, cancelled, failed);
    if HasFinished(r, run) {
      FinishedFits(p, w, r, run, cancelled, failed);
    } else {
      StillFits(p, w, r, cancelled, failed);
    }
  }

  lemma ReviewFits(p: Plan, w: World, a: Answer, cancelled: bool, failed: bool)
    requires Inv(p, w) && (w.pc == Reviewing || w.pc == BackingOff) && Fits(p, w, cancelled, failed)
    ensures Fits(p, Step(p, w, Drive(a)), cancelled, failed || FailsRun(p, w, Drive(a)))
  {
    ReviewOutcome(p, w, a);
    var r := Step(p, w, Drive(a));
    assert r.workers == w.workers;
    hide Step, FinalizeRun, CountersSaved, RetriesOf, SomeCompleted, BlockersKnown, AllIdle, AllDone;
    CancelledWasCancelled(p, w, cancelled, failed);
    if HasFinished(r, w.mem) {
      FinishedFits(p, w, r, w.mem, cancelled, failed);
    } else if r.mem.status != Completed {
      StillFits(p, w, r, cancelled, failed);
    }
  }

  lemma PipelineFits(p: Plan, w: World, a: Answer, cancelled: bool, failed: bool)
    requires Inv(p, w) && (IsDispatch(w.pc) || IsOutcome(w.pc)) && Fits(p, w, cancelled, failed)
    ensures Fits(p, Step(p, w, Drive(a)), cancelled, failed || FailsRun(p, w, Drive(a)))
  {
    var r := Step(p, w, Drive(a));
    var f := failed || FailsRun(p, w, Drive(a));
    MoreFits(p, w, cancelled, failed, cancelled, f);
    if IsDispatch(w.pc) {
      DispatchOutcome(p, w, a);
    } else if w.pc.AwaitingTask? {
      TaskOutcome(p, w, a);
    } else {
      JudgingOutcome(p, w, a);
    }
    hide Step, IsBlocked, CountersSaved, FingerprintsKept, RetriesOf, SomeCompleted, AllIdle, AllDone, Fits, IsResting;
    RestsOnlyAtEnd(w);
    if HasFailed(r, w) && f {
      FailedFits(p, w, r, cancelled, failed);
    } else {
      StillFits(p, w, r, cancelled, f);
    }
  }

  lemma ParallelFits(p: Plan, w: World, a: Answer, cancelled: bool, failed: bool)
    requires Inv(p, w) && CanDrive(w) && IsParallel(w.pc) && Fits(p, w, cancelled, failed)
    ensures Fits(p, Step(p, w, Drive(a)), cancelled, failed || FailsRun(p, w, Drive(a)))
  {
    var r := Step(p, w, Drive(a));
    if w.pc == Collecting || w.pc == Retrying {
      JoinOutcome(p, w, a);
    } else {
      FanOutcome(p, w, a);
    }
    hide Step, IsBlocked, CountersSaved, FingerprintsKept, RetriesOf, SomeCompleted, AllIdle, AllDone, Fits, IsResting;
    RestsOnlyAtEnd(w);
    StillFits(p, w, r, cancelled, failed);
  }

  lemma WorkFits(p: Plan, w: World, k: nat, a: Answer, cancelled: bool, failed: bool)
    requires Inv(p, w) && k < p.teams && w.workers[k] != Idle && !w.pc.Down? && Fits(p, w, cancelled, failed)
    ensures Fits(p, WorkerStep(p, w, k, a), cancelled, failed || FailsRun(p, w, Work(k, a)))
  {
    var r := WorkerStep(p, w, k, a);
    var f := failed || FailsRun(p, w, Work(k, a));
    MoreFits(p, w, cancelled, failed, cancelled, f);
    BusyMeansNotIdle(w.workers, k);
    if w.workers[k] == WaitingForTask {
      CollectionOutcome(p, w, k, a);
    } else {
      RetryOutcome(p, w, k, a);
    }
    hide WorkerStep, IsBlocked, CountersSaved, FingerprintsKept, RetriesOf, SomeCompleted, AllIdle, AllDone, Fits;
    StillFits(p, w, r, cancelled, f);
  }

  lemma StepFits(p: Plan, w: World, e: Event, cancelled: bool, failed: bool)
    requires Inv(p, w) && IsEnabled(w, e) && Fits(p, w, cancelled, failed)
    ensures Fits(p, Step(p, w, e), cancelled || e == Cancel, failed || FailsRun(p, w, e))
  {
    match e
    case Drive(a) =>
      hide Step, Fits, FailsRun, CountersSaved, FingerprintsKept, WorkersBelong, AllIdle;
      if IsRecover(w.pc) {
        RecoveryFits(p, w, a, cancelled, failed);
      } else if IsPrepare(w.pc) {
        PreparationFits(p, w, a, cancelled, failed);
      } else if IsLoop(w.pc) {
        LoopFits(p, w, a, cancelled, failed);
      } else if IsDispatch(w.pc) || IsOutcome(w.pc) {
        PipelineFits(p, w, a, cancelled, failed);
      } else {
        ParallelFits(p, w, a, cancelled, failed);
      }
    case Work(k, a) =>
      hide WorkerStep, Fits, FailsRun, CountersSaved, FingerprintsKept, WorkersBelong;
      WorkFits(p, w, k, a, cancelled, failed);
    case _ => RequestFits(p, w, e, cancelled, failed);
  }

  lemma StartFits(p: Plan)
    ensures Fits(p, Start(p), false, false)
  {
  }

  lemma {:induction false} RunFits(p: Plan, w: World, es: seq<Event>, cancelled: bool, failed: bool)
    requires Inv(p, w) && IsRun(p, w, es) && Fits(p, w, cancelled, failed)
    ensures Fits(p, After(p, w, es), cancelled || EverCancelled(es), failed || EverFails(p, w, es))
    decreases |es|
  {
    hide Step, Fits, FailsRun, CountersSaved, FingerprintsKept, WorkersBelong;
    if es != [] {
      StepFits(p, w, es[0], cancelled, failed);
      StepKeepsInv(p, w, es[0]);
      RunFits(p, Step(p, w, es[0]), es[1..], cancelled || es[0] == Cancel, failed || FailsRun(p, w, es[0]));
    }
  }

  /**
   * In every reachable world, in memory and on disk: a completed run has every stage completed or skipped, a planned one
   * is a dry run, a cancelled one was cancelled, a failed one met one of the failures or ended with no stage completed,
   * and a partial one is blocked or ended with some stages completed and some not.
   */
  lemma StatusIsEarned(p: Plan, es: seq<Event>)
    requires IsRun(p, Start(p), es)
    ensures var w := After(p, Start(p), es);
            && StatusFits(p, w.mem, EverCancelled(es), EverFails(p, Start(p), es))
            && StatusFits(p, w.disk, EverCancelled(es), EverFails(p, Start(p), es))
  {
    StartHasInv(p);
    StartFits(p);
    RunFits(p, Start(p), es, false, false);
  }
}
