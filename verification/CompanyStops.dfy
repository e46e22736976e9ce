/** After a cancel or a reported blocker no stage task is posted any more, whatever happens next. */
module CompanyStops {
  import opened CompanyRecord
  import opened CompanyDriver

  // ---------------------------------------------------------------- what every run keeps

  /** Workers are busy only in a parallel pass, or after a driver failed in one. */
  predicate WorkersBelong(p: Plan, w: World) {
    w.pc.Collecting? || w.pc.Retrying? || w.pc.Ended? || AllIdle(w.workers)
  }

  function RetriesOf(stages: seq<Stage>): (rs: seq<nat>)
    ensures |rs| == |stages|
    ensures forall i :: 0 <= i < |rs| ==> rs[i] == stages[i].retries
  {
    seq(|stages|, i requires 0 <= i < |stages| => stages[i].retries)
  }

  /** Counters and blockers are persisted in the same step that changes them. */
  predicate CountersSaved(w: World) {
    && w.mem.blockers == w.disk.blockers
    && w.mem.completedIterations == w.disk.completedIterations
    && w.mem.resumeCount == w.disk.resumeCount
    && RetriesOf(w.mem.stages) == RetriesOf(w.disk.stages)
  }

  /** A blocked stage has left its fingerprint in the run. */
  predicate BlockersKnown(stages: seq<Stage>, blockers: set<string>) {
    (exists i :: 0 <= i < |stages| && stages[i].status == StageBlocked) ==> blockers != {}
  }

  predicate FingerprintsKept(w: World) {
    BlockersKnown(w.mem.stages, w.mem.blockers) && BlockersKnown(w.disk.stages, w.disk.blockers)
  }

  predicate Inv(p: Plan, w: World) {
    IsWorld(p, w) && WorkersBelong(p, w) && CountersSaved(w) && FingerprintsKept(w)
  }

  lemma BlockedByFingerprint(run: Run)
    requires BlockersKnown(run.stages, run.blockers)
    ensures IsBlocked(run) <==> run.blockers != {}
  {
  }

  /** Only a retry changes a retry count. */
  lemma RetriesUnchanged()
    ensures forall stages, s: nat, status | s < |stages| :: RetriesOf(WithStatus(stages, s, status)) == RetriesOf(stages)
    ensures forall stages, s: nat, status, task | s < |stages| ::
      RetriesOf(WithStage(stages, s, status, task)) == RetriesOf(stages)
    ensures forall mode, stages, k: nat | k < |stages| :: RetriesOf(BlockedStages(mode, stages, k)) == RetriesOf(stages)
    ensures forall stages :: RetriesOf(CancelledStages(stages)) == RetriesOf(stages)
    ensures forall stages, s, keep :: RetriesOf(SkippedAfter(stages, s, keep)) == RetriesOf(stages)
    ensures forall stages, missing :: RetriesOf(RefinedStages(stages, missing)) == RetriesOf(stages)
    ensures forall stages, missing :: RetriesOf(FailedStages(stages, missing)) == RetriesOf(stages)
    ensures forall stages, todo :: RetriesOf(StartedStages(stages, todo)) == RetriesOf(stages)
  {
  }

  /** No operation but blocking marks a stage blocked. */
  lemma BlockersStayKnown(blockers: set<string>)
    ensures forall stages, s: nat, status | s < |stages| && status != StageBlocked && BlockersKnown(stages, blockers) ::
      BlockersKnown(WithStatus(stages, s, status), blockers)
    ensures forall stages: seq<Stage>, s: nat, status, task
      | s < |stages| && (status != StageBlocked || status == stages[s].status) && BlockersKnown(stages, blockers) ::
      BlockersKnown(WithStage(stages, s, status, task), blockers)
    ensures forall stages, mode, k: nat, fingerprint | k < |stages| ::
      BlockersKnown(BlockedStages(mode, stages, k), blockers + {fingerprint})
    ensures forall stages | BlockersKnown(stages, blockers) :: BlockersKnown(CancelledStages(stages), blockers)
    ensures forall stages, s, keep | BlockersKnown(stages, blockers) ::
      BlockersKnown(SkippedAfter(stages, s, keep), blockers)
    ensures forall stages, missing | BlockersKnown(stages, blockers) ::
      BlockersKnown(RefinedStages(stages, missing), blockers)
    ensures forall stages, missing | BlockersKnown(stages, blockers) ::
      BlockersKnown(FailedStages(stages, missing), blockers)
    ensures forall stages, todo | BlockersKnown(stages, blockers) :: BlockersKnown(StartedStages(stages, todo), blockers)
    ensures forall stages, k: nat | k < |stages| && BlockersKnown(stages, blockers) ::
      BlockersKnown(RetriedStages(stages, k), blockers)
  {
  }

  lemma StartHasInv(p: Plan)
    ensures Inv(p, Start(p))
  {
  }

  lemma RecoveredKeepsInv(p: Plan, w: World, i: nat, result: TaskResult)
    requires Inv(p, w) && IsRecover(w.pc) && i < p.teams
    ensures Inv(p, Recovered(p, w, i, result))
  {
    hide IsInRange, AllIdle, RetriesOf, BlockersKnown, WithStatus;
    RetriesUnchanged();
    BlockersStayKnown(w.mem.blockers);
  }

  lemma RecoverKeepsInv(p: Plan, w: World, a: Answer)
    requires Inv(p, w) && IsRecover(w.pc)
    ensures Inv(p, RecoverStep(p, w, a))
  {
    hide Recovered, IsInRange, IsBlocked, FinalizeRun, AllCompleted, AllIdle, DecideResume, RetriesOf, BlockersKnown,
      BlockedStages;
    RetriesUnchanged();
    BlockersStayKnown(w.mem.blockers);
    if w.pc.Reconciling? && w.pc.i < p.teams {
      RecoveredKeepsInv(p, w, w.pc.i, a.result);
    }
  }

  lemma PrepareKeepsInv(p: Plan, w: World, a: Answer)
    requires Inv(p, w) && IsPrepare(w.pc)
    ensures Inv(p, PrepareStep(p, w, a))
  {
    hide IsInRange, IsBlocked, FinalizeRun, AllCompleted, AllIdle, DecideResume, IsSettled, RetriesOf, BlockersKnown,
      WithStatus, WithStage, BlockedStages, CancelledStages, SkippedAfter, RefinedStages, FailedStages,
      AnyUnavailable, AnyUnfinishedUnavailable, StartedStages, RetriedStages;
    RetriesUnchanged();
    BlockersStayKnown(w.mem.blockers);
  }

  lemma BeginPassKeepsInv(p: Plan, w: World, a: Answer)
    requires Inv(p, w) && w.pc.LoopTop?
    ensures Inv(p, BeginPass(p, w, a))
  {
    hide IsInRange, IsBlocked, FinalizeRun, AllCompleted, AllIdle, RetriesOf, BlockersKnown, RefinedStages,
      AnyUnfinishedUnavailable, Unfinished;
    RetriesUnchanged();
    BlockersStayKnown(w.mem.blockers);
  }

  lemma LoopKeepsInv(p: Plan, w: World, a: Answer)
    requires Inv(p, w) && IsLoop(w.pc)
    ensures Inv(p, LoopStep(p, w, a))
  {
    hide BeginPass, IsInRange, IsBlocked, FinalizeRun, AllIdle, IsSettled, RetriesOf, BlockersKnown;
    if w.pc.LoopTop? {
      BeginPassKeepsInv(p, w, a);
    }
  }

  lemma DispatchKeepsInv(p: Plan, w: World, a: Answer)
    requires Inv(p, w) && IsDispatch(w.pc)
    ensures Inv(p, DispatchStep(p, w, a))
  {
    hide IsBlocked, FinalizeRun, AllCompleted, AllIdle, DecideResume, IsSettled, RetriesOf, BlockersKnown, WithStatus,
      WithStage, BlockedStages, CancelledStages, SkippedAfter, RefinedStages, FailedStages, AnyUnavailable,
      AnyUnfinishedUnavailable, StartedStages, RetriedStages;
    RetriesUnchanged();
    BlockersStayKnown(w.mem.blockers);
  }

  lemma OutcomeKeepsInv(p: Plan, w: World, a: Answer)
    requires Inv(p, w) && IsOutcome(w.pc)
    ensures Inv(p, OutcomeStep(p, w, a))
  {
    hide IsBlocked, FinalizeRun, AllCompleted, AllIdle, DecideResume, IsSettled, RetriesOf, BlockersKnown, WithStatus,
      WithStage, BlockedStages, CancelledStages, SkippedAfter, RefinedStages, FailedStages, AnyUnavailable,
      AnyUnfinishedUnavailable, StartedStages, RetriedStages;
    RetriesUnchanged();
    BlockersStayKnown(w.mem.blockers);
  }

  lemma ParallelKeepsInv(p: Plan, w: World, a: Answer)
    requires Inv(p, w) && CanDrive(w)
    ensures Inv(p, ParallelStep(p, w, a))
  {
    hide IsBlocked, FinalizeRun, AllCompleted, DecideResume, IsSettled, RetriesOf, BlockersKnown, WithStatus,
      WithStage, BlockedStages, CancelledStages, SkippedAfter, RefinedStages, FailedStages, AnyUnavailable,
      AnyUnfinishedUnavailable, StartedStages, RetriedStages;
    RetriesUnchanged();
    BlockersStayKnown(w.mem.blockers);
  }

  lemma BusyMeansNotIdle(ws: seq<Worker>, k: nat)
    requires k < |ws|
    ensures ws[k] != Idle ==> !AllIdle(ws)
  {
  }

  lemma CollectedKeepsInv(p: Plan, w: World, k: nat, a: Answer)
    requires Inv(p, w) && k < p.teams
    requires w.pc.Collecting? || w.pc.Retrying? || w.pc.Ended?
    ensures Inv(p, Collected(p, w, k, a))
  {
    hide IsInRange, IsBlocked, FinalizeRun, AllCompleted, DecideResume, IsSettled, RetriesOf, BlockersKnown,
      WithStatus, WithStage, BlockedStages, CancelledStages, SkippedAfter, RefinedStages, FailedStages,
      AnyUnavailable, AnyUnfinishedUnavailable, StartedStages, RetriedStages;
    RetriesUnchanged();
    BlockersStayKnown(w.mem.blockers);
  }

  lemma WorkKeepsInv(p: Plan, w: World, k: nat, a: Answer)
    requires Inv(p, w) && k < p.teams && w.workers[k] != Idle
    ensures Inv(p, WorkerStep(p, w, k, a))
  {
    hide Collected, IsInRange, IsBlocked, FinalizeRun, AllCompleted, DecideResume, IsSettled, RetriesOf,
      BlockersKnown, WithStatus, WithStage, BlockedStages, CancelledStages, SkippedAfter, RefinedStages, FailedStages,
      AnyUnavailable, AnyUnfinishedUnavailable, StartedStages, RetriedStages;
    RetriesUnchanged();
    BlockersStayKnown(w.mem.blockers);
    BusyMeansNotIdle(w.workers, k);
    if w.workers[k] == WaitingForTask {
      CollectedKeepsInv(p, SetWorker(w, k, Idle), k, a);
    }
  }

  lemma StepKeepsInv(p: Plan, w: World, e: Event)
    requires Inv(p, w) && IsEnabled(w, e)
    ensures Inv(p, Step(p, w, e))
  {
    hide WorkerStep, DriveStep, IsBlocked, CancelledStages, RetriesOf, BlockersKnown;
    RetriesUnchanged();
    BlockersStayKnown(w.mem.blockers);
    match e
    case Drive(a) => DriveKeepsInv(p, w, a);
    case Work(k, a) => WorkKeepsInv(p, w, k, a);
    case _ =>
  }

  lemma DriveKeepsInv(p: Plan, w: World, a: Answer)
    requires Inv(p, w) && CanDrive(w)
    ensures Inv(p, DriveStep(p, w, a))
  {
    hide RecoverStep, PrepareStep, LoopStep, DispatchStep, OutcomeStep, ParallelStep, Inv;
    if IsRecover(w.pc) {
      RecoverKeepsInv(p, w, a);
    } else if IsPrepare(w.pc) {
      PrepareKeepsInv(p, w, a);
    } else if IsLoop(w.pc) {
      LoopKeepsInv(p, w, a);
    } else if IsDispatch(w.pc) {
      DispatchKeepsInv(p, w, a);
    } else if IsOutcome(w.pc) {
      OutcomeKeepsInv(p, w, a);
    } else {
      ParallelKeepsInv(p, w, a);
    }
  }

  lemma {:induction false} RunKeepsInv(p: Plan, w: World, es: seq<Event>)
    requires Inv(p, w) && IsRun(p, w, es)
    ensures Inv(p, After(p, w, es))
    decreases |es|
  {
    hide Step, CountersSaved, WorkersBelong;
    if es != [] {
      StepKeepsInv(p, w, es[0]);
      RunKeepsInv(p, Step(p, w, es[0]), es[1..]);
    }
  }

  // ---------------------------------------------------------------- posts need a running, unblocked run

  /** A post is made only while the run is neither cancelled nor blocked, one at a time. */
  lemma PostsOnlyWhileGoing(p: Plan, w: World, e: Event)
    requires Inv(p, w) && IsEnabled(w, e)
    ensures Step(p, w, e).posts == w.posts || (!IsStopped(w.mem) && Step(p, w, e).posts == w.posts + 1)
  {
    hide DriveStep, WorkerStep, IsStopped;
    match e
    case Drive(a) => DrivePosts(p, w, a);
    case Work(k, a) => WorkPosts(p, w, k, a);
    case _ =>
  }

  lemma DrivePosts(p: Plan, w: World, a: Answer)
    requires IsWorld(p, w)
    ensures var r := DriveStep(p, w, a);
            r.posts == w.posts
            || (!IsStopped(w.mem) && r.posts == w.posts + 1 && (w.pc.Attempting? || w.pc.FanChoosing?))
  {
    hide RecoverStep, PrepareStep, LoopStep, DispatchStep, OutcomeStep, ParallelStep;
  }

  lemma WorkPosts(p: Plan, w: World, k: nat, a: Answer)
    requires Inv(p, w) && k < p.teams
    ensures var r := WorkerStep(p, w, k, a);
            r.posts == w.posts || (!IsStopped(w.mem) && r.posts == w.posts + 1 && w.workers[k] == ChoosingProvider)
  {
    hide FinalizeRun, BlockRun;
    BlockedByFingerprint(w.mem);
  }

  // ---------------------------------------------------------------- halted for good

  /** Past the planning discussion. */
  predicate IsLate(pc: Pc) {
    !pc.Down? && !pc.Booting? && !pc.Reconciling? && !pc.Discussing?
  }

  /**
   * The planning discussion is over, or is not followed by a decomposition because a restarted run already has all its
   * subtasks. From here on `status` is not put back to an active value once it is `cancelled`.
   */
  predicate IsPastDecomposing(w: World) {
    !w.pc.Down? && (IsLate(w.pc) || (w.mem.decomposed && w.pc != Discussing(false)))
  }

  /** The run is cancelled or finished, and stays so. */
  predicate IsParked(w: World) {
    || (w.pc.Down? && IsFinal(w.disk.status))
    || (IsPastDecomposing(w) && w.mem.status == Cancelled && IsFinal(w.disk.status))
    || (w.pc.Ended? && IsFinal(w.mem.status) && IsFinal(w.disk.status) && AllIdle(w.workers))
  }

  /** No stage task can be posted from here on. */
  predicate IsHalted(w: World) {
    w.mem.blockers != {} || IsParked(w)
  }

  lemma RecoverStaysHalted(p: Plan, w: World, a: Answer)
    requires Inv(p, w) && IsRecover(w.pc) && IsParked(w)
    ensures IsHalted(RecoverStep(p, w, a))
  {
    hide IsBlocked, CountersSaved, FingerprintsKept, AllIdle, AllCompleted, WithStatus, BlockedStages, FinalizeRun;
  }

  lemma PrepareStaysHalted(p: Plan, w: World, a: Answer)
    requires Inv(p, w) && IsPrepare(w.pc) && IsParked(w)
    ensures IsHalted(PrepareStep(p, w, a))
  {
    hide IsBlocked, CountersSaved, FingerprintsKept, AllIdle, AllCompleted, IsSettled, WithStatus, WithStage,
      BlockedStages, RefinedStages, FailedStages, AnyUnavailable, AnyUnfinishedUnavailable, SkippedAfter,
      StartedStages, FinalizeRun;
  }

  lemma LoopStaysHalted(p: Plan, w: World, a: Answer)
    requires Inv(p, w) && IsLoop(w.pc) && IsParked(w)
    ensures IsHalted(LoopStep(p, w, a))
  {
    hide IsBlocked, CountersSaved, FingerprintsKept, AllIdle, AllCompleted, IsSettled, WithStatus, WithStage,
      BlockedStages, RefinedStages, FailedStages, AnyUnavailable, AnyUnfinishedUnavailable, SkippedAfter,
      StartedStages, FinalizeRun;
  }

  lemma DispatchStaysHalted(p: Plan, w: World, a: Answer)
    requires Inv(p, w) && IsDispatch(w.pc) && IsParked(w)
    ensures IsHalted(DispatchStep(p, w, a))
  {
    hide IsBlocked, CountersSaved, FingerprintsKept, AllIdle, AllCompleted, IsSettled, WithStatus, WithStage,
      BlockedStages, RefinedStages, FailedStages, AnyUnavailable, AnyUnfinishedUnavailable, SkippedAfter,
      StartedStages, FinalizeRun;
  }

  lemma OutcomeStaysHalted(p: Plan, w: World, a: Answer)
    requires Inv(p, w) && IsOutcome(w.pc) && IsParked(w)
    ensures IsHalted(OutcomeStep(p, w, a))
  {
    hide IsBlocked, CountersSaved, FingerprintsKept, AllIdle, AllCompleted, IsSettled, WithStatus, WithStage,
      BlockedStages, RefinedStages, FailedStages, AnyUnavailable, AnyUnfinishedUnavailable, SkippedAfter,
      StartedStages, FinalizeRun;
  }

  lemma ParallelStaysHalted(p: Plan, w: World, a: Answer)
    requires Inv(p, w) && CanDrive(w) && !w.pc.Ended? && IsParked(w)
    ensures IsHalted(ParallelStep(p, w, a))
  {
    hide IsBlocked, CountersSaved, FingerprintsKept, AllIdle, AllCompleted, IsSettled, WithStatus, WithStage,
      BlockedStages, RefinedStages, FailedStages, AnyUnavailable, AnyUnfinishedUnavailable, SkippedAfter,
      StartedStages, FinalizeRun;
  }

  lemma WorkStaysHalted(p: Plan, w: World, k: nat, a: Answer)
    requires Inv(p, w) && k < p.teams && w.workers[k] != Idle && !w.pc.Down? && IsParked(w)
    ensures IsHalted(WorkerStep(p, w, k, a))
  {
    hide IsBlocked, CountersSaved, FingerprintsKept, WithStatus, WithStage, BlockedStages, RetriedStages;
  }

  /** Nothing takes a halted run out of that state, not even a crash and a restart. */
  lemma HaltedStaysHalted(p: Plan, w: World, e: Event)
    requires Inv(p, w) && IsEnabled(w, e) && IsHalted(w)
    ensures IsHalted(Step(p, w, e)) && Step(p, w, e).posts == w.posts
  {
    PostsOnlyWhileGoing(p, w, e);
    BlockedByFingerprint(w.mem);
    if w.mem.blockers != {} {
      BlockersNeverShrink(p, w, e);
    } else {
      ParkedStaysHalted(p, w, e);
    }
  }

  /** Fingerprints are never removed; a restart reads them back. */
  lemma BlockersNeverShrink(p: Plan, w: World, e: Event)
    requires Inv(p, w) && IsEnabled(w, e)
    ensures w.mem.blockers <= Step(p, w, e).mem.blockers
  {
    hide DriveStep, WorkerStep;
  }

  lemma ParkedStaysHalted(p: Plan, w: World, e: Event)
    requires Inv(p, w) && IsEnabled(w, e) && IsParked(w)
    ensures IsHalted(Step(p, w, e)) && Step(p, w, e).posts == w.posts
  {
    hide WorkerStep;
    match e
    case Drive(a) =>
      hide RecoverStep, PrepareStep, LoopStep, DispatchStep, OutcomeStep, ParallelStep, IsHalted;
      DrivePosts(p, w, a);
      if IsRecover(w.pc) {
        RecoverStaysHalted(p, w, a);
      } else if IsPrepare(w.pc) {
        PrepareStaysHalted(p, w, a);
      } else if IsLoop(w.pc) {
        LoopStaysHalted(p, w, a);
      } else if IsDispatch(w.pc) {
        DispatchStaysHalted(p, w, a);
      } else if IsOutcome(w.pc) {
        OutcomeStaysHalted(p, w, a);
      } else {
        ParallelStaysHalted(p, w, a);
      }
    case Work(k, a) =>
      WorkStaysHalted(p, w, k, a);
      WorkPosts(p, w, k, a);
    case _ =>
  }

  lemma {:induction false} HaltedForGood(p: Plan, w: World, es: seq<Event>)
    requires Inv(p, w) && IsHalted(w) && IsRun(p, w, es)
    ensures After(p, w, es).posts == w.posts
    decreases |es|
  {
    hide Step, IsHalted, CountersSaved, FingerprintsKept, WorkersBelong;
    if es != [] {
      HaltedStaysHalted(p, w, es[0]);
      StepKeepsInv(p, w, es[0]);
      HaltedForGood(p, Step(p, w, es[0]), es[1..]);
    }
  }

  // ---------------------------------------------------------------- the two stop events

  /**
   * Once a cancel has reached an unfinished run whose status no decomposition will overwrite, no stage task is posted
   * any more, in either mode, whatever the driver, the providers, the tasks, further requests, crashes and restarts do.
   */
  lemma NoPostAfterCancel(p: Plan, before: seq<Event>, after: seq<Event>)
    requires IsRun(p, Start(p), before)
    requires var w := After(p, Start(p), before); IsPastDecomposing(w) && !IsFinal(w.mem.status)
    requires IsRun(p, Step(p, After(p, Start(p), before), Cancel), after)
    ensures var w := After(p, Start(p), before); After(p, Step(p, w, Cancel), after).posts == w.posts
  {
    StartHasInv(p);
    RunKeepsInv(p, Start(p), before);
    var w := After(p, Start(p), before);
    StepKeepsInv(p, w, Cancel);
    HaltedForGood(p, Step(p, w, Cancel), after);
  }

  /** The event is a task result with a blocker that the driver does not retry. */
  predicate ReportsBlocker(w: World, e: Event) {
    match e
    case Drive(a) =>
      a.result.blocker.Some? && (a.result.status == TaskTimedOut ==> a.ok)
      && (match w.pc
          case AwaitingTask(s, i, count) => !a.result.isRetryable
          case Reconciling(i) => i < |w.mem.stages| && w.mem.stages[i].task && IsActive(w.mem.stages[i])
          case _ => false)
    case Work(k, a) =>
      a.result.blocker.Some? && (a.result.status == TaskTimedOut ==> a.ok) && !a.result.isRetryable
      && k < |w.workers| && w.workers[k] == WaitingForTask
    case _ => false
  }

  /** The same once any stage has reported a blocker, at any time; a restart included, since fingerprints are persisted. */
  lemma NoPostAfterBlocker(p: Plan, before: seq<Event>, e: Event, after: seq<Event>)
    requires IsRun(p, Start(p), before)
    requires IsEnabled(After(p, Start(p), before), e) && ReportsBlocker(After(p, Start(p), before), e)
    requires IsRun(p, Step(p, After(p, Start(p), before), e), after)
    ensures var w := After(p, Start(p), before); After(p, Step(p, w, e), after).posts == w.posts
  {
    StartHasInv(p);
    RunKeepsInv(p, Start(p), before);
    var w := After(p, Start(p), before);
    StepKeepsInv(p, w, e);
    BlockerIsRecorded(p, w, e);
    PostsOnlyWhileGoing(p, w, e);
    HaltedForGood(p, Step(p, w, e), after);
  }

  lemma BlockerIsRecorded(p: Plan, w: World, e: Event)
    requires Inv(p, w) && IsEnabled(w, e) && ReportsBlocker(w, e)
    ensures Step(p, w, e).mem.blockers != {} && Step(p, w, e).posts == w.posts
  {
    hide CountersSaved, FingerprintsKept, WorkersBelong, BlockedStages, WithStatus;
  }
}
