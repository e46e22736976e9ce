/** In a pipeline the stages are dispatched strictly in order, and exactly when a stage counts as done unjudged. */
module CompanyOrder {
  import opened Text
  import opened CompanyRecord
  import opened CompanyDriver
  import opened CompanyStops

  // ---------------------------------------------------------------- the shape of the stage list

  /** Completed up to `d`; untouched after it. */
  predicate IsClean(stages: seq<Stage>, d: nat) {
    && d <= |stages|
    && (forall i :: 0 <= i < |stages| && i < d ==> stages[i].status == StageCompleted)
    && (forall i :: 0 <= i < |stages| && d < i ==> stages[i].status != StageCompleted && !stages[i].task)
  }

  predicate CompletedUpTo(stages: seq<Stage>, s: nat) {
    forall i :: 0 <= i < s && i < |stages| ==> stages[i].status == StageCompleted
  }

  ghost predicate HasFront(stages: seq<Stage>) {
    exists d: nat :: IsClean(stages, d)
  }

  lemma OperationsKeepClean()
    ensures forall stages: seq<Stage>, d: nat, status | d < |stages| && IsClean(stages, d) ::
      IsClean(WithStatus(stages, d, status), d)
    ensures forall stages: seq<Stage>, d: nat, status, task | d < |stages| && IsClean(stages, d) ::
      IsClean(WithStage(stages, d, status, task), d)
    ensures forall mode, stages: seq<Stage>, d: nat | d < |stages| && IsClean(stages, d) ::
      IsClean(BlockedStages(mode, stages, d), d)
    ensures forall stages, d: nat, keep | IsClean(stages, d) :: IsClean(SkippedAfter(stages, d, keep), d)
    ensures forall stages, d: nat | IsClean(stages, d) :: IsClean(CancelledStages(stages), d)
    ensures forall stages, d: nat, missing | IsClean(stages, d) :: IsClean(RefinedStages(stages, missing), d)
  {
  }

  /** Where every earlier stage is completed and this one is not, the front is here. */
  lemma FrontIsHere(stages: seq<Stage>, s: nat)
    requires HasFront(stages) && s < |stages| && stages[s].status != StageCompleted
    requires CompletedUpTo(stages, s)
    ensures IsClean(stages, s)
  {
    var d: nat :| IsClean(stages, d);
    assert d + 1 < |stages| ==> stages[d + 1].status != StageCompleted;
    assert d < s ==> stages[d].status == StageCompleted;
  }

  // ---------------------------------------------------------------- settled stages

  /** The stages that count as done, judged or not. */
  function Settled(w: World): set<nat> {
    w.judged + w.slipped
  }

  predicate AreCompleted(stages: seq<Stage>, settled: set<nat>) {
    forall i :: i in settled ==> i < |stages| && stages[i].status == StageCompleted
  }

  /** The settled stages are the completed ones, leaving out stage `s`. */
  predicate Tally(stages: seq<Stage>, settled: set<nat>, s: int) {
    && AreCompleted(stages, settled)
    && s !in settled
    && forall i :: 0 <= i < |stages| && i != s && stages[i].status == StageCompleted ==> i in settled
  }

  const NO_STAGE := -1

  lemma OperationsKeepTally(settled: set<nat>)
    ensures forall stages: seq<Stage>, s: nat, status | s < |stages| && Tally(stages, settled, s) ::
      Tally(WithStatus(stages, s, status), settled, s)
    ensures forall stages: seq<Stage>, s: nat, status, task | s < |stages| && Tally(stages, settled, s) ::
      Tally(WithStage(stages, s, status, task), settled, s)
    ensures forall mode, stages: seq<Stage>, s: nat | s < |stages| && Tally(stages, settled, s) ::
      Tally(BlockedStages(mode, stages, s), settled, s)
    ensures forall stages, s | Tally(stages, settled, s) :: Tally(CancelledStages(stages), settled, s)
    ensures forall stages, s, missing | Tally(stages, settled, s) :: Tally(RefinedStages(stages, missing), settled, s)
  {
  }

  lemma TallyMeans(settled: set<nat>)
    ensures forall stages, s | Tally(stages, settled, s) :: AreCompleted(stages, settled)
  {
  }

  /** A stage with a live task is the front. */
  lemma TaskIsAtFront(stages: seq<Stage>, i: nat)
    requires i < |stages| && stages[i].task && IsActive(stages[i])
    ensures forall d: nat | IsClean(stages, d) :: d == i
  {
  }

  lemma NoneFailed(stages: seq<Stage>, missing: set<nat>)
    ensures !AnyUnavailable(stages, missing) ==> FailedStages(stages, missing) == stages
  {
  }

  /** Taking stage `s` in hand, and leaving it unfinished. */
  lemma TallyAround(stages: seq<Stage>, settled: set<nat>, s: nat)
    requires s < |stages| && stages[s].status != StageCompleted
    ensures Tally(stages, settled, s) <==> Tally(stages, settled, NO_STAGE)
  {
  }

  /** Settling the completed stage `s`, and skipping what follows if it was rejected. */
  lemma TallySettled(stages: seq<Stage>, settled: set<nat>, s: nat)
    requires s < |stages| && stages[s].status == StageCompleted && Tally(stages, settled, s) && IsClean(stages, s)
    ensures Tally(stages, settled + {s}, NO_STAGE)
    ensures Tally(SkippedAfter(stages, s, false), settled + {s}, NO_STAGE)
    ensures CompletedUpTo(stages, s + 1)
  {
  }

  /** While stage `s` is in hand, the settled stages are exactly the earlier ones. */
  lemma SettledAreEarlier(stages: seq<Stage>, settled: set<nat>, s: nat)
    requires s < |stages| && IsClean(stages, s) && Tally(stages, settled, s)
    ensures forall j: nat :: j in settled <==> j < s
  {
  }

  /** They are therefore completed in any other list with the same front. */
  lemma EarlierAreCompleted(stages: seq<Stage>, settled: set<nat>, s: nat, other: seq<Stage>)
    requires s < |stages| == |other| && IsClean(stages, s) && Tally(stages, settled, s) && IsClean(other, s)
    ensures AreCompleted(other, settled)
  {
  }

  lemma StatusIsSet(stages: seq<Stage>, s: nat)
    requires s < |stages|
    ensures forall status :: WithStatus(stages, s, status)[s].status == status
    ensures forall status, task :: WithStage(stages, s, status, task)[s].status == status
  {
  }

  // ---------------------------------------------------------------- the invariant

  predicate IsHalting(run: Run) {
    run.status == Cancelled || run.blockers != {}
  }

  ghost predicate SameFront(a: seq<Stage>, b: seq<Stage>) {
    exists d: nat :: IsClean(a, d) && IsClean(b, d)
  }

  /** With a stage in hand: it is the front, and the settled stages are those before it. */
  predicate StageInHand(w: World, s: nat) {
    && s < |w.mem.stages|
    && IsClean(w.mem.stages, s) && IsClean(w.disk.stages, s) && Tally(w.mem.stages, Settled(w), s)
    && (w.pc.Choosing? || w.pc.AwaitingTask? || w.pc.Judging? ==> w.mem.stages == w.disk.stages)
    && (w.pc.Choosing? || w.pc.AwaitingTask? ==> w.mem.stages[s].status != StageCompleted)
    && (w.pc.Judging? ==> w.mem.stages[s].status == StageStatusOf(w.pc.r.status))
  }

  ghost predicate Placed(w: World) {
    var settled := Settled(w);
    match w.pc
    case Down => IsFinal(w.disk.status) || (HasFront(w.disk.stages) && Tally(w.disk.stages, settled, NO_STAGE))
    case Ended => IsFinal(w.disk.status) || (HasFront(w.disk.stages) && AreCompleted(w.disk.stages, settled))
    case PassEnd =>
      && SameFront(w.mem.stages, w.disk.stages)
      && AreCompleted(w.mem.stages, settled) && AreCompleted(w.disk.stages, settled)
      && (IsHalting(w.mem) || Tally(w.mem.stages, settled, NO_STAGE))
    case Choosing(s) => StageInHand(w, s)
    case Attempting(s, i, count) => StageInHand(w, s)
    case Posting(s, i, count) => StageInHand(w, s)
    case AwaitingTask(s, i, count) => StageInHand(w, s)
    case Judging(s, i, count, r) => StageInHand(w, s)
    case _ =>
      && w.mem.stages == w.disk.stages && HasFront(w.mem.stages) && Tally(w.mem.stages, settled, NO_STAGE)
      && (w.pc.StageHead? ==> CompletedUpTo(w.mem.stages, w.pc.s))
  }

  /** Which stages are done and where the driver is; no stage is both judged and slipped through. */
  ghost predicate Ordered(w: World) {
    Placed(w) && w.judged !! w.slipped
  }

  /** A pipeline has no workers and is at no step of a parallel pass. */
  predicate IsPipelineWorld(p: Plan, w: World) {
    && p.mode == Pipeline
    && Inv(p, w)
    && !IsParallel(w.pc)
    && AllIdle(w.workers)
  }

  lemma RecoveredKeepsOrder(p: Plan, w: World, i: nat, result: TaskResult)
    requires IsPipelineWorld(p, w) && w.pc == Reconciling(i) && Ordered(w)
    requires i < p.teams && w.mem.stages[i].task && IsActive(w.mem.stages[i])
    ensures Ordered(Recovered(p, w, i, result))
  {
    hide IsClean, Tally, AreCompleted, WithStatus, AllIdle, RetriesOf, WorkersBelong, CountersSaved, FingerprintsKept;
    OperationsKeepClean();
    TaskIsAtFront(w.mem.stages, i);
    SettlingByRecovery(w.mem.stages, Settled(w), i);
    assert (w.judged + {i}) + w.slipped == Settled(w) + {i} == w.judged + (w.slipped + {i});
    var d: nat :| IsClean(w.mem.stages, d);
  }

  lemma SettlingByRecovery(stages: seq<Stage>, settled: set<nat>, i: nat)
    requires i < |stages| && stages[i].status != StageCompleted && Tally(stages, settled, NO_STAGE)
    ensures i !in settled && Tally(WithStatus(stages, i, StageCompleted), settled + {i}, NO_STAGE)
    ensures forall status | status != StageCompleted :: Tally(WithStatus(stages, i, status), settled, NO_STAGE)
  {
  }

  /** A blocked stage, and what follows it, is not done. */
  lemma BlockingKeepsTally(mode: Mode, stages: seq<Stage>, settled: set<nat>, i: nat)
    requires i < |stages| && stages[i].status != StageCompleted && Tally(stages, settled, NO_STAGE)
    ensures Tally(BlockedStages(mode, stages, i), settled, NO_STAGE)
  {
  }

  lemma RecoverKeepsOrder(p: Plan, w: World, a: Answer)
    requires IsPipelineWorld(p, w) && IsRecover(w.pc) && Ordered(w)
    ensures Ordered(RecoverStep(p, w, a))
  {
    hide IsClean, Tally, AreCompleted, IsBlocked, FinalizeRun, AllCompleted, AllIdle, RetriesOf, WithStatus, WithStage,
      BlockedStages, SkippedAfter, RefinedStages, AnyUnavailable, AnyUnfinishedUnavailable, WorkersBelong,
      CountersSaved, FingerprintsKept, Recovered;
    OperationsKeepClean();
    OperationsKeepTally(Settled(w));
    TallyMeans(Settled(w));
    var d: nat :| IsClean(w.mem.stages, d);
    if w.pc.Reconciling? && w.pc.i < p.teams && w.mem.stages[w.pc.i].task && IsActive(w.mem.stages[w.pc.i]) {
      TaskIsAtFront(w.mem.stages, w.pc.i);
      BlockingKeepsTally(p.mode, w.mem.stages, Settled(w), w.pc.i);
      RecoveredKeepsOrder(p, w, w.pc.i, a.result);
    }
  }

  lemma PrepareKeepsOrder(p: Plan, w: World, a: Answer)
    requires IsPipelineWorld(p, w) && IsPrepare(w.pc) && Ordered(w)
    ensures Ordered(PrepareStep(p, w, a))
  {
    hide IsClean, Tally, AreCompleted, IsBlocked, FinalizeRun, AllCompleted, AllIdle, RetriesOf, WithStatus, WithStage,
      BlockedStages, SkippedAfter, RefinedStages, AnyUnavailable, AnyUnfinishedUnavailable, WorkersBelong,
      CountersSaved, FingerprintsKept, FailedStages;
    OperationsKeepClean();
    OperationsKeepTally(Settled(w));
    TallyMeans(Settled(w));
    NoneFailed(w.mem.stages, a.unavailable);
  }

  lemma OneMoreCompleted(stages: seq<Stage>, s: nat)
    requires s < |stages|
    ensures CompletedUpTo(stages, s + 1) <==> CompletedUpTo(stages, s) && stages[s].status == StageCompleted
  {
  }

  lemma EmptyPrefix(stages: seq<Stage>)
    ensures CompletedUpTo(stages, 0)
  {
  }

  /** A single list has the same front as itself. */
  lemma FrontOfBoth(stages: seq<Stage>)
    ensures HasFront(stages) <==> SameFront(stages, stages)
  {
  }

  lemma BeginPassKeepsOrder(p: Plan, w: World, a: Answer)
    requires IsPipelineWorld(p, w) && w.pc.LoopTop? && Ordered(w)
    ensures Ordered(BeginPass(p, w, a))
  {
    hide IsClean, Tally, AreCompleted, IsBlocked, FinalizeRun, AllCompleted, AllIdle, RetriesOf, WithStatus, WithStage,
      BlockedStages, SkippedAfter, RefinedStages, AnyUnavailable, AnyUnfinishedUnavailable, WorkersBelong,
      CountersSaved, FingerprintsKept, CompletedUpTo;
    OperationsKeepClean();
    OperationsKeepTally(Settled(w));
    TallyMeans(Settled(w));
    var d: nat :| IsClean(w.mem.stages, d);
    assert IsClean(RefinedStages(w.mem.stages, a.unavailable), d);
    EmptyPrefix(w.mem.stages);
    EmptyPrefix(RefinedStages(w.mem.stages, a.unavailable));
  }

  lemma EndPassKeepsOrder(p: Plan, w: World, a: Answer)
    requires IsPipelineWorld(p, w) && w.pc.PassEnd? && Ordered(w)
    ensures Ordered(EndPass(p, w))
  {
    hide IsClean, Tally, AreCompleted, IsBlocked, FinalizeRun, AllCompleted, AllIdle, RetriesOf, WithStatus, WithStage,
      BlockedStages, SkippedAfter, RefinedStages, AnyUnavailable, AnyUnfinishedUnavailable, WorkersBelong,
      CountersSaved, IsSettled;
    OperationsKeepClean();
    OperationsKeepTally(Settled(w));
    TallyMeans(Settled(w));
    BlockedByFingerprint(w.mem);
    BlockedByFingerprint(w.mem.(completedIterations := w.it));
    var d: nat :| IsClean(w.mem.stages, d) && IsClean(w.disk.stages, d);
  }

  lemma LoopKeepsOrder(p: Plan, w: World, a: Answer)
    requires IsPipelineWorld(p, w) && IsLoop(w.pc) && Ordered(w)
    ensures Ordered(LoopStep(p, w, a))
  {
    hide BeginPass, EndPass, IsClean, Tally, AreCompleted, Inv, AllIdle, FinalizeRun;
    if w.pc.LoopTop? {
      BeginPassKeepsOrder(p, w, a);
    } else if w.pc.PassEnd? {
      EndPassKeepsOrder(p, w, a);
    }
  }

  lemma HeadKeepsOrder(p: Plan, w: World, a: Answer)
    requires IsPipelineWorld(p, w) && (w.pc.StageHead? || w.pc.Choosing?) && Ordered(w)
    ensures Ordered(DispatchStep(p, w, a))
  {
    hide IsClean, Tally, AreCompleted, IsBlocked, FinalizeRun, AllCompleted, AllIdle, RetriesOf, WithStatus, WithStage,
      BlockedStages, SkippedAfter, RefinedStages, AnyUnavailable, AnyUnfinishedUnavailable, WorkersBelong,
      CountersSaved, CompletedUpTo;
    OperationsKeepClean();
    OperationsKeepTally(Settled(w));
    TallyMeans(Settled(w));
    BlockedByFingerprint(w.mem);
    FrontOfBoth(w.mem.stages);
    var s := w.pc.s;
    if s < p.teams {
      StatusIsSet(w.mem.stages, s);
      OneMoreCompleted(w.mem.stages, s);
      if w.pc.StageHead? && w.mem.stages[s].status != StageCompleted {
        FrontIsHere(w.mem.stages, s);
        TallyAround(w.mem.stages, Settled(w), s);
      }
      TallyAround(WithStatus(w.mem.stages, s, StageFailed), Settled(w), s);
    }
  }

  lemma AttemptKeepsOrder(p: Plan, w: World, a: Answer)
    requires IsPipelineWorld(p, w) && (w.pc.Attempting? || w.pc.Posting?) && Ordered(w)
    ensures Ordered(DispatchStep(p, w, a))
  {
    hide IsClean, Tally, AreCompleted, IsBlocked, FinalizeRun, AllCompleted, AllIdle, RetriesOf, WithStatus, WithStage,
      BlockedStages, SkippedAfter, RefinedStages, AnyUnavailable, AnyUnfinishedUnavailable, WorkersBelong,
      CountersSaved, CompletedUpTo;
    OperationsKeepClean();
    OperationsKeepTally(Settled(w));
    TallyMeans(Settled(w));
    BlockedByFingerprint(w.mem);
    var s := w.pc.s;
    StatusIsSet(w.mem.stages, s);
    EarlierAreCompleted(w.mem.stages, Settled(w), s, w.disk.stages);
    TallyAround(WithStatus(w.mem.stages, s, StageFailed), Settled(w), s);
    TallyAround(WithStage(w.mem.stages, s, StageFailed, a.stored), Settled(w), s);
  }

  lemma TaskEndedKeepsOrder(p: Plan, w: World, a: Answer)
    requires IsPipelineWorld(p, w) && w.pc.AwaitingTask? && Ordered(w)
    ensures Ordered(OutcomeStep(p, w, a))
  {
    hide IsClean, Tally, AreCompleted, IsBlocked, FinalizeRun, AllCompleted, AllIdle, RetriesOf, WithStatus, WithStage,
      BlockedStages, SkippedAfter, RefinedStages, AnyUnavailable, AnyUnfinishedUnavailable, WorkersBelong,
      CountersSaved, FingerprintsKept, CompletedUpTo;
    OperationsKeepClean();
    OperationsKeepTally(Settled(w));
    TallyMeans(Settled(w));
    var s := w.pc.s;
    StatusIsSet(w.mem.stages, s);
    TallyAround(WithStatus(w.mem.stages, s, StageCancelled), Settled(w), s);
  }

  lemma JudgeKeepsOrder(p: Plan, w: World, a: Answer)
    requires IsPipelineWorld(p, w) && w.pc.Judging? && Ordered(w)
    ensures Ordered(OutcomeStep(p, w, a))
  {
    hide IsClean, Tally, AreCompleted, IsBlocked, FinalizeRun, AllCompleted, AllIdle, RetriesOf, WithStatus, WithStage,
      BlockedStages, SkippedAfter, RefinedStages, AnyUnavailable, AnyUnfinishedUnavailable, WorkersBelong,
      CountersSaved, FingerprintsKept, CompletedUpTo;
    OperationsKeepClean();
    OperationsKeepTally(Settled(w));
    TallyMeans(Settled(w));
    var s := w.pc.s;
    StatusIsSet(w.mem.stages, s);
    TallyAround(WithStatus(w.mem.stages, s, StageFailed), Settled(w), s);
    if w.mem.stages[s].status == StageCompleted {
      TallySettled(w.mem.stages, Settled(w), s);
      TallyMeans(Settled(w) + {s});
      assert (w.judged + {s}) + w.slipped == Settled(w) + {s};
      assert s !in Settled(w) by {
        SettledAreEarlier(w.mem.stages, Settled(w), s);
      }
    }
  }

  lemma DriveKeepsOrder(p: Plan, w: World, a: Answer)
    requires IsPipelineWorld(p, w) && CanDrive(w) && Ordered(w)
    ensures Ordered(DriveStep(p, w, a))
  {
    hide RecoverStep, PrepareStep, LoopStep, DispatchStep, OutcomeStep, ParallelStep, Ordered, Inv, AllIdle;
    if IsRecover(w.pc) {
      RecoverKeepsOrder(p, w, a);
    } else if IsPrepare(w.pc) {
      PrepareKeepsOrder(p, w, a);
    } else if IsLoop(w.pc) {
      LoopKeepsOrder(p, w, a);
    } else if w.pc.StageHead? || w.pc.Choosing? {
      HeadKeepsOrder(p, w, a);
    } else if IsDispatch(w.pc) {
      AttemptKeepsOrder(p, w, a);
    } else if w.pc.Judging? {
      JudgeKeepsOrder(p, w, a);
    } else {
      TaskEndedKeepsOrder(p, w, a);
    }
  }

  lemma CancelKeepsOrder(p: Plan, w: World)
    requires IsPipelineWorld(p, w) && IsUp(w) && Ordered(w)
    ensures Ordered(Step(p, w, Cancel))
  {
    hide IsClean, Tally, AreCompleted, CancelledStages, Inv, CompletedUpTo;
    OperationsKeepClean();
    OperationsKeepTally(Settled(w));
    CancelKeepsHeads(w.mem.stages);
    CancelKeepsCompleted(w.mem.stages, Settled(w));
    if w.pc.PassEnd? {
      var d: nat :| IsClean(w.mem.stages, d) && IsClean(w.disk.stages, d);
      assert IsClean(CancelledStages(w.mem.stages), d);
    } else if !w.pc.Ended? && !AtStage(w.pc) {
      var d: nat :| IsClean(w.mem.stages, d);
      assert IsClean(CancelledStages(w.mem.stages), d);
    }
  }

  lemma CancelKeepsCompleted(stages: seq<Stage>, settled: set<nat>)
    ensures AreCompleted(stages, settled) ==> AreCompleted(CancelledStages(stages), settled)
  {
  }

  lemma CancelKeepsHeads(stages: seq<Stage>)
    ensures forall s | CompletedUpTo(stages, s) :: CompletedUpTo(CancelledStages(stages), s)
    ensures forall s | 0 <= s < |stages| && stages[s].status != StageCompleted ::
      CancelledStages(stages)[s].status != StageCompleted
    ensures forall s, t: TaskStatus | 0 <= s < |stages| && stages[s].status == StageStatusOf(t) ::
      CancelledStages(stages)[s].status == StageStatusOf(t)
  {
  }

  /** What the next life will find: everything that is persisted as completed is settled. */
  lemma CrashSettles(stages: seq<Stage>, judged: set<nat>, slipped: set<nat>)
    requires AreCompleted(stages, judged + slipped)
    ensures Tally(stages, judged + (slipped + (CompletedSet(stages) - judged)), NO_STAGE)
  {
  }

  /** Up to a final status on disk, what is settled is persisted as completed. */
  lemma SettledArePersisted(p: Plan, w: World)
    requires IsPipelineWorld(p, w) && Ordered(w)
    ensures IsFinal(w.disk.status) || (HasFront(w.disk.stages) && AreCompleted(w.disk.stages, Settled(w)))
            || !(w.pc.Down? || w.pc.Ended?)
    ensures !(w.pc.Down? || w.pc.Ended?) ==> HasFront(w.disk.stages) && AreCompleted(w.disk.stages, Settled(w))
  {
    hide WorkersBelong, CountersSaved, FingerprintsKept, AllIdle, IsClean, Tally, AreCompleted, CompletedUpTo;
    TallyMeans(Settled(w));
    if AtStage(w.pc) {
      EarlierAreCompleted(w.mem.stages, Settled(w), w.pc.s, w.disk.stages);
    }
  }

  lemma CrashKeepsOrder(p: Plan, w: World)
    requires IsPipelineWorld(p, w) && IsUp(w) && Ordered(w)
    ensures Ordered(Step(p, w, Crash))
  {
    SettledArePersisted(p, w);
    if !w.pc.Ended? || !IsFinal(w.disk.status) {
      CrashSettles(w.disk.stages, w.judged, w.slipped);
    }
    hide Inv, AllIdle, IsClean, Tally, AreCompleted;
  }

  lemma FailKeepsOrder(p: Plan, w: World)
    requires IsPipelineWorld(p, w) && !w.pc.Down? && !w.pc.Ended? && Ordered(w)
    ensures Ordered(Fail(p, w))
  {
    hide Inv, AllIdle, IsClean, Tally, AreCompleted;
    SettledArePersisted(p, w);
  }

  lemma StepKeepsOrder(p: Plan, w: World, e: Event)
    requires IsPipelineWorld(p, w) && IsEnabled(w, e) && Ordered(w)
    ensures Ordered(Step(p, w, e)) && IsPipelineWorld(p, Step(p, w, e))
  {
    StepKeepsInv(p, w, e);
    hide Inv, DriveStep, WorkerStep, Ordered, Fail;
    match e
    case Drive(a) =>
      DriveKeepsOrder(p, w, a);
      DriveStaysPipeline(p, w, a);
    case Work(k, a) => BusyMeansNotIdle(w.workers, k); assert false;
    case Cancel => CancelKeepsOrder(p, w);
    case Crash => CrashKeepsOrder(p, w);
    case Restart(valid) => RestartKeepsOrder(p, w, valid);
    case Throw => FailKeepsOrder(p, w); FailStaysPipeline(p, w);
  }

  lemma FailStaysPipeline(p: Plan, w: World)
    requires IsWorld(p, w)
    ensures Fail(p, w).workers == w.workers && Fail(p, w).pc == Ended
  {
  }

  lemma DriveStaysPipeline(p: Plan, w: World, a: Answer)
    requires IsPipelineWorld(p, w) && CanDrive(w)
    ensures DriveStep(p, w, a).workers == w.workers && !IsParallel(DriveStep(p, w, a).pc)
  {
    hide RecoverStep, PrepareStep, LoopStep, DispatchStep, OutcomeStep, ParallelStep, Inv, AllIdle;
  }

  lemma RestartKeepsOrder(p: Plan, w: World, valid: bool)
    requires IsPipelineWorld(p, w) && IsEnabled(w, Restart(valid)) && Ordered(w)
    ensures Ordered(Step(p, w, Restart(valid)))
  {
    hide Inv, AllIdle, IsClean, Tally, AreCompleted;
  }

  lemma StartIsOrdered(p: Plan)
    requires p.mode == Pipeline
    ensures IsPipelineWorld(p, Start(p)) && Ordered(Start(p))
  {
    StartHasInv(p);
    assert IsClean(Start(p).mem.stages, 0);
  }

  lemma {:induction false} RunStaysOrdered(p: Plan, w: World, es: seq<Event>)
    requires IsPipelineWorld(p, w) && Ordered(w) && IsRun(p, w, es)
    ensures IsPipelineWorld(p, After(p, w, es)) && Ordered(After(p, w, es))
    decreases |es|
  {
    hide Step, Ordered, CountersSaved, FingerprintsKept, WorkersBelong, AllIdle;
    if es != [] {
      StepKeepsOrder(p, w, es[0]);
      RunStaysOrdered(p, Step(p, w, es[0]), es[1..]);
    }
  }

  // ---------------------------------------------------------------- how a stage comes to count as done

  /** The recovery gets the result of the task of stage `s`, and no blocker with it. */
  predicate IsRecovering(p: Plan, w: World, a: Answer, s: nat) {
    && w.pc == Reconciling(s) && s < |w.mem.stages|
    && w.mem.stages[s].task && IsActive(w.mem.stages[s])
    && a.result.status == TaskCompleted && a.result.blocker.None?
  }

  /** The output of stage `s` is found acceptable, at the value gate with a decision in it. */
  predicate Accepts(p: Plan, w: World, e: Event, s: nat) {
    match e
    case Drive(a) =>
      || (w.pc.Judging? && w.pc.s == s && w.pc.r.status == TaskCompleted && w.pc.r.isAcceptable
          && (p.gate == Some(s) ==> w.pc.r.decision != Undetermined))
      || (IsRecovering(p, w, a, s) && a.result.isAcceptable && p.gate != Some(s))
    case Work(k, a) =>
      k == s && s < |w.workers| && w.workers[s] == WaitingForTask
      && a.result.status == TaskCompleted && a.result.blocker.None? && a.result.isAcceptable
    case _ => false
  }

  /** The completed status of stage `s` is persisted, its output not accepted: never, not yet, or found unacceptable. */
  predicate IsUnjudged(w: World, s: nat) {
    && s < |w.disk.stages| && w.disk.stages[s].status == StageCompleted && s !in Settled(w)
    && (w.pc.PassEnd? || w.pc.Ended? || ((w.pc.Attempting? || w.pc.Posting? || w.pc.Judging?) && w.pc.s == s))
  }

  /**
   * Stage `s` comes to count as done without that: by a crash while its completed status is persisted and its output
   * is unjudged, or by a recovery that finds its task completed, with unacceptable output or at the value gate.
   */
  predicate Slips(p: Plan, w: World, e: Event, s: nat) {
    match e
    case Drive(a) => IsRecovering(p, w, a, s) && (!a.result.isAcceptable || p.gate == Some(s))
    case Crash => IsUnjudged(w, s)
    case _ => false
  }

  lemma RecoveryHistory(p: Plan, w: World, a: Answer, s: nat)
    requires IsWorld(p, w) && IsRecover(w.pc)
    ensures s in RecoverStep(p, w, a).judged <==> s in w.judged || Accepts(p, w, Drive(a), s)
    ensures s in RecoverStep(p, w, a).slipped <==> s in w.slipped || Slips(p, w, Drive(a), s)
  {
    hide IsInRange, IsBlocked, FinalizeRun, AllCompleted, AllIdle, DecideResume, BlockedStages, WithStatus;
  }

  lemma OutcomeHistory(p: Plan, w: World, a: Answer, s: nat)
    requires IsWorld(p, w) && IsOutcome(w.pc)
    ensures s in OutcomeStep(p, w, a).judged <==> s in w.judged || Accepts(p, w, Drive(a), s)
    ensures OutcomeStep(p, w, a).slipped == w.slipped
  {
    hide BlockRun, SetStatus, SkippedAfter;
  }

  lemma PrepareHistory(p: Plan, w: World, a: Answer)
    requires IsWorld(p, w) && IsPrepare(w.pc)
    ensures PrepareStep(p, w, a).judged == w.judged && PrepareStep(p, w, a).slipped == w.slipped
  {
    hide Select;
  }

  lemma LoopHistory(p: Plan, w: World, a: Answer)
    requires IsWorld(p, w) && IsLoop(w.pc)
    ensures LoopStep(p, w, a).judged == w.judged && LoopStep(p, w, a).slipped == w.slipped
  {
    hide BeginPass, IsBlocked, FinalizeRun, IsSettled;
  }

  lemma DispatchHistory(p: Plan, w: World, a: Answer)
    requires IsWorld(p, w)
    ensures IsDispatch(w.pc) ==> DispatchStep(p, w, a).judged == w.judged && DispatchStep(p, w, a).slipped == w.slipped
    ensures ParallelStep(p, w, a).judged == w.judged && ParallelStep(p, w, a).slipped == w.slipped
  {
    hide IsBlocked, WithStatus, WithStage, StartedStages, Collectors, Retriers;
  }

  lemma DriveHistory(p: Plan, w: World, a: Answer, s: nat)
    requires IsWorld(p, w)
    ensures s in DriveStep(p, w, a).judged <==> s in w.judged || Accepts(p, w, Drive(a), s)
    ensures s in DriveStep(p, w, a).slipped <==> s in w.slipped || Slips(p, w, Drive(a), s)
  {
    hide RecoverStep, PrepareStep, LoopStep, DispatchStep, OutcomeStep, ParallelStep, IsWorld;
    if IsRecover(w.pc) {
      RecoveryHistory(p, w, a, s);
    } else if IsPrepare(w.pc) {
      PrepareHistory(p, w, a);
    } else if IsLoop(w.pc) {
      LoopHistory(p, w, a);
    } else if IsOutcome(w.pc) {
      OutcomeHistory(p, w, a, s);
    } else {
      DispatchHistory(p, w, a);
    }
  }

  lemma WorkHistory(p: Plan, w: World, k: nat, a: Answer, s: nat)
    requires IsWorld(p, w) && k < p.teams
    ensures s in WorkerStep(p, w, k, a).judged <==> s in w.judged || Accepts(p, w, Work(k, a), s)
    ensures WorkerStep(p, w, k, a).slipped == w.slipped
  {
    hide IsBlocked, BlockedStages, WithStatus, WithStage, RetriedStages;
  }

  /**
   * In either mode, through every kind of step: acceptance is never taken back, crashes and restarts included, and it
   * is given exactly to a completed task with acceptable output and, at the value gate, a decision.
   */
  lemma AcceptanceIsEarned(p: Plan, w: World, e: Event, s: nat)
    requires IsWorld(p, w) && IsEnabled(w, e)
    ensures s in Step(p, w, e).judged <==> s in w.judged || Accepts(p, w, e, s)
  {
    hide DriveStep, WorkerStep;
    match e
    case Drive(a) => DriveHistory(p, w, a, s);
    case Work(k, a) => WorkHistory(p, w, k, a, s);
    case _ =>
  }

  /** A stage of a pipeline that is persisted as completed without being settled is the one in hand, past its task. */
  lemma UnsettledIsInHand(p: Plan, w: World, s: nat)
    requires IsPipelineWorld(p, w) && IsUp(w) && Ordered(w)
    requires s < p.teams && w.disk.stages[s].status == StageCompleted && s !in Settled(w)
    ensures IsUnjudged(w, s)
  {
    hide WorkersBelong, CountersSaved, FingerprintsKept, AllIdle, CompletedUpTo;
    if AtStage(w.pc) {
      SettledAreEarlier(w.mem.stages, Settled(w), w.pc.s);
    }
  }

  /** In a pipeline a stage slips through exactly in these two ways. */
  lemma SlipsExactly(p: Plan, w: World, e: Event, s: nat)
    requires IsPipelineWorld(p, w) && IsEnabled(w, e) && Ordered(w)
    ensures s in Step(p, w, e).slipped <==> s in w.slipped || Slips(p, w, e, s)
  {
    hide DriveStep, WorkerStep, Ordered, WorkersBelong, CountersSaved, FingerprintsKept, AllIdle;
    match e
    case Drive(a) => DriveHistory(p, w, a, s);
    case Work(k, a) => WorkHistory(p, w, k, a, s);
    case Crash =>
      if s < p.teams && w.disk.stages[s].status == StageCompleted && s !in Settled(w) {
        UnsettledIsInHand(p, w, s);
      }
    case _ =>
  }

  predicate EverAccepts(p: Plan, w: World, es: seq<Event>, s: nat)
    requires IsWorld(p, w) && IsRun(p, w, es)
    decreases |es|
  {
    es != [] && (Accepts(p, w, es[0], s) || EverAccepts(p, Step(p, w, es[0]), es[1..], s))
  }

  predicate EverSlips(p: Plan, w: World, es: seq<Event>, s: nat)
    requires IsWorld(p, w) && IsRun(p, w, es)
    decreases |es|
  {
    es != [] && (Slips(p, w, es[0], s) || EverSlips(p, Step(p, w, es[0]), es[1..], s))
  }

  lemma {:induction false} HistoryIsExact(p: Plan, w: World, es: seq<Event>, s: nat)
    requires IsPipelineWorld(p, w) && Ordered(w) && IsRun(p, w, es)
    ensures s in After(p, w, es).judged <==> s in w.judged || EverAccepts(p, w, es, s)
    ensures s in After(p, w, es).slipped <==> s in w.slipped || EverSlips(p, w, es, s)
    decreases |es|
  {
    hide Step, Ordered, Accepts, Slips, CountersSaved, FingerprintsKept, WorkersBelong, AllIdle;
    if es != [] {
      StepKeepsOrder(p, w, es[0]);
      AcceptanceIsEarned(p, w, es[0], s);
      SlipsExactly(p, w, es[0], s);
      HistoryIsExact(p, Step(p, w, es[0]), es[1..], s);
    }
  }

  /** No stage is in hand, and the run has not ended. */
  predicate IsBetweenStages(pc: Pc) {
    !AtStage(pc) && !pc.PassEnd? && !pc.Ended? && !pc.Down?
  }

  /**
   * Whenever no stage is in hand, on entering a restarted life in particular, a completed stage has been accepted
   * exactly when it never slipped through: no crash found it completed and unjudged, and no recovery took it for
   * completed with unacceptable output or at the value gate.
   */
  lemma CompletedWasAcceptedExactly(p: Plan, es: seq<Event>, s: nat)
    requires p.mode == Pipeline && IsRun(p, Start(p), es)
    requires var w := After(p, Start(p), es);
             IsBetweenStages(w.pc) && s < p.teams && w.mem.stages[s].status == StageCompleted
    ensures EverAccepts(p, Start(p), es, s) <==> !EverSlips(p, Start(p), es, s)
  {
    StartIsOrdered(p);
    RunStaysOrdered(p, Start(p), es);
    HistoryIsExact(p, Start(p), es, s);
    hide WorkersBelong, CountersSaved, FingerprintsKept, AllIdle, IsClean, CompletedUpTo;
  }

  // ---------------------------------------------------------------- dispatched in order

  /**
   * Whenever a pipeline posts a task, in any life of any run, the earlier stages are exactly the settled ones, and each
   * of them has been accepted unless it slipped through: no stage is passed over, none is dispatched again once settled.
   */
  lemma DispatchedInOrder(p: Plan, es: seq<Event>, e: Event)
    requires p.mode == Pipeline && IsRun(p, Start(p), es) && IsEnabled(After(p, Start(p), es), e)
    ensures var w := After(p, Start(p), es);
            Step(p, w, e).posts > w.posts ==>
              && w.pc.Attempting? && w.pc.s < p.teams
              && (forall j: nat :: j < w.pc.s <==> EverAccepts(p, Start(p), es, j) || EverSlips(p, Start(p), es, j))
              && (forall j: nat :: !(EverAccepts(p, Start(p), es, j) && EverSlips(p, Start(p), es, j)))
  {
    StartIsOrdered(p);
    RunStaysOrdered(p, Start(p), es);
    PostedInOrder(p, After(p, Start(p), es), e);
    forall j: nat
      ensures j in After(p, Start(p), es).judged <==> EverAccepts(p, Start(p), es, j)
      ensures j in After(p, Start(p), es).slipped <==> EverSlips(p, Start(p), es, j)
    {
      HistoryIsExact(p, Start(p), es, j);
    }
    hide Step, IsPipelineWorld;
  }

  lemma PostedInOrder(p: Plan, w: World, e: Event)
    requires IsPipelineWorld(p, w) && Ordered(w) && IsEnabled(w, e)
    ensures Step(p, w, e).posts > w.posts ==>
              && w.pc.Attempting? && w.pc.s < p.teams && w.judged !! w.slipped
              && forall j: nat :: j in w.judged || j in w.slipped <==> j < w.pc.s
  {
    hide DriveStep, WorkerStep, CountersSaved, FingerprintsKept, IsClean, Tally;
    if e.Drive? {
      DrivePosts(p, w, e.answer);
      if w.pc.Attempting? {
        SettledAreEarlier(w.mem.stages, Settled(w), w.pc.s);
      }
    } else if e.Work? {
      BusyMeansNotIdle(w.workers, e.k);
    }
  }
}
