/** Every driver life that does not crash comes to an end, and in a final status but for one case. */
module CompanyEnd {
  import opened CompanyRecord
  import opened CompanyDriver
  import opened CompanyStops
  import opened CompanyOrder
  import opened CompanyBudget

  // ---------------------------------------------------------------- how much is left

  /** The steps a worker has left at most. */
  function WorkerLoad(worker: Worker): nat {
    match worker
    case Idle => 0
    case WaitingForTask => 1
    case PostingTask => 2
    case ChoosingProvider => 3
  }

  function Load(workers: seq<Worker>): nat {
    if workers == [] then 0 else Load(workers[..|workers| - 1]) + WorkerLoad(workers[|workers| - 1])
  }

  lemma {:induction false} LoadAfterUpdate(workers: seq<Worker>, k: nat, worker: Worker)
    requires k < |workers|
    ensures Load(workers[k := worker]) == Load(workers) - WorkerLoad(workers[k]) + WorkerLoad(worker)
  {
    var updated := workers[k := worker];
    if k == |workers| - 1 {
      assert updated[..k] == workers[..k];
    } else {
      assert updated[..|workers| - 1] == workers[..|workers| - 1][k := worker];
      LoadAfterUpdate(workers[..|workers| - 1], k, worker);
    }
  }

  lemma {:induction false} LoadBound(workers: seq<Worker>, most: nat)
    requires forall k :: 0 <= k < |workers| ==> WorkerLoad(workers[k]) <= most
    ensures Load(workers) <= most * |workers|
  {
    if workers != [] {
      LoadBound(workers[..|workers| - 1], most);
      assert most * |workers| == most * (|workers| - 1) + most;
    }
  }

  /** How far the driver is from the end of the current pass, or of the preparation. */
  function StepsLeft(p: Plan, w: World): int {
    var n := p.teams;
    match w.pc
    case Down => 0
    case Booting => n + 5
    case Reconciling(i) => n - i + 4
    case Discussing(isResume) => 3
    case Splitting => 2
    case Selecting => 1
    case LoopTop => 16 * n + 20
    case StageHead(s) => 16 * (n - s) + 4
    case Choosing(s) => 16 * (n - s) + 3
    case Attempting(s, i, count) => 16 * (n - s) + 2 - 4 * i
    case Posting(s, i, count) => 16 * (n - s) + 1 - 4 * i
    case AwaitingTask(s, i, count) => 16 * (n - s) - 4 * i
    case Judging(s, i, count, r) => 16 * (n - s) - 1 - 4 * i
    case Fanning(s, todo) => 3 * (n - s) + 5 * n + 6
    case FanChoosing(s, todo) => 3 * (n - s) + 5 * n + 5
    case FanPosting(s, todo) => 3 * (n - s) + 5 * n + 4
    case Collecting => 3 * n + 4 + Load(w.workers)
    case Retrying => 3 + Load(w.workers)
    case PassEnd => 2
    case Reviewing => 1
    case BackingOff => 1
    case Ended => Load(w.workers)
  }

  /** Passes left, the preparation counting as two more. */
  function PassesLeft(p: Plan, w: World): nat {
    if IsRecover(w.pc) || IsPrepare(w.pc) then p.maxIterations + 2
    else if (IsLoop(w.pc) || InPass(w.pc)) && w.it <= p.maxIterations then p.maxIterations + 1 - w.it
    else 0
  }

  function StepLimit(p: Plan): nat {
    16 * p.teams + 21
  }

  /** An upper bound on the steps this life can still take. */
  function Remaining(p: Plan, w: World): int {
    PassesLeft(p, w) * StepLimit(p) + StepsLeft(p, w)
  }

  predicate IsDescent(p: Plan, w: World, r: World) {
    PassesLeft(p, r) < PassesLeft(p, w) || (PassesLeft(p, r) == PassesLeft(p, w) && StepsLeft(p, r) < StepsLeft(p, w))
  }

  lemma StepsLeftBounds(p: Plan, w: World)
    requires IsPlan(p) && IsWorld(p, w)
    ensures 0 <= StepsLeft(p, w) < StepLimit(p)
  {
    LoadBound(w.workers, 3);
    hide Load;
  }

  // ---------------------------------------------------------------- each step brings the end nearer

  lemma RecoverDescends(p: Plan, w: World, a: Answer)
    requires IsPlan(p) && Inv(p, w) && IterationFollows(p, w) && PassesCounted(p, w) && IsRecover(w.pc)
    ensures IsDescent(p, w, RecoverStep(p, w, a))
  {
    hide IsBlocked, FinalizeRun, AllCompleted, Load, WithStatus, WithStage, BlockedStages, RefinedStages,
      FailedStages, SkippedAfter, AnyUnavailable, AnyUnfinishedUnavailable, IsSettled, CountersSaved,
      FingerprintsKept, IsQuiet, AllIdle;
    IdleLoad(w.workers);
  }

  lemma PrepareDescends(p: Plan, w: World, a: Answer)
    requires IsPlan(p) && Inv(p, w) && IterationFollows(p, w) && PassesCounted(p, w) && IsPrepare(w.pc)
    ensures IsDescent(p, w, PrepareStep(p, w, a))
  {
    hide IsBlocked, FinalizeRun, AllCompleted, Load, WithStatus, WithStage, BlockedStages, RefinedStages,
      FailedStages, SkippedAfter, AnyUnavailable, AnyUnfinishedUnavailable, IsSettled, CountersSaved,
      FingerprintsKept, IsQuiet, AllIdle;
    IdleLoad(w.workers);
  }

  lemma LoopDescends(p: Plan, w: World, a: Answer)
    requires IsPlan(p) && Inv(p, w) && IterationFollows(p, w) && PassesCounted(p, w) && IsLoop(w.pc)
    ensures IsDescent(p, w, LoopStep(p, w, a))
  {
    hide IsBlocked, FinalizeRun, AllCompleted, Load, WithStatus, WithStage, BlockedStages, RefinedStages,
      FailedStages, SkippedAfter, AnyUnavailable, AnyUnfinishedUnavailable, IsSettled, CountersSaved,
      FingerprintsKept, IsQuiet, AllIdle;
    IdleLoad(w.workers);
  }

  lemma DispatchDescends(p: Plan, w: World, a: Answer)
    requires IsPlan(p) && Inv(p, w) && IterationFollows(p, w) && PassesCounted(p, w) && IsDispatch(w.pc)
    ensures IsDescent(p, w, DispatchStep(p, w, a))
  {
    hide IsBlocked, FinalizeRun, AllCompleted, Load, WithStatus, WithStage, BlockedStages, RefinedStages,
      FailedStages, SkippedAfter, AnyUnavailable, AnyUnfinishedUnavailable, IsSettled, CountersSaved,
      FingerprintsKept, IsQuiet, AllIdle;
  }

  lemma OutcomeDescends(p: Plan, w: World, a: Answer)
    requires IsPlan(p) && Inv(p, w) && IterationFollows(p, w) && PassesCounted(p, w) && IsOutcome(w.pc)
    ensures IsDescent(p, w, OutcomeStep(p, w, a))
  {
    hide IsBlocked, FinalizeRun, AllCompleted, Load, WithStatus, WithStage, BlockedStages, RefinedStages,
      FailedStages, SkippedAfter, AnyUnavailable, AnyUnfinishedUnavailable, IsSettled, CountersSaved,
      FingerprintsKept, IsQuiet, AllIdle;
  }

  lemma IdleLoad(workers: seq<Worker>)
    ensures AllIdle(workers) ==> Load(workers) == 0
  {
    if AllIdle(workers) {
      LoadBound(workers, 0);
    }
  }

  lemma FanDescends(p: Plan, w: World)
    requires IsPlan(p) && Inv(p, w) && IterationFollows(p, w) && w.pc.Fanning?
    ensures IsDescent(p, w, Fan(p, w, w.pc.s, w.pc.todo))
  {
    hide IsBlocked, Load, StartedStages, CountersSaved, FingerprintsKept, IsQuiet, AllIdle, Collectors;
    IdleLoad(w.workers);
    CollectorLoad(w.mem.stages, w.pc.todo);
  }

  lemma ParallelDescends(p: Plan, w: World, a: Answer)
    requires IsPlan(p) && Inv(p, w) && IterationFollows(p, w) && CanDrive(w)
    requires !IsRecover(w.pc) && !IsPrepare(w.pc) && !IsLoop(w.pc) && !IsDispatch(w.pc) && !IsOutcome(w.pc)
    ensures IsDescent(p, w, ParallelStep(p, w, a))
  {
    hide Fan, IsBlocked, Load, WithStage, CountersSaved, FingerprintsKept, IsQuiet, AllIdle, Retriers;
    if w.pc.Fanning? {
      FanDescends(p, w);
    }
    IdleLoad(w.workers);
    RetrierLoad(w.mem.stages);
  }

  lemma CollectorLoad(stages: seq<Stage>, todo: set<nat>)
    ensures Load(Collectors(stages, todo)) <= |stages|
  {
    LoadBound(Collectors(stages, todo), 1);
  }

  lemma RetrierLoad(stages: seq<Stage>)
    ensures Load(Retriers(stages)) <= 3 * |stages|
  {
    LoadBound(Retriers(stages), 3);
  }

  lemma WorkDescends(p: Plan, w: World, k: nat, a: Answer)
    requires IsPlan(p) && Inv(p, w) && IterationFollows(p, w) && IsUp(w) && k < p.teams && w.workers[k] != Idle
    ensures IsDescent(p, w, WorkerStep(p, w, k, a))
  {
    hide WorkerStep, Load, CountersSaved, FingerprintsKept, IsQuiet;
    WorkLowersLoad(p, w, k, a);
    BusyMeansNotIdle(w.workers, k);
  }

  lemma WorkLowersLoad(p: Plan, w: World, k: nat, a: Answer)
    requires IsWorld(p, w) && k < p.teams && w.workers[k] != Idle
    ensures var r := WorkerStep(p, w, k, a);
            Load(r.workers) < Load(w.workers) && r.it == w.it && (r.pc == w.pc || r.pc == Ended)
  {
    hide IsBlocked, Load, BlockedStages, WithStatus, WithStage, RetriedStages;
    LoadAfterUpdate(w.workers, k, Idle);
    LoadAfterUpdate(w.workers, k, WaitingForTask);
    LoadAfterUpdate(w.workers, k, PostingTask);
  }

  lemma ThrowDescends(p: Plan, w: World)
    requires IsPlan(p) && Inv(p, w) && w.pc != Down && w.pc != Ended
    ensures IsDescent(p, w, Fail(p, w))
  {
    hide Load, CountersSaved, FingerprintsKept, AllIdle;
    IdleLoad(w.workers);
  }

  predicate IsProgress(e: Event) {
    e.Drive? || e.Work? || e.Throw?
  }

  predicate EndsLife(e: Event) {
    e.Crash? || e.Restart?
  }

  lemma DriveDescends(p: Plan, w: World, a: Answer)
    requires IsPlan(p) && Inv(p, w) && Counted(p, w) && CanDrive(w)
    ensures IsDescent(p, w, DriveStep(p, w, a))
  {
    hide RecoverStep, PrepareStep, LoopStep, DispatchStep, OutcomeStep, ParallelStep, IsDescent, Inv,
      IterationFollows, PassesCounted;
    if IsRecover(w.pc) {
      RecoverDescends(p, w, a);
    } else if IsPrepare(w.pc) {
      PrepareDescends(p, w, a);
    } else if IsLoop(w.pc) {
      LoopDescends(p, w, a);
    } else if IsDispatch(w.pc) {
      DispatchDescends(p, w, a);
    } else if IsOutcome(w.pc) {
      OutcomeDescends(p, w, a);
    } else {
      ParallelDescends(p, w, a);
    }
  }

  lemma CancelKeepsRemaining(p: Plan, w: World)
    requires IsWorld(p, w) && IsUp(w)
    ensures Remaining(p, Step(p, w, Cancel)) == Remaining(p, w)
  {
    hide CancelRun, Load;
  }

  lemma StepDescends(p: Plan, w: World, e: Event)
    requires IsPlan(p) && Inv(p, w) && Counted(p, w) && IsEnabled(w, e) && !EndsLife(e)
    ensures IsProgress(e) ==> IsDescent(p, w, Step(p, w, e))
    ensures !IsProgress(e) ==> Remaining(p, Step(p, w, e)) == Remaining(p, w)
  {
    hide DriveStep, WorkerStep, Fail, IsDescent, Remaining, CountersSaved, FingerprintsKept, WorkersBelong,
      PassesCounted, IterationFollows, IsQuiet;
    match e
    case Drive(a) => DriveDescends(p, w, a);
    case Work(k, a) => WorkDescends(p, w, k, a);
    case Throw => ThrowDescends(p, w);
    case _ => CancelKeepsRemaining(p, w);
  }

  lemma DescentLowersRemaining(p: Plan, w: World, r: World)
    requires IsPlan(p) && IsWorld(p, w) && IsWorld(p, r) && IsDescent(p, w, r)
    ensures 0 <= Remaining(p, r) < Remaining(p, w)
  {
    hide StepsLeft, PassesLeft;
    StepsLeftBounds(p, w);
    StepsLeftBounds(p, r);
    if PassesLeft(p, r) < PassesLeft(p, w) {
      FewerPasses(PassesLeft(p, r), PassesLeft(p, w), StepLimit(p));
    }
  }

  lemma FewerPasses(a: nat, b: nat, unit: nat)
    requires a < b
    ensures a * unit + unit <= b * unit
  {
    var gap: nat := b - a - 1;
    assert gap * unit >= 0;
    assert b * unit == gap * unit + a * unit + unit;
  }

  function CountProgress(es: seq<Event>): nat {
    if es == [] then 0 else (if IsProgress(es[0]) then 1 else 0) + CountProgress(es[1..])
  }

  /**
   * A life that does not crash takes at most `Remaining` steps of the driver and its workers, whatever the answers
   * are and however cancels come in between.
   */
  lemma {:induction false} LivesAreFinite(p: Plan, w: World, es: seq<Event>)
    requires IsPlan(p) && WithinBudget(p, w) && IsRun(p, w, es)
    requires forall i :: 0 <= i < |es| ==> !EndsLife(es[i])
    ensures CountProgress(es) + Remaining(p, After(p, w, es)) <= Remaining(p, w)
    ensures 0 <= Remaining(p, After(p, w, es))
    decreases |es|
  {
    hide Step, Counted, PostsCounted, CountersSaved, FingerprintsKept, WorkersBelong, PassesLeft, StepsLeft;
    if es == [] {
      StepsLeftBounds(p, w);
    } else {
      var r := Step(p, w, es[0]);
      StepDescends(p, w, es[0]);
      if IsProgress(es[0]) {
        DescentLowersRemaining(p, w, r);
      }
      StepKeepsInv(p, w, es[0]);
      StepKeepsCounted(p, w, es[0]);
      StepKeepsPosts(p, w, es[0]);
      LivesAreFinite(p, r, es[1..]);
    }
  }

  /** The driver is never stuck before its end: it can move, or one of the workers it waits for can. */
  lemma NeverStuck(p: Plan, w: World, a: Answer)
    requires IsWorld(p, w) && IsUp(w) && w.pc != Ended
    ensures IsEnabled(w, Drive(a)) || exists k: nat :: IsEnabled(w, Work(k, a))
  {
    if !CanDrive(w) {
      var k: nat :| k < |w.workers| && w.workers[k] != Idle;
      assert IsEnabled(w, Work(k, a));
    }
  }

  // ---------------------------------------------------------------- in a final status

  predicate AreUntouched(stages: seq<Stage>) {
    forall i :: 0 <= i < |stages| ==>
      !stages[i].task && (stages[i].status == StagePending || stages[i].status == StageCancelled)
  }

  /** Before the stages have their subtasks nothing has been dispatched. */
  predicate SubtasksFirst(w: World) {
    && w.mem.decomposed == w.disk.decomposed
    && (w.mem.blockers != {} ==> w.mem.decomposed)
    && (w.pc == Discussing(false) ==> !w.mem.decomposed)
    && (w.mem.decomposed
        || (AreUntouched(w.mem.stages) && AreUntouched(w.disk.stages) && AllIdle(w.workers)
            && w.mem.completedIterations == 0
            && !w.pc.Selecting? && !IsLoop(w.pc) && !InPass(w.pc)))
  }

  lemma StillUntouched(stages: seq<Stage>)
    requires AreUntouched(stages)
    ensures AreUntouched(CancelledStages(stages))
  {
  }

  /** Between the passes, or on the way to them. */
  predicate IsBetween(pc: Pc) {
    pc.Reconciling? || IsPrepare(pc) || pc.LoopTop? || pc.Reviewing? || pc.BackingOff?
  }

  predicate EndsProperly(p: Plan, w: World) {
    && w.mem.status == w.disk.status
    && (w.pc.Ended? ==> IsFinal(w.mem.status) || (p.mode != Pipeline && w.metBlocker))
    && (p.mode == Pipeline && w.mem.blockers != {} ==> IsFinal(w.mem.status))
    && (p.mode != Pipeline && w.mem.blockers != {} && IsBetween(w.pc) ==> w.metBlocker)
  }

  predicate Ending(p: Plan, w: World) {
    SubtasksFirst(w) && EndsProperly(p, w)
  }

  lemma RecoverEndsProperly(p: Plan, w: World, a: Answer)
    requires Inv(p, w) && IsRecover(w.pc) && Ending(p, w)
    ensures Ending(p, RecoverStep(p, w, a))
  {
    hide IsBlocked, AllCompleted, WithStatus, WithStage, BlockedStages, RefinedStages, FailedStages, StartedStages,
      SkippedAfter, AnyUnavailable, AnyUnfinishedUnavailable, IsSettled, WorkersBelong, CountersSaved, AllIdle,
      AreUntouched, FinalizeRun, BlockersKnown;
    BlockedByFingerprint(w.mem);
    if w.pc.Reconciling? && w.pc.i < p.teams {
      TaskMeansSome(w.mem.stages, w.pc.i);
    }
  }

  lemma PrepareEndsProperly(p: Plan, w: World, a: Answer)
    requires Inv(p, w) && IsPrepare(w.pc) && Ending(p, w)
    ensures Ending(p, PrepareStep(p, w, a))
  {
    hide IsBlocked, AllCompleted, WithStatus, WithStage, BlockedStages, RefinedStages, FailedStages, StartedStages,
      SkippedAfter, AnyUnavailable, AnyUnfinishedUnavailable, IsSettled, WorkersBelong, CountersSaved, AllIdle,
      AreUntouched, FinalizeRun, BlockersKnown;
  }

  lemma LoopEndsProperly(p: Plan, w: World, a: Answer)
    requires Inv(p, w) && IsLoop(w.pc) && Ending(p, w)
    ensures Ending(p, LoopStep(p, w, a))
  {
    hide IsBlocked, AllCompleted, WithStatus, WithStage, BlockedStages, RefinedStages, FailedStages, StartedStages,
      SkippedAfter, AnyUnavailable, AnyUnfinishedUnavailable, IsSettled, WorkersBelong, CountersSaved, AllIdle,
      AreUntouched, FinalizeRun, BlockersKnown;
    BlockedByFingerprint(w.mem);
    BlockedByFingerprint(w.mem.(completedIterations := w.it));
  }

  lemma DispatchEndsProperly(p: Plan, w: World, a: Answer)
    requires Inv(p, w) && IsDispatch(w.pc) && Ending(p, w)
    ensures Ending(p, DispatchStep(p, w, a))
  {
    hide IsBlocked, AllCompleted, WithStatus, WithStage, BlockedStages, RefinedStages, FailedStages, StartedStages,
      SkippedAfter, AnyUnavailable, AnyUnfinishedUnavailable, IsSettled, WorkersBelong, CountersSaved, AllIdle,
      AreUntouched, FinalizeRun, BlockersKnown;
  }

  lemma OutcomeEndsProperly(p: Plan, w: World, a: Answer)
    requires Inv(p, w) && IsOutcome(w.pc) && Ending(p, w)
    ensures Ending(p, OutcomeStep(p, w, a))
  {
    hide IsBlocked, AllCompleted, WithStatus, WithStage, BlockedStages, RefinedStages, FailedStages, StartedStages,
      SkippedAfter, AnyUnavailable, AnyUnfinishedUnavailable, IsSettled, WorkersBelong, CountersSaved, AllIdle,
      AreUntouched, FinalizeRun, BlockersKnown;
  }

  lemma ParallelEndsProperly(p: Plan, w: World, a: Answer)
    requires Inv(p, w) && p.mode != Pipeline && CanDrive(w) && Ending(p, w)
    requires InPass(w.pc) && !IsLoop(w.pc) && !IsDispatch(w.pc) && !IsOutcome(w.pc)
    ensures Ending(p, ParallelStep(p, w, a))
  {
    hide IsBlocked, AllCompleted, WithStatus, WithStage, BlockedStages, RefinedStages, FailedStages, StartedStages,
      SkippedAfter, AnyUnavailable, AnyUnfinishedUnavailable, IsSettled, WorkersBelong, CountersSaved, AllIdle,
      AreUntouched, FinalizeRun, BlockersKnown;
  }

  lemma TaskMeansSome(stages: seq<Stage>, i: nat)
    requires i < |stages|
    ensures stages[i].task ==> !AreUntouched(stages)
  {
  }

  lemma WorkEndsProperly(p: Plan, w: World, k: nat, a: Answer)
    requires Inv(p, w) && IsUp(w) && p.mode != Pipeline && k < p.teams && w.workers[k] != Idle && Ending(p, w)
    ensures Ending(p, WorkerStep(p, w, k, a))
  {
    hide IsBlocked, BlockedStages, WithStatus, WithStage, RetriedStages, AllIdle, AreUntouched, CountersSaved,
      FingerprintsKept;
    BusyMeansNotIdle(w.workers, k);
  }

  lemma DriveEndsProperly(p: Plan, w: World, a: Answer)
    requires Inv(p, w) && PostsCounted(p, w) && CanDrive(w) && Ending(p, w)
    ensures Ending(p, DriveStep(p, w, a))
  {
    hide RecoverStep, PrepareStep, LoopStep, DispatchStep, OutcomeStep, ParallelStep, Ending, Inv, RetriedOnce,
      RetriesOf, Sum, AllIdle, IsQuiet;
    if IsRecover(w.pc) {
      RecoverEndsProperly(p, w, a);
    } else if IsPrepare(w.pc) {
      PrepareEndsProperly(p, w, a);
    } else if IsLoop(w.pc) {
      LoopEndsProperly(p, w, a);
    } else if IsDispatch(w.pc) {
      DispatchEndsProperly(p, w, a);
    } else if IsOutcome(w.pc) {
      OutcomeEndsProperly(p, w, a);
    } else {
      ParallelEndsProperly(p, w, a);
    }
  }

  lemma RequestEndsProperly(p: Plan, w: World, e: Event)
    requires Inv(p, w) && PostsCounted(p, w) && !e.Drive? && !e.Work? && IsEnabled(w, e) && Ending(p, w)
    ensures Ending(p, Step(p, w, e))
  {
    hide CancelledStages, AreUntouched, BlockersKnown, PostsCounted, WorkersBelong, RetriesOf, IsInRange;
    if e.Cancel? && !w.mem.decomposed {
      StillUntouched(w.mem.stages);
    }
  }

  lemma StepEndsProperly(p: Plan, w: World, e: Event)
    requires Inv(p, w) && PostsCounted(p, w) && IsEnabled(w, e) && Ending(p, w)
    ensures Ending(p, Step(p, w, e))
  {
    match e
    case Drive(a) =>
      hide DriveStep, CountersSaved, FingerprintsKept, WorkersBelong, PostsCounted, Ending;
      DriveEndsProperly(p, w, a);
    case Work(k, a) =>
      hide WorkerStep, CountersSaved, FingerprintsKept, WorkersBelong, Ordered, PipelinePosts, ParallelPosts, Ending;
      BusyMeansNotIdle(w.workers, k);
      WorkEndsProperly(p, w, k, a);
    case _ =>
      hide Step, CountersSaved, FingerprintsKept, WorkersBelong, PostsCounted, Ending;
      RequestEndsProperly(p, w, e);
  }

  lemma StartIsEnding(p: Plan)
    ensures Ending(p, Start(p))
  {
  }

  lemma {:induction false} RunEndsProperly(p: Plan, w: World, es: seq<Event>)
    requires IsPlan(p) && WithinBudget(p, w) && Ending(p, w) && IsRun(p, w, es)
    ensures WithinBudget(p, After(p, w, es)) && Ending(p, After(p, w, es))
    decreases |es|
  {
    hide Step, Counted, PostsCounted, CountersSaved, FingerprintsKept, WorkersBelong, Ending;
    if es != [] {
      StepEndsProperly(p, w, es[0]);
      StepKeepsInv(p, w, es[0]);
      StepKeepsCounted(p, w, es[0]);
      StepKeepsPosts(p, w, es[0]);
      RunEndsProperly(p, Step(p, w, es[0]), es[1..]);
    }
  }

  /**
   * When a driver has ended, its run is in a final status, unless it is a parallel run whose recovery after a restart
   * met a blocker: the loop then returns at its head without settling the run.
   */
  lemma EndedMeansFinal(p: Plan, es: seq<Event>)
    requires IsPlan(p) && IsRun(p, Start(p), es) && After(p, Start(p), es).pc == Ended
    ensures var w := After(p, Start(p), es); IsFinal(w.mem.status) || (p.mode == Parallel && w.metBlocker)
    ensures After(p, Start(p), es).disk.status == After(p, Start(p), es).mem.status
  {
    StartIsWithinBudget(p);
    StartIsEnding(p);
    RunEndsProperly(p, Start(p), es);
  }

  /** The next restart settles such a run at once. */
  lemma RestartSettlesBlockedRun(p: Plan, w: World, a: Answer)
    requires Inv(p, w) && IsEnabled(w, Restart(true)) && w.disk.blockers != {}
    ensures var r := Step(p, w, Restart(true));
            IsEnabled(r, Drive(a)) && Step(p, r, Drive(a)).pc == Ended && Step(p, r, Drive(a)).disk.status == Partial
  {
    hide CountersSaved, FingerprintsKept, WorkersBelong;
  }
}
