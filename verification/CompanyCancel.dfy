/** When a cancel holds: exactly when no decomposition can follow it. */
module CompanyCancel {
  import opened Text
  import opened CompanyRecord
  import opened CompanyDriver
  import opened CompanyStops
  import opened CompanyBudget
  import opened CompanyEnd

  // ---------------------------------------------------------------- what can still post

  const DONE := TaskResult(TaskCompleted, None, false, true, Approve)

  /** Everything answers, one candidate per stage, and the task result is `result`. */
  function Fine(result: TaskResult): Event {
    Drive(Answer(true, false, 1, {}, result))
  }

  const GO := Fine(DONE)

  /** How far the first post is. */
  function Distance(p: Plan, pc: Pc): int {
    match pc
    case Booting => p.teams + 9
    case Reconciling(i) => p.teams - i + 8
    case Discussing(isResume) => 7
    case Splitting => 6
    case Selecting => 5
    case LoopTop => 4
    case StageHead(s) => 3
    case Fanning(s, todo) => 3
    case Choosing(s) => 2
    case FanChoosing(s, todo) => 1
    case _ => 1
  }

  /** Before the decomposition whatever the status, and behind it if the run is not cancelled. */
  predicate IsOnTheWay(p: Plan, w: World) {
    match w.pc
    case Booting => !w.mem.decomposed && w.mem.resumeCount < MAX_RUN_RESUMES
    case Reconciling(i) => !w.mem.decomposed && w.mem.resumeCount < MAX_RUN_RESUMES
    case Discussing(isResume) => !w.mem.decomposed
    case Splitting => w.mem.status != Cancelled
    case Selecting => w.mem.status != Cancelled
    case LoopTop => w.mem.status != Cancelled && w.it == 1
    case StageHead(s) => w.mem.status != Cancelled && s == 0
    case Choosing(s) => w.mem.status != Cancelled && s == 0
    case Attempting(s, i, count) => w.mem.status != Cancelled && i == 0 < count
    case Fanning(s, todo) => w.mem.status != Cancelled && s == 0 && 0 in todo
    case FanChoosing(s, todo) => w.mem.status != Cancelled
    case _ => false
  }

  /** Nothing has been dispatched yet, and something will be. */
  predicate IsReady(p: Plan, w: World) {
    && IsPlan(p) && !p.dryRun && IsWorld(p, w)
    && AreUntouched(w.mem.stages) && w.mem.blockers == {} && w.mem.completedIterations == 0
    && IsOnTheWay(p, w)
  }

  lemma UntouchedMeans(run: Run)
    requires AreUntouched(run.stages) && run.blockers == {}
    ensures !IsBlocked(run) && (run.stages != [] ==> !AllCompleted(run.stages) && 0 in Unfinished(run.stages))
    ensures FailedStages(run.stages, {}) == run.stages && !AnyUnavailable(run.stages, {})
  {
    assert run.stages != [] ==> run.stages[0].status != StageCompleted;
  }

  lemma ReadyToRecover(p: Plan, w: World)
    requires IsReady(p, w) && IsRecover(w.pc)
    ensures var r := RecoverStep(p, w, GO.answer);
            IsReady(p, r) && r.posts == w.posts && Distance(p, r.pc) < Distance(p, w.pc)
  {
    UntouchedMeans(w.mem);
    hide IsBlocked, AllCompleted, FinalizeRun, BlockedStages, WithStatus;
  }

  lemma ReadyToPrepare(p: Plan, w: World)
    requires IsReady(p, w) && IsPrepare(w.pc)
    ensures var r := PrepareStep(p, w, GO.answer);
            IsReady(p, r) && r.posts == w.posts && Distance(p, r.pc) < Distance(p, w.pc)
  {
    UntouchedMeans(w.mem);
    hide AnyUnavailable, FailedStages, AreUntouched;
  }

  lemma ReadyToBegin(p: Plan, w: World)
    requires IsReady(p, w) && w.pc.LoopTop?
    ensures var r := BeginPass(p, w, GO.answer);
            IsReady(p, r) && r.posts == w.posts && Distance(p, r.pc) < Distance(p, w.pc)
  {
    UntouchedMeans(w.mem);
    hide AreUntouched, IsBlocked, AllCompleted, Unfinished, FinalizeRun, AnyUnfinishedUnavailable, RefinedStages;
  }

  lemma ReadyToDispatch(p: Plan, w: World)
    requires IsReady(p, w) && IsDispatch(w.pc)
    ensures var r := DispatchStep(p, w, GO.answer);
            r.posts == w.posts + 1
            || (IsReady(p, r) && r.posts == w.posts && Distance(p, r.pc) < Distance(p, w.pc))
  {
    UntouchedMeans(w.mem);
    assert w.mem.stages[0].status != StageCompleted;
    hide IsBlocked, AllCompleted, Unfinished, WithStage, WithStatus, AreUntouched;
  }

  lemma ReadyToFan(p: Plan, w: World)
    requires IsReady(p, w) && IsParallel(w.pc)
    ensures var r := ParallelStep(p, w, GO.answer);
            r.posts == w.posts + 1
            || (IsReady(p, r) && r.posts == w.posts && Distance(p, r.pc) < Distance(p, w.pc))
  {
    UntouchedMeans(w.mem);
    hide IsBlocked, AllCompleted, Unfinished, WithStage, WithStatus, StartedStages, AreUntouched;
  }

  lemma ReadyToGo(p: Plan, w: World)
    requires IsReady(p, w)
    ensures IsEnabled(w, GO)
    ensures var r := Step(p, w, GO);
            r.posts == w.posts + 1
            || (IsReady(p, r) && r.posts == w.posts && Distance(p, r.pc) < Distance(p, w.pc))
  {
    hide RecoverStep, PrepareStep, BeginPass, DispatchStep, ParallelStep, AreUntouched;
    if IsRecover(w.pc) {
      ReadyToRecover(p, w);
    } else if IsPrepare(w.pc) {
      ReadyToPrepare(p, w);
    } else if IsLoop(w.pc) {
      ReadyToBegin(p, w);
    } else if IsDispatch(w.pc) {
      ReadyToDispatch(p, w);
    } else {
      ReadyToFan(p, w);
    }
  }

  /** If everything answers, such a run comes to a post. */
  lemma {:induction false} SomePost(p: Plan, w: World) returns (es: seq<Event>)
    requires IsReady(p, w)
    ensures IsRun(p, w, es) && After(p, w, es).posts > w.posts
    decreases Distance(p, w.pc)
  {
    hide Step, AreUntouched;
    ReadyToGo(p, w);
    var r := Step(p, w, GO);
    if r.posts > w.posts {
      es := [GO];
      assert es[1..] == [];
    } else {
      var rest := SomePost(p, r);
      es := [GO] + rest;
      assert es[1..] == rest;
    }
  }

  // ---------------------------------------------------------------- a dry run

  /** A dry run ends before its loop. */
  predicate IsDry(p: Plan, w: World) {
    p.dryRun ==> !IsLoop(w.pc) && !InPass(w.pc) && AllIdle(w.workers)
  }

  lemma DryStaysDry(p: Plan, w: World, e: Event)
    requires IsWorld(p, w) && IsEnabled(w, e) && p.dryRun && IsDry(p, w)
    ensures IsDry(p, Step(p, w, e)) && Step(p, w, e).posts == w.posts
  {
    hide AllIdle, FinalizeRun, IsBlocked, AllCompleted, CancelRun, BlockRun, SetStatus, FailedStages, AnyUnavailable,
      WorkerStep, LoopStep, DispatchStep, OutcomeStep, ParallelStep;
    if e.Work? {
      BusyMeansNotIdle(w.workers, e.k);
    }
    NoneBusy(p);
  }

  lemma NoneBusy(p: Plan)
    ensures AllIdle(NoWorkers(p.teams))
  {
  }

  lemma {:induction false} DryRunStaysDry(p: Plan, w: World, es: seq<Event>)
    requires IsWorld(p, w) && p.dryRun && IsDry(p, w) && IsRun(p, w, es)
    ensures IsDry(p, After(p, w, es)) && After(p, w, es).posts == w.posts
    decreases |es|
  {
    hide Step, IsDry;
    if es != [] {
      DryStaysDry(p, w, es[0]);
      DryRunStaysDry(p, Step(p, w, es[0]), es[1..]);
    }
  }

  // ---------------------------------------------------------------- a recovery without budget

  /** Cancelled, and the recovery will find its budget used up. */
  predicate IsSpent(p: Plan, w: World) {
    && IsRecover(w.pc) && w.mem.status == Cancelled && w.mem.resumeCount >= MAX_RUN_RESUMES
    && IsFinal(w.disk.status)
    && w.mem.blockers == {} && AreUntouched(w.mem.stages)
  }

  lemma SpentEnds(p: Plan, w: World, a: Answer)
    requires p.teams >= 1 && Inv(p, w) && IsSpent(p, w)
    ensures IsSpent(p, RecoverStep(p, w, a)) || IsParked(RecoverStep(p, w, a))
  {
    UntouchedMeans(w.mem);
    hide IsBlocked, AllCompleted, Unfinished, AllIdle, CountersSaved, FingerprintsKept, BlockedStages, WithStatus,
      AnyUnavailable, FailedStages;
  }

  lemma SpentStaysSo(p: Plan, w: World, e: Event)
    requires p.teams >= 1 && Inv(p, w) && IsEnabled(w, e) && IsSpent(p, w)
    ensures (IsSpent(p, Step(p, w, e)) || IsParked(Step(p, w, e))) && Step(p, w, e).posts == w.posts
  {
    hide RecoverStep, CountersSaved, FingerprintsKept, AllIdle, AreUntouched;
    match e
    case Drive(a) => SpentEnds(p, w, a);
    case Work(k, a) => BusyMeansNotIdle(w.workers, k); assert false;
    case _ =>
  }

  lemma {:induction false} SpentForGood(p: Plan, w: World, es: seq<Event>)
    requires p.teams >= 1 && Inv(p, w) && (IsSpent(p, w) || IsParked(w)) && IsRun(p, w, es)
    ensures After(p, w, es).posts == w.posts
    decreases |es|
  {
    hide Step, IsSpent, IsParked, CountersSaved, FingerprintsKept, WorkersBelong;
    if IsParked(w) {
      HaltedForGood(p, w, es);
    } else if es != [] {
      SpentStaysSo(p, w, es[0]);
      StepKeepsInv(p, w, es[0]);
      SpentForGood(p, Step(p, w, es[0]), es[1..]);
    }
  }

  // ---------------------------------------------------------------- exactly when a cancel holds

  /**
   * The planning discussion is over or no decomposition will follow it; or nothing will be posted anyway, because the
   * run is a dry run or its recovery has no resume left.
   */
  predicate CancelHolds(p: Plan, w: World) {
    IsPastDecomposing(w) || p.dryRun || (IsRecover(w.pc) && w.mem.resumeCount >= MAX_RUN_RESUMES)
  }

  ghost predicate PostsNoMore(p: Plan, w: World)
    requires IsWorld(p, w)
  {
    forall es | IsRun(p, w, es) :: After(p, w, es).posts == w.posts
  }

  lemma CancelIsLost(p: Plan, w: World)
    requires IsPlan(p) && Inv(p, w) && Ending(p, w) && IsUp(w) && !IsFinal(w.mem.status) && !CancelHolds(p, w)
    ensures IsReady(p, Step(p, w, Cancel))
  {
    hide WorkersBelong, CountersSaved, FingerprintsKept, AllIdle, AreUntouched, CancelledStages;
    if !w.mem.decomposed {
      StillUntouched(w.mem.stages);
    }
  }

  lemma CancelSpends(p: Plan, w: World)
    requires Ending(p, w) && IsWorld(p, w) && !IsFinal(w.mem.status) && !IsPastDecomposing(w)
    requires IsRecover(w.pc) && w.mem.resumeCount >= MAX_RUN_RESUMES
    ensures IsSpent(p, Step(p, w, Cancel))
  {
    hide AllIdle, AreUntouched, CancelledStages;
    if !w.mem.decomposed {
      StillUntouched(w.mem.stages);
    }
  }

  /**
   * In every reachable, unfinished world whose driver is up, and in either mode: a cancel is followed by no post in any
   * continuation exactly when `CancelHolds`.
   */
  lemma CancelHoldsExactly(p: Plan, es: seq<Event>)
    requires IsPlan(p) && IsRun(p, Start(p), es)
    requires IsUp(After(p, Start(p), es)) && !IsFinal(After(p, Start(p), es).mem.status)
    ensures var w := After(p, Start(p), es); PostsNoMore(p, Step(p, w, Cancel)) <==> CancelHolds(p, w)
  {
    StartIsWithinBudget(p);
    StartIsEnding(p);
    RunEndsProperly(p, Start(p), es);
    var w := After(p, Start(p), es);
    StepKeepsInv(p, w, Cancel);
    if !CancelHolds(p, w) {
      CancelIsLost(p, w);
      var rest := SomePost(p, Step(p, w, Cancel));
    } else {
      forall rest | IsRun(p, Step(p, w, Cancel), rest)
        ensures After(p, Step(p, w, Cancel), rest).posts == Step(p, w, Cancel).posts
      {
        NothingAfterCancel(p, es, rest);
      }
    }
  }

  lemma NothingAfterCancel(p: Plan, es: seq<Event>, rest: seq<Event>)
    requires IsPlan(p) && IsRun(p, Start(p), es)
    requires var w := After(p, Start(p), es); IsUp(w) && !IsFinal(w.mem.status) && CancelHolds(p, w)
    requires IsRun(p, Step(p, After(p, Start(p), es), Cancel), rest)
    ensures var w := Step(p, After(p, Start(p), es), Cancel); After(p, w, rest).posts == w.posts
  {
    hide Ending, Counted, PostsCounted, CountersSaved, FingerprintsKept, WorkersBelong;
    var w := After(p, Start(p), es);
    if IsPastDecomposing(w) {
      NoPostAfterCancel(p, es, rest);
    } else if p.dryRun {
      DryRunStaysDry(p, Start(p), es);
      DryStaysDry(p, w, Cancel);
      DryRunStaysDry(p, Step(p, w, Cancel), rest);
    } else {
      StartIsWithinBudget(p);
      StartIsEnding(p);
      RunEndsProperly(p, Start(p), es);
      StepKeepsInv(p, w, Cancel);
      CancelSpends(p, w);
      SpentForGood(p, Step(p, w, Cancel), rest);
    }
  }

  /** A persisted cancel during the planning discussion of a fresh run is overwritten, and the run can go on to post. */
  lemma CancelDuringDiscussionIsLost(p: Plan)
    requires IsPlan(p) && !p.dryRun
    ensures IsEnabled(Start(p), Cancel) && Step(p, Start(p), Cancel).disk.status == Cancelled
    ensures !PostsNoMore(p, Step(p, Start(p), Cancel))
  {
    CancelHoldsExactly(p, []);
  }
}
