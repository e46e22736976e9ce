/** How many stage tasks a run can post, over all its passes, crashes and restarts. */
module CompanyBudget {
  import opened CompanyRecord
  import opened CompanyDriver
  import opened CompanyStops
  import opened CompanyOrder

  // ---------------------------------------------------------------- passes

  /** Nothing is left to do in this life: no stage is unfinished and nothing is being dispatched. */
  predicate IsQuiet(w: World) {
    && AllCompleted(w.mem.stages)
    && AllIdle(w.workers)
    && !AtStage(w.pc) && !w.pc.FanChoosing? && !w.pc.FanPosting?
    && (w.pc.Fanning? ==> forall i: nat | i in w.pc.todo :: i >= |w.mem.stages|)
  }

  /** The pass is the one after the completed ones, except that a life with nothing left may repeat the last. */
  predicate PassFollows(p: Plan, w: World) {
    w.it == w.mem.completedIterations + 1 || (IsQuiet(w) && w.it == w.mem.completedIterations == p.maxIterations)
  }

  predicate IterationFollows(p: Plan, w: World) {
    && (w.pc.LoopTop? || InPass(w.pc) ==> PassFollows(p, w))
    && (InPass(w.pc) ==> w.it <= p.maxIterations)
    && (w.pc.Reviewing? || w.pc.BackingOff? ==> w.it == w.mem.completedIterations)
    && (w.pc.BackingOff? ==> w.it < p.maxIterations)
  }

  predicate HasBudget(w: World) {
    w.mem.resumeCount <= MAX_RUN_RESUMES
  }

  /** Every life but the last may leave one pass unfinished, and so does the current one. */
  predicate PassesCounted(p: Plan, w: World) {
    var c, r := w.mem.completedIterations, w.mem.resumeCount;
    && c <= p.maxIterations
    && w.passes <= p.maxIterations + MAX_RUN_RESUMES
    && (HasBudget(w) ==> w.passes <= c + r + if IsOpen(w.pc) && c < p.maxIterations then 1 else 0)
  }

  /** A pass may be open, or may have been open when this life or the one before ended. */
  predicate IsOpen(pc: Pc) {
    InPass(pc) || IsRecover(pc) || pc.Down? || pc.Ended?
  }

  predicate Counted(p: Plan, w: World) {
    && PassesCounted(p, w)
    && IterationFollows(p, w)
    && (IsLife(w.pc) ==> HasBudget(w) || IsQuiet(w))
    && (IsPrepare(w.pc) ==> w.mem.completedIterations < p.maxIterations || IsQuiet(w))
  }

  // ---------------------------------------------------------------- a life with nothing left stays so

  lemma CompletedStagesStay(stages: seq<Stage>, missing: set<nat>)
    requires AllCompleted(stages)
    ensures RefinedStages(stages, missing) == stages && CancelledStages(stages) == stages
    ensures !AnyUnavailable(stages, missing) ==> FailedStages(stages, missing) == stages
  {
  }

  lemma SelectStaysQuiet(p: Plan, w: World, a: Answer)
    requires IsWorld(p, w) && w.pc.Selecting? && IsQuiet(w)
    ensures var r := Select(p, w, a); IsLife(r.pc) ==> IsQuiet(r)
  {
    hide IsBlocked, FinalizeRun, RefinedStages, FailedStages, AnyUnavailable, AnyUnfinishedUnavailable;
    CompletedStagesStay(w.mem.stages, a.unavailable);
  }

  lemma PrepareStaysQuiet(p: Plan, w: World, a: Answer)
    requires IsWorld(p, w) && IsPrepare(w.pc) && IsQuiet(w)
    ensures var r := PrepareStep(p, w, a); IsLife(r.pc) ==> IsQuiet(r)
  {
    hide Select;
    if w.pc.Selecting? {
      SelectStaysQuiet(p, w, a);
    }
  }

  lemma BeginPassStaysQuiet(p: Plan, w: World, a: Answer)
    requires IsWorld(p, w) && w.pc.LoopTop? && IsQuiet(w)
    ensures var r := BeginPass(p, w, a); IsLife(r.pc) ==> IsQuiet(r) && r.passes == w.passes
  {
    hide IsBlocked, FinalizeRun, RefinedStages, FailedStages, AnyUnavailable, AnyUnfinishedUnavailable;
    CompletedStagesStay(w.mem.stages, a.unavailable);
  }

  lemma LoopStaysQuiet(p: Plan, w: World, a: Answer)
    requires IsWorld(p, w) && IsLoop(w.pc) && IsQuiet(w)
    ensures var r := LoopStep(p, w, a); IsLife(r.pc) ==> IsQuiet(r)
  {
    hide BeginPass, IsBlocked, FinalizeRun, IsSettled;
    if w.pc.LoopTop? {
      BeginPassStaysQuiet(p, w, a);
    }
  }

  lemma DispatchStaysQuiet(p: Plan, w: World, a: Answer)
    requires IsWorld(p, w) && IsDispatch(w.pc) && IsQuiet(w)
    ensures var r := DispatchStep(p, w, a); IsLife(r.pc) ==> IsQuiet(r)
  {
    hide IsBlocked, FinalizeRun;
  }

  lemma ParallelStaysQuiet(p: Plan, w: World, a: Answer)
    requires IsWorld(p, w) && CanDrive(w) && InPass(w.pc) && IsQuiet(w)
    ensures var r := ParallelStep(p, w, a); IsLife(r.pc) ==> IsQuiet(r)
  {
    hide IsBlocked, FinalizeRun;
  }

  // ---------------------------------------------------------------- the pass count is kept

  lemma ResumeKeepsCounted(p: Plan, w: World)
    requires IsPlan(p) && IsWorld(p, w) && AllIdle(w.workers) && w.pc.Reconciling? && PassesCounted(p, w)
    ensures Counted(p, Resume(p, w))
  {
    hide FinalizeRun, IsBlocked, AllCompleted, AllIdle, IsWorld;
  }

  lemma RecoverKeepsCounted(p: Plan, w: World, a: Answer)
    requires IsPlan(p) && Inv(p, w) && IsRecover(w.pc) && Counted(p, w)
    ensures Counted(p, RecoverStep(p, w, a))
  {
    hide Resume, IsQuiet, IsBlocked, FinalizeRun, BlockedStages, WithStatus, CountersSaved, FingerprintsKept;
    if w.pc.Reconciling? && w.pc.i >= p.teams {
      ResumeKeepsCounted(p, w);
    }
  }

  lemma SelectKeepsCounted(p: Plan, w: World, a: Answer)
    requires IsPlan(p) && IsWorld(p, w) && w.pc.Selecting? && Counted(p, w)
    ensures Counted(p, Select(p, w, a))
  {
    hide Select, IsQuiet, IsWorld, IsBlocked, FinalizeRun, RefinedStages, FailedStages, AnyUnavailable,
      AnyUnfinishedUnavailable, AllCompleted, IsSettled;
    if IsQuiet(w) {
      SelectStaysQuiet(p, w, a);
    }
  }

  lemma PrepareKeepsCounted(p: Plan, w: World, a: Answer)
    requires IsPlan(p) && Inv(p, w) && IsPrepare(w.pc) && Counted(p, w)
    ensures Counted(p, PrepareStep(p, w, a))
  {
    hide Select, IsQuiet, IsWorld, CountersSaved, FingerprintsKept, WorkersBelong;
    if IsQuiet(w) {
      PrepareStaysQuiet(p, w, a);
    }
    if w.pc.Selecting? {
      SelectKeepsCounted(p, w, a);
    }
  }

  lemma BeginPassKeepsCounted(p: Plan, w: World, a: Answer)
    requires IsPlan(p) && IsWorld(p, w) && w.pc.LoopTop? && Counted(p, w)
    ensures Counted(p, BeginPass(p, w, a))
  {
    hide BeginPass, IsQuiet, IsWorld, IsBlocked, FinalizeRun, RefinedStages, FailedStages, AnyUnavailable,
      AnyUnfinishedUnavailable, AllCompleted, IsSettled;
    if IsQuiet(w) {
      BeginPassStaysQuiet(p, w, a);
    }
  }

  lemma EndPassKeepsCounted(p: Plan, w: World)
    requires IsPlan(p) && IsWorld(p, w) && w.pc.PassEnd? && Counted(p, w)
    ensures Counted(p, EndPass(p, w))
  {
    assert IsQuiet(w) ==> IsLife(EndPass(p, w).pc) ==> IsQuiet(EndPass(p, w)) by {
      hide IsSettled, IsBlocked, FinalizeRun;
    }
    hide IsQuiet, IsBlocked, FinalizeRun, RefinedStages, FailedStages, AnyUnavailable, AnyUnfinishedUnavailable,
      AllCompleted, IsSettled;
  }

  lemma LoopKeepsCounted(p: Plan, w: World, a: Answer)
    requires IsPlan(p) && Inv(p, w) && IsLoop(w.pc) && Counted(p, w)
    ensures Counted(p, LoopStep(p, w, a))
  {
    hide BeginPass, EndPass, IsQuiet, FinalizeRun, CountersSaved, FingerprintsKept, WorkersBelong;
    if w.pc.LoopTop? {
      BeginPassKeepsCounted(p, w, a);
    } else if w.pc.PassEnd? {
      EndPassKeepsCounted(p, w);
    } else if IsQuiet(w) {
      LoopStaysQuiet(p, w, a);
    }
  }

  lemma DispatchKeepsCounted(p: Plan, w: World, a: Answer)
    requires IsPlan(p) && Inv(p, w) && IsDispatch(w.pc) && Counted(p, w)
    ensures Counted(p, DispatchStep(p, w, a))
  {
    hide IsQuiet, IsBlocked, FinalizeRun, BlockedStages, WithStatus, WithStage, RefinedStages, FailedStages,
      AnyUnavailable, AnyUnfinishedUnavailable, StartedStages, SkippedAfter, CountersSaved, FingerprintsKept,
      WorkersBelong, AllCompleted, IsSettled;
    if IsQuiet(w) {
      DispatchStaysQuiet(p, w, a);
    }
  }

  lemma OutcomeKeepsCounted(p: Plan, w: World, a: Answer)
    requires IsPlan(p) && Inv(p, w) && IsOutcome(w.pc) && Counted(p, w)
    ensures Counted(p, OutcomeStep(p, w, a))
  {
    assert !IsQuiet(w);
    hide IsQuiet, IsBlocked, FinalizeRun, BlockedStages, WithStatus, WithStage, RefinedStages, FailedStages,
      AnyUnavailable, AnyUnfinishedUnavailable, StartedStages, SkippedAfter, CountersSaved, FingerprintsKept,
      WorkersBelong, AllCompleted, IsSettled;
  }

  lemma ParallelKeepsCounted(p: Plan, w: World, a: Answer)
    requires IsPlan(p) && Inv(p, w) && CanDrive(w) && InPass(w.pc) && Counted(p, w)
    ensures Counted(p, ParallelStep(p, w, a))
  {
    hide IsQuiet, IsBlocked, FinalizeRun, BlockedStages, WithStatus, WithStage, RefinedStages, FailedStages,
      AnyUnavailable, AnyUnfinishedUnavailable, StartedStages, SkippedAfter, CountersSaved, FingerprintsKept,
      WorkersBelong, AllCompleted, IsSettled;
    if IsQuiet(w) {
      ParallelStaysQuiet(p, w, a);
    }
  }

  lemma WorkKeepsCounted(p: Plan, w: World, k: nat, a: Answer)
    requires IsPlan(p) && Inv(p, w) && IsUp(w) && k < p.teams && w.workers[k] != Idle && Counted(p, w)
    ensures Counted(p, WorkerStep(p, w, k, a))
  {
    hide WorkerStep, CountersSaved, FingerprintsKept, AllCompleted;
    WorkKeepsCounters(p, w, k, a);
    assert !IsQuiet(w);
  }

  lemma WorkKeepsCounters(p: Plan, w: World, k: nat, a: Answer)
    requires IsWorld(p, w) && k < p.teams
    ensures var r := WorkerStep(p, w, k, a);
            && r.mem.completedIterations == w.mem.completedIterations && r.mem.resumeCount == w.mem.resumeCount
            && r.passes == w.passes && r.it == w.it && (r.pc == w.pc || r.pc == Ended)
  {
    hide IsBlocked, BlockedStages, WithStatus, WithStage, RetriedStages;
  }

  lemma CancelKeepsCounted(p: Plan, w: World)
    requires IsPlan(p) && IsWorld(p, w) && IsUp(w) && Counted(p, w)
    ensures Counted(p, Step(p, w, Cancel))
  {
    hide IsQuiet, CancelledStages;
    CancelStaysQuiet(p, w);
  }

  lemma StepKeepsCounted(p: Plan, w: World, e: Event)
    requires IsPlan(p) && Inv(p, w) && IsEnabled(w, e) && Counted(p, w)
    ensures Counted(p, Step(p, w, e))
  {
    hide DriveStep, WorkerStep, FingerprintsKept, WorkersBelong, RetriesOf, CancelRun, IsQuiet;
    match e
    case Drive(a) => DriveKeepsCounted(p, w, a);
    case Work(k, a) => WorkKeepsCounted(p, w, k, a);
    case Cancel => CancelKeepsCounted(p, w);
    case _ =>
  }

  lemma DriveKeepsCounted(p: Plan, w: World, a: Answer)
    requires IsPlan(p) && Inv(p, w) && CanDrive(w) && Counted(p, w)
    ensures Counted(p, DriveStep(p, w, a))
  {
    hide RecoverStep, PrepareStep, LoopStep, DispatchStep, OutcomeStep, ParallelStep, Counted, Inv;
    if IsRecover(w.pc) {
      RecoverKeepsCounted(p, w, a);
    } else if IsPrepare(w.pc) {
      PrepareKeepsCounted(p, w, a);
    } else if IsLoop(w.pc) {
      LoopKeepsCounted(p, w, a);
    } else if IsDispatch(w.pc) {
      DispatchKeepsCounted(p, w, a);
    } else if IsOutcome(w.pc) {
      OutcomeKeepsCounted(p, w, a);
    } else {
      ParallelKeepsCounted(p, w, a);
    }
  }

  // ---------------------------------------------------------------- posts of a pipeline

  /** No more than three per settled stage and per pass; the last stage to be settled takes no failing pass with it. */
  function PipelineCap(p: Plan, settled: nat, passes: nat): int {
    MAX_STAGE_ATTEMPTS * (settled + passes - if settled == p.teams then 1 else 0)
  }

  /** How many posts the stage in hand can make, or the next one. */
  function AttemptsLeft(pc: Pc): int {
    match pc
    case Attempting(s, i, count) => MAX_STAGE_ATTEMPTS - i
    case Posting(s, i, count) => MAX_STAGE_ATTEMPTS - i - 1
    case AwaitingTask(s, i, count) => MAX_STAGE_ATTEMPTS - i - 1
    case Judging(s, i, count, r) => MAX_STAGE_ATTEMPTS - i - 1
    case _ => MAX_STAGE_ATTEMPTS
  }

  predicate AreBelow(settled: set<nat>, n: nat) {
    forall i :: i in settled ==> i < n
  }

  predicate PipelinePosts(p: Plan, w: World) {
    && AreBelow(Settled(w), p.teams)
    && w.posts <= PipelineCap(p, |Settled(w)|, w.passes)
    && (AtStage(w.pc) || w.pc.StageHead? ==>
          IsQuiet(w) || w.posts + AttemptsLeft(w.pc) <= MAX_STAGE_ATTEMPTS * (|Settled(w)| + w.passes))
  }

  lemma QuietIsElsewhere(w: World)
    ensures IsQuiet(w) ==> !AtStage(w.pc) && !w.pc.FanChoosing? && !w.pc.FanPosting?
  {
  }

  lemma OneMorePass(unit: nat, passes: nat)
    ensures unit * (passes + 1) == unit * passes + unit
  {
  }

  lemma {:induction false} CountBelow(settled: set<nat>, n: nat)
    requires AreBelow(settled, n)
    ensures |settled| <= n
    decreases n
  {
    if settled != {} {
      CountBelow(settled - {n - 1}, n - 1);
    }
  }

  lemma OneIsMissing(settled: set<nat>, n: nat, s: nat)
    requires AreBelow(settled, n) && s < n && s !in settled
    ensures |settled| < n && |settled + {s}| == |settled| + 1
  {
    CountBelow(settled + {s}, n);
  }

  /** Settling a stage pays for itself. */
  lemma SettlingPays(p: Plan, before: set<nat>, after: set<nat>, passes: nat)
    requires before <= after && AreBelow(after, p.teams)
    ensures PipelineCap(p, |before|, passes) <= PipelineCap(p, |after|, passes)
  {
    CountBelow(before, p.teams);
    CountBelow(after, p.teams);
    assert after == before + (after - before);
  }

  lemma SettledStayBelow(p: Plan, w: World, e: Event)
    requires IsPipelineWorld(p, w) && Ordered(w) && IsEnabled(w, e) && AreBelow(Settled(w), p.teams)
    ensures AreBelow(Settled(Step(p, w, e)), p.teams)
  {
    hide Step, Ordered, WorkersBelong, CountersSaved, FingerprintsKept, AllIdle;
    forall i | i in Settled(Step(p, w, e))
      ensures i < p.teams
    {
      AcceptanceIsEarned(p, w, e, i);
      SlipsExactly(p, w, e, i);
    }
  }

  lemma LoopKeepsPosts(p: Plan, w: World, a: Answer)
    requires IsPipelineWorld(p, w) && IsLoop(w.pc) && PipelinePosts(p, w)
    ensures PipelinePosts(p, LoopStep(p, w, a))
  {
    hide BeginPass, AllCompleted, IsBlocked, IsSettled, FinalizeRun, WorkersBelong, CountersSaved, FingerprintsKept,
      AllIdle, IsQuiet;
    LoopHistory(p, w, a);
    BeginPassIsQuiet(p, w, a);
  }

  /** A pass that is not counted has nothing to do. */
  lemma BeginPassIsQuiet(p: Plan, w: World, a: Answer)
    requires IsPipelineWorld(p, w)
    ensures var r := BeginPass(p, w, a); r.pc.StageHead? && r.passes == w.passes ==> IsQuiet(r)
  {
    hide RefinedStages, IsBlocked, FinalizeRun, AnyUnfinishedUnavailable;
  }

  /** The stage in hand has not been settled yet. */
  lemma InHandIsUnsettled(p: Plan, w: World)
    requires IsPipelineWorld(p, w) && Ordered(w) && AtStage(w.pc) && AreBelow(Settled(w), p.teams)
    ensures |Settled(w)| < p.teams && |Settled(w) + {w.pc.s}| == |Settled(w)| + 1
  {
    hide WorkersBelong, CountersSaved, FingerprintsKept, AllIdle, IsClean, AreCompleted, AreBelow;
    OneIsMissing(Settled(w), p.teams, w.pc.s);
  }

  lemma DispatchKeepsPosts(p: Plan, w: World, a: Answer)
    requires IsPipelineWorld(p, w) && Ordered(w) && IsDispatch(w.pc) && PipelinePosts(p, w)
    ensures PipelinePosts(p, DispatchStep(p, w, a))
  {
    hide IsBlocked, WithStatus, WithStage, IsQuiet, AllIdle, Ordered, WorkersBelong, CountersSaved, FingerprintsKept,
      AreBelow;
    QuietIsElsewhere(w);
    DispatchHistory(p, w, a);
    if AtStage(w.pc) {
      InHandIsUnsettled(p, w);
    }
    if IsQuiet(w) {
      DispatchStaysQuiet(p, w, a);
    }
  }

  /** The stage in hand is left, settled or not, or the next candidate is tried. */
  lemma OutcomeMovesOn(p: Plan, w: World, a: Answer)
    requires IsWorld(p, w) && IsOutcome(w.pc)
    ensures var r := OutcomeStep(p, w, a);
            && (Settled(r) == Settled(w) || Settled(r) == Settled(w) + {w.pc.s})
            && (r.pc.StageHead? ==> Settled(r) == Settled(w) + {w.pc.s})
            && (AtStage(r.pc) ==> Settled(r) == Settled(w) && AttemptsLeft(r.pc) == AttemptsLeft(w.pc))
            && r.posts == w.posts && r.passes == w.passes
  {
    hide BlockRun, SetStatus, SkippedAfter;
    assert (w.judged + {w.pc.s}) + w.slipped == Settled(w) + {w.pc.s};
  }

  lemma OutcomeKeepsPosts(p: Plan, w: World, a: Answer)
    requires IsPipelineWorld(p, w) && Ordered(w) && IsOutcome(w.pc) && PipelinePosts(p, w)
    ensures PipelinePosts(p, OutcomeStep(p, w, a))
  {
    hide OutcomeStep, IsQuiet, AllIdle, Ordered, WorkersBelong, CountersSaved, FingerprintsKept, Settled;
    QuietIsElsewhere(w);
    InHandIsUnsettled(p, w);
    OutcomeMovesOn(p, w, a);
  }

  /** Every other step only settles stages. */
  lemma SettlingKeepsPosts(p: Plan, w: World, r: World)
    requires PipelinePosts(p, w) && Settled(w) <= Settled(r) && AreBelow(Settled(r), p.teams)
    requires r.posts == w.posts && r.passes == w.passes && !AtStage(r.pc) && !r.pc.StageHead?
    ensures PipelinePosts(p, r)
  {
    hide PipelineCap, IsQuiet;
    SettlingPays(p, Settled(w), Settled(r), w.passes);
  }

  lemma RecoverStaysOutside(p: Plan, w: World, a: Answer)
    requires IsWorld(p, w) && IsRecover(w.pc)
    ensures var r := RecoverStep(p, w, a); r.passes == w.passes && !AtStage(r.pc) && !r.pc.StageHead?
  {
    hide FinalizeRun, IsBlocked, AllCompleted, BlockedStages, WithStatus;
  }

  lemma RecoverKeepsPosts(p: Plan, w: World, a: Answer)
    requires IsPipelineWorld(p, w) && Ordered(w) && IsRecover(w.pc) && PipelinePosts(p, w)
    ensures PipelinePosts(p, RecoverStep(p, w, a))
  {
    assert Step(p, w, Drive(a)) == RecoverStep(p, w, a);
    SettledStayBelow(p, w, Drive(a));
    hide RecoverStep, WorkersBelong, CountersSaved, FingerprintsKept, AllIdle, Ordered, PipelinePosts, AreBelow;
    RecoverStaysOutside(p, w, a);
    SettlingKeepsPosts(p, w, RecoverStep(p, w, a));
  }

  lemma PrepareKeepsPosts(p: Plan, w: World, a: Answer)
    requires IsPipelineWorld(p, w) && IsPrepare(w.pc) && PipelinePosts(p, w)
    ensures PipelinePosts(p, PrepareStep(p, w, a))
  {
    hide FinalizeRun, AnyUnavailable, FailedStages, WorkersBelong, CountersSaved, FingerprintsKept, AllIdle;
    PrepareHistory(p, w, a);
  }

  lemma CrashKeepsPosts(p: Plan, w: World)
    requires IsPipelineWorld(p, w) && Ordered(w) && IsUp(w) && PipelinePosts(p, w)
    ensures PipelinePosts(p, Step(p, w, Crash))
  {
    SettledStayBelow(p, w, Crash);
    hide Inv, Ordered, PipelinePosts, AllIdle, AreBelow, CompletedSet;
    SettlingKeepsPosts(p, w, Step(p, w, Crash));
  }

  lemma PipelineKeepsPosts(p: Plan, w: World, e: Event)
    requires IsPipelineWorld(p, w) && Ordered(w) && IsEnabled(w, e) && PipelinePosts(p, w)
    ensures PipelinePosts(p, Step(p, w, e))
  {
    hide RecoverStep, PrepareStep, LoopStep, DispatchStep, OutcomeStep, ParallelStep, WorkerStep, Ordered,
      WorkersBelong, CountersSaved, FingerprintsKept, PipelineCap, IsQuiet, CancelRun, CompletedSet;
    match e
    case Drive(a) =>
      if IsRecover(w.pc) {
        RecoverKeepsPosts(p, w, a);
      } else if IsPrepare(w.pc) {
        PrepareKeepsPosts(p, w, a);
      } else if IsLoop(w.pc) {
        LoopKeepsPosts(p, w, a);
      } else if IsDispatch(w.pc) {
        DispatchKeepsPosts(p, w, a);
      } else {
        OutcomeKeepsPosts(p, w, a);
      }
    case Work(k, a) => BusyMeansNotIdle(w.workers, k); assert false;
    case Cancel => CancelStaysQuiet(p, w);
    case Crash => CrashKeepsPosts(p, w);
    case _ =>
  }

  // ---------------------------------------------------------------- posts of a parallel run

  function Sum(ns: seq<nat>): nat {
    if ns == [] then 0 else Sum(ns[..|ns| - 1]) + ns[|ns| - 1]
  }

  lemma {:induction false} SumOfOneMore(ns: seq<nat>, k: nat)
    requires k < |ns|
    ensures Sum(ns[k := ns[k] + 1]) == Sum(ns) + 1
  {
    var more := ns[k := ns[k] + 1];
    if k == |ns| - 1 {
      assert more[..|ns| - 1] == ns[..|ns| - 1];
    } else {
      assert more[..|ns| - 1] == ns[..|ns| - 1][k := ns[k] + 1];
      SumOfOneMore(ns[..|ns| - 1], k);
    }
  }

  lemma {:induction false} SumBound(ns: seq<nat>)
    requires forall i :: 0 <= i < |ns| ==> ns[i] <= 1
    ensures Sum(ns) <= |ns|
  {
    if ns != [] {
      SumBound(ns[..|ns| - 1]);
    }
  }

  /** No stage has been retried twice, and a retry that is being prepared is the first of its stage. */
  predicate OncePerStage(rs: seq<nat>, workers: seq<Worker>) {
    && |workers| == |rs|
    && (forall i :: 0 <= i < |rs| ==> rs[i] <= 1)
    && (forall k :: 0 <= k < |workers| && workers[k] == ChoosingProvider ==> rs[k] == 0)
  }

  predicate RetriedOnce(w: World) {
    OncePerStage(RetriesOf(w.mem.stages), w.workers)
  }

  lemma WorkerMovesOn(rs: seq<nat>, workers: seq<Worker>, k: nat, worker: Worker)
    requires OncePerStage(rs, workers) && k < |rs| && worker != ChoosingProvider
    ensures OncePerStage(rs, workers[k := worker])
    ensures workers[k] == ChoosingProvider ==> OncePerStage(rs[k := rs[k] + 1], workers[k := worker])
  {
  }

  predicate ParallelPosts(p: Plan, w: World) {
    var cap := p.teams * w.passes + Sum(RetriesOf(w.mem.stages));
    && RetriedOnce(w)
    && !AtStage(w.pc) && !w.pc.StageHead?
    && w.posts <= cap
    && (w.pc.Fanning? || w.pc.FanChoosing? || w.pc.FanPosting? ==> IsQuiet(w) || w.posts + StillFanning(p, w.pc) <= cap)
  }

  /** How many first posts the rest of the dispatch loop can make. */
  function StillFanning(p: Plan, pc: Pc): int {
    match pc
    case Fanning(s, todo) => p.teams - s
    case FanChoosing(s, todo) => p.teams - s
    case FanPosting(s, todo) => p.teams - s - 1
    case _ => 0
  }

  lemma BeginParallelPosts(p: Plan, w: World, a: Answer)
    requires IsPlan(p) && p.mode != Pipeline && IsWorld(p, w) && w.pc.LoopTop? && AllIdle(w.workers) && ParallelPosts(p, w)
    ensures ParallelPosts(p, BeginPass(p, w, a))
  {
    hide BeginPass, RetriesOf, Sum, OncePerStage, IsWorld, AllCompleted, AllIdle;
    OneMorePass(p.teams, w.passes);
    BeginPassKeepsRetries(p, w, a);
    BeginPassTodo(p, w, a);
  }

  lemma BeginPassKeepsRetries(p: Plan, w: World, a: Answer)
    requires IsWorld(p, w)
    ensures RetriesOf(BeginPass(p, w, a).mem.stages) == RetriesOf(w.mem.stages)
  {
    hide RetriesOf, RefinedStages, IsBlocked, FinalizeRun, AllCompleted, AnyUnfinishedUnavailable;
    RetriesUnchanged();
  }

  lemma BeginPassTodo(p: Plan, w: World, a: Answer)
    requires IsWorld(p, w) && AllIdle(w.workers)
    ensures var r := BeginPass(p, w, a); r.pc.Fanning? && AllCompleted(r.mem.stages) ==> IsQuiet(r)
  {
    hide RefinedStages, IsBlocked, FinalizeRun, AnyUnfinishedUnavailable;
  }

  lemma RecoverKeepsParallelPosts(p: Plan, w: World, a: Answer)
    requires IsPlan(p) && p.mode != Pipeline && Inv(p, w) && IsRecover(w.pc) && ParallelPosts(p, w)
    ensures ParallelPosts(p, RecoverStep(p, w, a))
  {
    hide FingerprintsKept, CountersSaved, OncePerStage, IsQuiet, AllCompleted, IsBlocked, FinalizeRun, RetriesOf, Sum,
      WithStatus, WithStage, BlockedStages, FailedStages, StartedStages, AnyUnavailable, IsSettled;
    RetriesUnchanged();
  }

  lemma PrepareKeepsParallelPosts(p: Plan, w: World, a: Answer)
    requires IsPlan(p) && p.mode != Pipeline && Inv(p, w) && IsPrepare(w.pc) && ParallelPosts(p, w)
    ensures ParallelPosts(p, PrepareStep(p, w, a))
  {
    hide IsBlocked, FinalizeRun, RetriesOf, Sum, WithStatus, WithStage, BlockedStages, FailedStages, StartedStages,
      AnyUnavailable, IsSettled;
    RetriesUnchanged();
  }

  lemma LoopKeepsParallelPosts(p: Plan, w: World, a: Answer)
    requires IsPlan(p) && p.mode != Pipeline && Inv(p, w) && IsLoop(w.pc) && ParallelPosts(p, w)
    ensures ParallelPosts(p, LoopStep(p, w, a))
  {
    hide IsBlocked, FinalizeRun, RetriesOf, Sum, WithStatus, WithStage, BlockedStages, FailedStages, StartedStages,
      AnyUnavailable, IsSettled, BeginPass;
    RetriesUnchanged();
    if w.pc.LoopTop? {
      BeginParallelPosts(p, w, a);
    }
  }

  lemma BeginRetriesKeepsPosts(p: Plan, w: World)
    requires p.mode != Pipeline && IsWorld(p, w) && w.pc.Collecting? && AllIdle(w.workers) && ParallelPosts(p, w)
    ensures ParallelPosts(p, BeginRetries(p, w))
  {
    hide IsStopped, RetriesOf, Sum, IsQuiet, Retriers;
    FreshRetriers(w.mem.stages);
  }

  lemma FanKeepsRetriedOnce(p: Plan, w: World)
    requires IsWorld(p, w) && w.pc.Fanning? && RetriedOnce(w)
    ensures RetriedOnce(Fan(p, w, w.pc.s, w.pc.todo))
  {
    hide IsStopped, IsBlocked, RetriesOf, StartedStages;
    RetriesUnchanged();
  }

  lemma ParallelKeepsParallelPosts(p: Plan, w: World, a: Answer)
    requires IsPlan(p) && p.mode != Pipeline && Inv(p, w) && ParallelPosts(p, w)
    requires CanDrive(w) && !IsRecover(w.pc) && !IsPrepare(w.pc) && !IsLoop(w.pc)
    ensures ParallelPosts(p, ParallelStep(p, w, a))
  {
    hide BeginRetries, IsBlocked, RetriesOf, Sum, WithStage, StartedStages, FingerprintsKept, CountersSaved,
      OncePerStage, IsQuiet, AllIdle;
    QuietIsElsewhere(w);
    if IsQuiet(w) && InPass(w.pc) {
      ParallelStaysQuiet(p, w, a);
    }
    RetriesUnchanged();
    if w.pc.Collecting? {
      BeginRetriesKeepsPosts(p, w);
    }
    if w.pc.Fanning? {
      FanKeepsRetriedOnce(p, w);
    }
  }

  lemma FreshRetriers(stages: seq<Stage>)
    ensures forall k :: 0 <= k < |stages| && Retriers(stages)[k] == ChoosingProvider ==> RetriesOf(stages)[k] == 0
  {
  }

  lemma RetryIsCounted(stages: seq<Stage>, k: nat)
    requires k < |stages|
    ensures RetriesOf(RetriedStages(stages, k)) == RetriesOf(stages)[k := RetriesOf(stages)[k] + 1]
    ensures Sum(RetriesOf(RetriedStages(stages, k))) == Sum(RetriesOf(stages)) + 1
  {
    assert RetriesOf(RetriedStages(stages, k)) == RetriesOf(stages)[k := RetriesOf(stages)[k] + 1];
    SumOfOneMore(RetriesOf(stages), k);
  }

  lemma WorkKeepsRetriedOnce(p: Plan, w: World, k: nat, a: Answer)
    requires IsWorld(p, w) && k < p.teams && RetriedOnce(w)
    ensures RetriedOnce(WorkerStep(p, w, k, a))
  {
    hide OncePerStage, IsBlocked, RetriesOf, Sum, WithStatus, WithStage, BlockedStages, RetriedStages;
    RetriesUnchanged();
    RetryIsCounted(w.mem.stages, k);
    var rs := RetriesOf(w.mem.stages);
    WorkerMovesOn(rs, w.workers, k, Idle);
    WorkerMovesOn(rs, w.workers, k, PostingTask);
    WorkerMovesOn(rs, w.workers, k, WaitingForTask);
  }

  lemma WorkPostsCounted(p: Plan, w: World, k: nat, a: Answer)
    requires IsWorld(p, w) && k < p.teams
    ensures var r := WorkerStep(p, w, k, a);
            r.posts - Sum(RetriesOf(r.mem.stages)) <= w.posts - Sum(RetriesOf(w.mem.stages)) && r.passes == w.passes
    ensures WorkerStep(p, w, k, a).pc == w.pc || WorkerStep(p, w, k, a).pc == Ended
  {
    hide IsBlocked, RetriesOf, Sum, WithStatus, WithStage, BlockedStages, RetriedStages;
    RetriesUnchanged();
    RetryIsCounted(w.mem.stages, k);
  }

  lemma WorkKeepsParallelPosts(p: Plan, w: World, k: nat, a: Answer)
    requires IsPlan(p) && Inv(p, w) && IsUp(w) && k < p.teams && w.workers[k] != Idle && ParallelPosts(p, w)
    ensures ParallelPosts(p, WorkerStep(p, w, k, a))
  {
    hide WorkerStep, RetriedOnce, CountersSaved, FingerprintsKept;
    WorkKeepsRetriedOnce(p, w, k, a);
    WorkPostsCounted(p, w, k, a);
  }

  // ---------------------------------------------------------------- the bound

  /** In a pipeline together with the order of the stages, which the count depends on. */
  ghost predicate PostsCounted(p: Plan, w: World) {
    if p.mode == Pipeline then IsPipelineWorld(p, w) && Ordered(w) && PipelinePosts(p, w) else ParallelPosts(p, w)
  }

  lemma StepKeepsPosts(p: Plan, w: World, e: Event)
    requires IsPlan(p) && Inv(p, w) && IsEnabled(w, e) && PostsCounted(p, w)
    ensures PostsCounted(p, Step(p, w, e))
  {
    hide Step, IsEnabled, Inv, Ordered, PipelinePosts, ParallelPosts, IsPipelineWorld;
    if p.mode == Pipeline {
      StepKeepsOrder(p, w, e);
      PipelineKeepsPosts(p, w, e);
    } else {
      ParallelModeKeepsPosts(p, w, e);
    }
  }

  lemma ParallelModeKeepsPosts(p: Plan, w: World, e: Event)
    requires IsPlan(p) && p.mode != Pipeline && Inv(p, w) && IsEnabled(w, e) && ParallelPosts(p, w)
    ensures ParallelPosts(p, Step(p, w, e))
  {
    hide WorkerStep, DriveStep, RetriesOf, Sum, CancelledStages, FingerprintsKept;
    match e
    case Drive(a) => DriveKeepsParallelPosts(p, w, a);
    case Work(k, a) => WorkKeepsParallelPosts(p, w, k, a);
    case Cancel => CancelKeepsParallelPosts(p, w);
    case _ =>
  }

  lemma CancelKeepsParallelPosts(p: Plan, w: World)
    requires Inv(p, w) && IsUp(w) && ParallelPosts(p, w)
    ensures ParallelPosts(p, Step(p, w, Cancel))
  {
    hide CancelledStages, RetriesOf, Sum, FingerprintsKept, CountersSaved, WorkersBelong, OncePerStage, IsQuiet,
      StillFanning;
    RetriesUnchanged();
    CancelStaysQuiet(p, w);
  }

  lemma CancelStaysQuiet(p: Plan, w: World)
    requires IsWorld(p, w) && IsUp(w)
    ensures IsQuiet(w) ==> IsQuiet(Step(p, w, Cancel))
  {
    hide CancelledStages;
    if IsQuiet(w) {
      CompletedStagesStay(w.mem.stages, {});
    }
  }

  lemma DriveKeepsParallelPosts(p: Plan, w: World, a: Answer)
    requires IsPlan(p) && p.mode != Pipeline && Inv(p, w) && CanDrive(w) && ParallelPosts(p, w)
    ensures ParallelPosts(p, DriveStep(p, w, a))
  {
    hide RecoverStep, PrepareStep, LoopStep, DispatchStep, OutcomeStep, ParallelStep, FingerprintsKept, CountersSaved,
      RetriesOf, RetriedOnce;
    if IsRecover(w.pc) {
      RecoverKeepsParallelPosts(p, w, a);
    } else if IsPrepare(w.pc) {
      PrepareKeepsParallelPosts(p, w, a);
    } else if IsLoop(w.pc) {
      LoopKeepsParallelPosts(p, w, a);
    } else {
      ParallelKeepsParallelPosts(p, w, a);
    }
  }

  ghost predicate WithinBudget(p: Plan, w: World) {
    Inv(p, w) && Counted(p, w) && PostsCounted(p, w)
  }

  lemma StartIsWithinBudget(p: Plan)
    requires IsPlan(p)
    ensures WithinBudget(p, Start(p))
  {
    var rs := RetriesOf(Start(p).mem.stages);
    assert forall i :: 0 <= i < |rs| ==> rs[i] == 0;
    if p.mode == Pipeline {
      StartIsOrdered(p);
    }
  }

  lemma {:induction false} RunStaysWithinBudget(p: Plan, w: World, es: seq<Event>)
    requires IsPlan(p) && WithinBudget(p, w) && IsRun(p, w, es)
    ensures WithinBudget(p, After(p, w, es))
    decreases |es|
  {
    hide Step, Counted, PostsCounted, CountersSaved, FingerprintsKept, WorkersBelong;
    if es != [] {
      StepKeepsInv(p, w, es[0]);
      StepKeepsCounted(p, w, es[0]);
      StepKeepsPosts(p, w, es[0]);
      RunStaysWithinBudget(p, Step(p, w, es[0]), es[1..]);
    }
  }

  /** How many stage tasks a run may ever post. */
  function PostLimit(p: Plan): nat {
    if p.mode == Pipeline then MAX_STAGE_ATTEMPTS * (p.teams + p.maxIterations + MAX_RUN_RESUMES - 1)
    else p.teams * (p.maxIterations + MAX_RUN_RESUMES) + p.teams
  }

  /** Across all passes, crashes, restarts, cancels and failures, a run posts at most `PostLimit` stage tasks. */
  lemma PostsAreBounded(p: Plan, es: seq<Event>)
    requires IsPlan(p) && IsRun(p, Start(p), es)
    ensures After(p, Start(p), es).posts <= PostLimit(p)
    ensures After(p, Start(p), es).passes <= p.maxIterations + MAX_RUN_RESUMES
  {
    StartIsWithinBudget(p);
    RunStaysWithinBudget(p, Start(p), es);
    BudgetBoundsPosts(p, After(p, Start(p), es));
  }

  lemma BudgetBoundsPosts(p: Plan, w: World)
    requires IsPlan(p) && WithinBudget(p, w)
    ensures w.posts <= PostLimit(p) && w.passes <= p.maxIterations + MAX_RUN_RESUMES
  {
    hide FingerprintsKept, WorkersBelong, IterationFollows, IsQuiet, RetriesOf, Sum, Ordered;
    SumBoundIfAny(RetriesOf(w.mem.stages));
    if p.mode == Pipeline {
      CountBelow(Settled(w), p.teams);
    }
    MorePassesMorePosts(p.teams, w.passes, p.maxIterations + MAX_RUN_RESUMES);
  }

  lemma SumBoundIfAny(ns: seq<nat>)
    ensures (forall i :: 0 <= i < |ns| ==> ns[i] <= 1) ==> Sum(ns) <= |ns|
  {
    if forall i :: 0 <= i < |ns| ==> ns[i] <= 1 {
      SumBound(ns);
    }
  }

  lemma MorePassesMorePosts(unit: nat, passes: nat, limit: nat)
    requires passes <= limit
    ensures unit * passes <= unit * limit
  {
  }
}
