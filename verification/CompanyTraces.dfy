/** Runs that show where the guarantees of the driver end. */
module CompanyTraces {
  import opened Text
  import opened CompanyRecord
  import opened CompanyDriver
  import opened CompanyStops
  import opened CompanyOrder
  import opened CompanyBudget
  import opened CompanyCancel

  /** `es` leads from `w` to `r`. */
  predicate Leads(p: Plan, w: World, es: seq<Event>, r: World)
    requires IsWorld(p, w)
  {
    IsRun(p, w, es) && After(p, w, es) == r
  }

  lemma {:induction false} OneMore(p: Plan, w: World, es: seq<Event>, r: World, e: Event)
    requires IsWorld(p, w) && Leads(p, w, es, r) && IsEnabled(r, e)
    ensures Leads(p, w, es + [e], Step(p, r, e))
    decreases |es|
  {
    hide Step, IsWorld;
    if es == [] {
      assert es + [e] == [e] && [e][1..] == [];
      var next := Step(p, w, e);
      assert IsRun(p, next, []) && After(p, next, []) == next;
    } else {
      assert (es + [e])[0] == es[0] && (es + [e])[1..] == es[1..] + [e];
      OneMore(p, Step(p, w, es[0]), es[1..], r, e);
    }
  }

  // ---------------------------------------------------------------- the value gate

  /** A pipeline about to judge an acceptable report that says reject, with nothing stopped. */
  ghost predicate RejectsAt(p: Plan, w: World, s: nat) {
    && IsPlan(p) && IsPipelineWorld(p, w) && Ordered(w) && Counted(p, w)
    && w.pc.Judging? && w.pc.s == s < p.teams && p.gate == Some(s)
    && w.pc.r.status == TaskCompleted && w.pc.r.isAcceptable && w.pc.r.decision == Reject
    && !IsHalting(w.mem)
  }

  lemma RejectSkipsTheRest(p: Plan, w: World, s: nat)
    requires RejectsAt(p, w, s)
    ensures var r := Step(p, w, GO);
            && r.pc == PassEnd && r.it == w.it && r.mem.decision == Some(Reject) && r.mem.status == w.mem.status
            && r.mem.blockers == {} && BlockersKnown(r.mem.stages, {})
            && (forall i :: 0 <= i < p.teams ==> r.mem.stages[i].status == if i <= s then StageCompleted else StageSkipped)
  {
    hide IsQuiet, WorkersBelong, CountersSaved;
  }

  lemma RejectedPassIsReviewed(p: Plan, w: World, s: nat)
    requires IsWorld(p, w) && w.pc == PassEnd && w.mem.status != Cancelled && w.mem.blockers == {}
    requires BlockersKnown(w.mem.stages, {}) && w.mem.decision == Some(Reject)
    requires forall i :: 0 <= i < p.teams ==> w.mem.stages[i].status == if i <= s then StageCompleted else StageSkipped
    ensures var r := Step(p, w, GO);
            r.pc == Reviewing && r.it == w.it && r.mem == w.mem.(completedIterations := w.it)
  {
    BlockedByFingerprint(w.mem);
    BlockedByFingerprint(w.mem.(completedIterations := w.it));
    hide BlockersKnown, IsBlocked, FinalizeRun;
  }

  /**
   * After a rejection the pass is over and every later stage is skipped. That is the end of the run exactly when the
   * quality review succeeds or no pass is left; otherwise the next pass makes every skipped stage pending again.
   */
  lemma RejectHoldsUnlessReviewFails(p: Plan, w: World, s: nat, review: Answer, next: Answer)
    requires RejectsAt(p, w, s)
    ensures var w1 := Step(p, w, GO);
            && w1.pc == PassEnd
            && var w2 := Step(p, w1, GO);
            && w2.pc == Reviewing
            && var w3 := Step(p, w2, Drive(review));
            && (w3.pc == Ended <==> review.ok || w.it >= p.maxIterations)
            && (w3.pc != Ended && next.unavailable == {} ==>
                  && IsEnabled(w3, Drive(next))
                  && var w4 := Step(p, w3, Drive(next));
                  && w4.pc == StageHead(0)
                  && forall i :: s < i < p.teams ==> w4.mem.stages[i].status == StagePending)
  {
    assert w.it >= 1 by {
      hide IsQuiet, IsPipelineWorld, Ordered;
    }
    hide Step, RejectsAt;
    RejectSkipsTheRest(p, w, s);
    var w1 := Step(p, w, GO);
    RejectedPassIsReviewed(p, w1, s);
    var w2 := Step(p, w1, GO);
    ReviewAfterReject(p, w2, s, review, next);
  }

  lemma ReviewAfterReject(p: Plan, w: World, s: nat, review: Answer, next: Answer)
    requires p.mode == Pipeline && IsWorld(p, w) && w.pc == Reviewing && w.mem.status != Cancelled && w.mem.blockers == {}
    requires forall i :: 0 <= i < p.teams ==> w.mem.stages[i].status == if i <= s then StageCompleted else StageSkipped
    ensures var r := Step(p, w, Drive(review));
            && (r.pc == Ended <==> review.ok || w.it >= p.maxIterations)
            && (r.pc != Ended && w.it >= 1 && next.unavailable == {} ==>
                  && IsEnabled(r, Drive(next))
                  && Step(p, r, Drive(next)).pc == StageHead(0)
                  && forall i :: s < i < p.teams ==> Step(p, r, Drive(next)).mem.stages[i].status == StagePending)
  {
    var r := Step(p, w, Drive(review));
    assert r.pc == Ended || r == w.(pc := LoopTop, it := w.it + 1);
    if r.pc != Ended && w.it >= 1 && next.unavailable == {} {
      NextPassStartsOver(p, r, s, next);
    }
    hide Step;
  }

  lemma NextPassStartsOver(p: Plan, w: World, s: nat, next: Answer)
    requires p.mode == Pipeline && IsWorld(p, w) && w.pc == LoopTop && 1 < w.it <= p.maxIterations
    requires w.mem.status != Cancelled && w.mem.blockers == {} && next.unavailable == {}
    requires forall i :: 0 <= i < p.teams ==> w.mem.stages[i].status == if i <= s then StageCompleted else StageSkipped
    ensures var r := Step(p, w, Drive(next));
            r.pc == StageHead(0) && forall i :: s < i < p.teams ==> r.mem.stages[i].status == StagePending
  {
    hide FinalizeRun;
    assert !IsStopped(w.mem);
    hide IsStopped, AllCompleted;
  }

  // ---------------------------------------------------------------- stages that slip through

  /**
   * The status `completed` is persisted before the output is judged: after a crash in between, the restarted run
   * takes the stage for completed, be the output acceptable or not.
   */
  lemma CrashSkipsJudging(p: Plan, w: World)
    requires IsPipelineWorld(p, w) && Ordered(w) && w.pc.Judging? && w.pc.r.status == TaskCompleted
    requires !IsFinal(w.disk.status)
    ensures IsEnabled(w, Crash) && IsEnabled(Step(p, w, Crash), Restart(true))
    ensures var r := Step(p, Step(p, w, Crash), Restart(true));
            w.pc.s in CompletedSet(r.mem.stages) && w.pc.s in r.slipped && w.pc.s !in r.judged
  {
    hide WorkersBelong, CountersSaved, FingerprintsKept, AllIdle, IsClean;
  }

  const FRESH := Stage(StagePending, false, 0)
  const QUEUED := Stage(StagePending, true, 0)
  const BUSY := Stage(StageRunning, true, 0)
  const OVER := Stage(StageCompleted, true, 0)

  /** Two teams, two passes, the first team is the value gate. */
  const GATED := Plan(Pipeline, 2, 2, false, Some(0))

  /** A world of that run in which everything is saved and stage 1 is untouched. */
  function Gated(status: RunStatus, stage: Stage, pc: Pc, it: nat, posts: nat): World {
    var run := Run(status, [stage, FRESH], {}, true, 0, 0, None);
    World(run, run, pc, it, [Idle, Idle], posts, it, {}, {}, false)
  }

  /** The same once stage 0 has slipped through. */
  function Bypassed(resumes: nat, pc: Pc, posts: nat, passes: nat): World {
    var run := Run(Running, [OVER, FRESH], {}, true, 0, resumes, None);
    World(run, run, pc, 1, [Idle, Idle], posts, passes, {}, {0}, false)
  }

  /** From the start to the head of the loop. */
  function Preparing(i: nat): World {
    var run := Run(if i == 0 then NotStarted else Decomposing, [FRESH, FRESH], {}, i >= 2, 0, 0, None);
    var pc := if i == 0 then Discussing(false) else if i == 1 then Splitting else if i == 2 then Selecting else LoopTop;
    World(run, run, pc, if i <= 2 then 0 else 1, [Idle, Idle], 0, 0, {}, {}, false)
  }

  function BypassEvents(result: TaskResult): seq<Event> {
    [GO, GO, GO, GO, GO, GO, GO, GO, Crash, Restart(true), GO, Fine(result), GO, GO, GO, GO, GO, GO, GO, GO, GO]
  }

  /** The worlds of that run, one after each event. */
  function BypassWorld(i: nat): World {
    match i
    case 0 => Preparing(0)
    case 1 => Preparing(1)
    case 2 => Preparing(2)
    case 3 => Preparing(3)
    case 4 => Gated(Running, FRESH, StageHead(0), 1, 0)
    case 5 => Gated(Running, FRESH, Choosing(0), 1, 0)
    case 6 => Gated(Running, FRESH, Attempting(0, 0, 1), 1, 0)
    case 7 => Gated(Running, FRESH, Posting(0, 0, 1), 1, 1)
    case 8 => Gated(Running, BUSY, AwaitingTask(0, 0, 1), 1, 1)
    case 9 => Gated(Running, BUSY, Down, 1, 1)
    case 10 => Gated(Running, BUSY, Booting, 1, 1)
    case 11 => Gated(Running, BUSY, Reconciling(0), 1, 1)
    case 12 => Bypassed(0, Reconciling(1), 1, 1)
    case 13 => Bypassed(0, Reconciling(2), 1, 1)
    case 14 => Bypassed(1, Discussing(true), 1, 1)
    case 15 => Bypassed(1, Selecting, 1, 1)
    case 16 => Bypassed(1, LoopTop, 1, 1)
    case 17 => Bypassed(1, StageHead(0), 1, 2)
    case 18 => Bypassed(1, StageHead(1), 1, 2)
    case 19 => Bypassed(1, Choosing(1), 1, 2)
    case 20 => Bypassed(1, Attempting(1, 0, 1), 1, 2)
    case _ => Bypassed(1, Posting(1, 0, 1), 2, 2)
  }

  lemma BypassIsWorld(i: nat)
    ensures IsWorld(GATED, BypassWorld(i))
  {
  }

  lemma GatedPrepares(i: nat)
    requires i < 3
    ensures IsPrepare(BypassWorld(i).pc) && PrepareStep(GATED, BypassWorld(i), GO.answer) == BypassWorld(i + 1)
  {
    assert FailedStages([FRESH, FRESH], {}) == [FRESH, FRESH];
  }

  lemma GatedBegins()
    ensures BypassWorld(3).pc == LoopTop && BeginPass(GATED, BypassWorld(3), GO.answer) == BypassWorld(4)
  {
    assert [FRESH, FRESH][0].status == StagePending;
    hide FinalizeRun;
  }

  lemma GatedDispatches(i: nat)
    requires 4 <= i < 8
    ensures IsDispatch(BypassWorld(i).pc) && DispatchStep(GATED, BypassWorld(i), GO.answer) == BypassWorld(i + 1)
  {
    assert [FRESH, FRESH][0].status == StagePending;
  }

  lemma BypassDispatches(i: nat)
    requires 17 <= i < 21
    ensures IsDispatch(BypassWorld(i).pc) && DispatchStep(GATED, BypassWorld(i), GO.answer) == BypassWorld(i + 1)
  {
    assert [OVER, FRESH][1].status == StagePending;
  }

  lemma DispatchIsStep(i: nat)
    requires 4 <= i < 8 || 17 <= i < 21
    ensures IsWorld(GATED, BypassWorld(i)) && IsEnabled(BypassWorld(i), GO)
    ensures Step(GATED, BypassWorld(i), GO) == BypassWorld(i + 1)
  {
    hide RecoverStep, PrepareStep, LoopStep, DispatchStep, OutcomeStep, ParallelStep, WorkerStep, BypassWorld, IsWorld;
    BypassIsWorld(i);
    if i < 8 {
      GatedDispatches(i);
    } else {
      BypassDispatches(i);
    }
  }

  lemma GatedRestarts()
    ensures Step(GATED, BypassWorld(8), Crash) == BypassWorld(9)
    ensures Step(GATED, BypassWorld(9), Restart(true)) == BypassWorld(10)
  {
    assert NoWorkers(2) == [Idle, Idle];
    assert CompletedSet([BUSY, FRESH]) == {};
  }

  lemma GatedRecovers(i: nat, result: TaskResult)
    requires 10 <= i < 14 && result.status == TaskCompleted && result.blocker.None?
    ensures var e := BypassEvents(result)[i];
            IsRecover(BypassWorld(i).pc) && e.Drive? && RecoverStep(GATED, BypassWorld(i), e.answer) == BypassWorld(i + 1)
  {
    assert [OVER, FRESH][1].status == StagePending && [OVER, FRESH][0].status == StageCompleted;
    hide FinalizeRun;
  }

  lemma RecoveryIsStep(i: nat, result: TaskResult)
    requires 8 <= i < 14 && result.status == TaskCompleted && result.blocker.None?
    ensures IsWorld(GATED, BypassWorld(i)) && IsEnabled(BypassWorld(i), BypassEvents(result)[i])
    ensures Step(GATED, BypassWorld(i), BypassEvents(result)[i]) == BypassWorld(i + 1)
  {
    if i < 10 {
      GatedRestarts();
    } else {
      GatedRecovers(i, result);
    }
    hide RecoverStep, PrepareStep, LoopStep, DispatchStep, OutcomeStep, ParallelStep, WorkerStep;
  }

  lemma BypassPrepares(i: nat)
    requires 14 <= i < 16
    ensures IsPrepare(BypassWorld(i).pc) && PrepareStep(GATED, BypassWorld(i), GO.answer) == BypassWorld(i + 1)
  {
    assert FailedStages([OVER, FRESH], {}) == [OVER, FRESH];
  }

  lemma BypassBegins()
    ensures BypassWorld(16).pc == LoopTop && BeginPass(GATED, BypassWorld(16), GO.answer) == BypassWorld(17)
  {
    assert [OVER, FRESH][1].status == StagePending;
    hide FinalizeRun;
  }

  lemma PreparationIsStep(i: nat)
    requires i < 4 || 14 <= i < 17
    ensures IsWorld(GATED, BypassWorld(i)) && IsEnabled(BypassWorld(i), GO)
    ensures Step(GATED, BypassWorld(i), GO) == BypassWorld(i + 1)
  {
    hide RecoverStep, PrepareStep, BeginPass, DispatchStep, OutcomeStep, ParallelStep, WorkerStep, BypassWorld, IsWorld;
    BypassIsWorld(i);
    if i < 3 {
      GatedPrepares(i);
    } else if i == 3 {
      GatedBegins();
    } else if i < 16 {
      BypassPrepares(i);
    } else {
      BypassBegins();
    }
  }

  lemma BypassStep(i: nat, result: TaskResult)
    requires i < 21 && result.status == TaskCompleted && result.blocker.None?
    ensures IsWorld(GATED, BypassWorld(i)) && IsEnabled(BypassWorld(i), BypassEvents(result)[i])
    ensures Step(GATED, BypassWorld(i), BypassEvents(result)[i]) == BypassWorld(i + 1)
  {
    hide Step, IsEnabled, IsWorld, BypassWorld;
    if i < 4 || 14 <= i < 17 {
      PreparationIsStep(i);
    } else if 8 <= i < 14 {
      RecoveryIsStep(i, result);
    } else {
      DispatchIsStep(i);
    }
  }

  lemma {:induction false} BypassRuns(i: nat, result: TaskResult)
    requires i <= 21 && result.status == TaskCompleted && result.blocker.None?
    ensures IsWorld(GATED, BypassWorld(i)) && Leads(GATED, BypassWorld(i), BypassEvents(result)[i..], BypassWorld(21))
    decreases 21 - i
  {
    hide Step;
    var es := BypassEvents(result);
    assert |es| == 21;
    hide BypassEvents;
    if i < 21 {
      BypassStep(i, result);
      hide BypassWorld;
      BypassRuns(i + 1, result);
      assert es[i..][0] == es[i] && es[i..][1..] == es[i + 1..];
    }
  }

  /**
   * A crash while the task of the gate stage runs, and a recovery that finds the task completed, whatever its report
   * says: the next stage is posted without any decision, where the same report without the crash could have rejected.
   */
  lemma GateCanBeBypassed(result: TaskResult)
    requires result.status == TaskCompleted && result.blocker.None?
    ensures IsRun(GATED, Start(GATED), BypassEvents(result))
    ensures var w := After(GATED, Start(GATED), BypassEvents(result));
            w.pc == Posting(1, 0, 1) && w.posts == 2 && w.judged == {} && w.mem.decision == w.disk.decision == None
  {
    hide Step;
    assert Start(GATED) == BypassWorld(0) by {
      assert Start(GATED).mem.stages == [FRESH, FRESH] && Start(GATED).workers == [Idle, Idle];
    }
    BypassRuns(0, result);
    assert BypassEvents(result)[0..] == BypassEvents(result);
  }

  // ---------------------------------------------------------------- a blocker met by the recovery of a parallel run

  /** One team, one pass. */
  const SOLO := Plan(Parallel, 1, 1, false, None)

  /** A world of that run in which everything is saved and at most the one stage has a worker. */
  function Solo(run: Run, pc: Pc, it: nat, worker: Worker, posts: nat): World {
    World(run, run, pc, it, [worker], posts, posts, {}, {}, false)
  }

  function SoloRun(status: RunStatus, stage: Stage, decomposed: bool): Run {
    Run(status, [stage], {}, decomposed, 0, 0, None)
  }

  lemma SoloPrepares()
    ensures Step(SOLO, Start(SOLO), GO) == Solo(SoloRun(Decomposing, FRESH, false), Splitting, 0, Idle, 0)
    ensures Step(SOLO, Solo(SoloRun(Decomposing, FRESH, false), Splitting, 0, Idle, 0), GO)
            == Solo(SoloRun(Decomposing, FRESH, true), Selecting, 0, Idle, 0)
    ensures Step(SOLO, Solo(SoloRun(Decomposing, FRESH, true), Selecting, 0, Idle, 0), GO)
            == Solo(SoloRun(Decomposing, FRESH, true), LoopTop, 1, Idle, 0)
  {
    assert FailedStages([FRESH], {}) == [FRESH];
    assert Start(SOLO).mem.stages == [FRESH] && Start(SOLO).workers == [Idle];
  }

  /** While the stage is being dispatched; the pass is counted from here on. */
  function SoloFan(status: RunStatus, stage: Stage, pc: Pc, worker: Worker, posts: nat): World {
    Solo(SoloRun(status, stage, true), pc, 1, worker, posts).(passes := 1)
  }

  lemma SoloDispatches()
    ensures Step(SOLO, Solo(SoloRun(Decomposing, FRESH, true), LoopTop, 1, Idle, 0), GO)
            == SoloFan(Dispatching, FRESH, Fanning(0, {0}), Idle, 0)
    ensures Step(SOLO, SoloFan(Dispatching, FRESH, Fanning(0, {0}), Idle, 0), GO)
            == SoloFan(Dispatching, FRESH, FanChoosing(0, {0}), Idle, 0)
    ensures Step(SOLO, SoloFan(Dispatching, FRESH, FanChoosing(0, {0}), Idle, 0), GO)
            == SoloFan(Dispatching, FRESH, FanPosting(0, {0}), Idle, 1)
  {
    assert [FRESH][0].status != StageCompleted;
    assert Unfinished([FRESH]) == {0};
  }

  lemma SoloCollects()
    ensures Step(SOLO, SoloFan(Dispatching, FRESH, FanPosting(0, {0}), Idle, 1), GO)
            == SoloFan(Dispatching, QUEUED, Fanning(1, {0}), Idle, 1)
    ensures Step(SOLO, SoloFan(Dispatching, QUEUED, Fanning(1, {0}), Idle, 1), GO)
            == SoloFan(Running, BUSY, Collecting, WaitingForTask, 1)
  {
    assert StartedStages([QUEUED], {0}) == [BUSY];
    assert Collectors([QUEUED], {0}) == [WaitingForTask];
    assert [QUEUED][0].status == StagePending;
  }

  lemma SoloCrashes()
    ensures Step(SOLO, SoloFan(Running, BUSY, Collecting, WaitingForTask, 1), Crash) == SoloFan(Running, BUSY, Down, Idle, 1)
    ensures Step(SOLO, SoloFan(Running, BUSY, Down, Idle, 1), Restart(true)) == SoloFan(Running, BUSY, Booting, Idle, 1)
    ensures Step(SOLO, SoloFan(Running, BUSY, Booting, Idle, 1), GO) == SoloFan(Running, BUSY, Reconciling(0), Idle, 1)
  {
    assert NoWorkers(1) == [Idle];
    assert [BUSY][0].status == StageRunning;
  }

  const BLOCKED := TaskResult(TaskFailed, Some("port is taken"), false, false, Undetermined)

  /** After the blocker: the run stays `running`. */
  function SoloBlocked(resumes: nat, pc: Pc): World {
    var run := Run(Running, [Stage(StageBlocked, true, 0)], {"port is taken"}, true, 0, resumes, None);
    World(run, run, pc, 1, [Idle], 1, 1, {}, {}, true)
  }

  lemma SoloIsStranded()
    ensures Step(SOLO, SoloFan(Running, BUSY, Reconciling(0), Idle, 1), Fine(BLOCKED)) == SoloBlocked(0, Reconciling(1))
    ensures Step(SOLO, SoloBlocked(0, Reconciling(1)), GO) == SoloBlocked(1, Discussing(true))
    ensures Step(SOLO, SoloBlocked(1, Discussing(true)), GO) == SoloBlocked(1, Selecting)
    ensures Step(SOLO, SoloBlocked(1, Selecting), GO) == SoloBlocked(1, LoopTop)
    ensures Step(SOLO, SoloBlocked(1, LoopTop), GO) == SoloBlocked(1, Ended)
  {
    var stages := [Stage(StageBlocked, true, 0)];
    assert stages[0].status != StageCompleted;
    assert CompletedSet(stages) == {};
    assert FailedStages(stages, {}) == stages;
  }

  const STRANDING := [GO, GO, GO, GO, GO, GO, GO, GO, Crash, Restart(true), GO, Fine(BLOCKED), GO, GO, GO, GO]

  /** The worlds of that run, one after each event. */
  function SoloWorld(i: nat): World {
    match i
    case 0 => Start(SOLO)
    case 1 => Solo(SoloRun(Decomposing, FRESH, false), Splitting, 0, Idle, 0)
    case 2 => Solo(SoloRun(Decomposing, FRESH, true), Selecting, 0, Idle, 0)
    case 3 => Solo(SoloRun(Decomposing, FRESH, true), LoopTop, 1, Idle, 0)
    case 4 => SoloFan(Dispatching, FRESH, Fanning(0, {0}), Idle, 0)
    case 5 => SoloFan(Dispatching, FRESH, FanChoosing(0, {0}), Idle, 0)
    case 6 => SoloFan(Dispatching, FRESH, FanPosting(0, {0}), Idle, 1)
    case 7 => SoloFan(Dispatching, QUEUED, Fanning(1, {0}), Idle, 1)
    case 8 => SoloFan(Running, BUSY, Collecting, WaitingForTask, 1)
    case 9 => SoloFan(Running, BUSY, Down, Idle, 1)
    case 10 => SoloFan(Running, BUSY, Booting, Idle, 1)
    case 11 => SoloFan(Running, BUSY, Reconciling(0), Idle, 1)
    case 12 => SoloBlocked(0, Reconciling(1))
    case 13 => SoloBlocked(1, Discussing(true))
    case 14 => SoloBlocked(1, Selecting)
    case 15 => SoloBlocked(1, LoopTop)
    case _ => SoloBlocked(1, Ended)
  }

  lemma SoloStep(i: nat)
    requires i < |STRANDING|
    ensures IsWorld(SOLO, SoloWorld(i)) && IsEnabled(SoloWorld(i), STRANDING[i])
    ensures Step(SOLO, SoloWorld(i), STRANDING[i]) == SoloWorld(i + 1)
  {
    hide Step;
    SoloPrepares();
    SoloDispatches();
    SoloCollects();
    SoloCrashes();
    SoloIsStranded();
  }

  lemma {:induction false} SoloRuns(i: nat)
    requires i <= |STRANDING|
    ensures IsWorld(SOLO, SoloWorld(i)) && Leads(SOLO, SoloWorld(i), STRANDING[i..], SoloWorld(|STRANDING|))
    decreases |STRANDING| - i
  {
    hide Step;
    if i < |STRANDING| {
      SoloStep(i);
      hide SoloWorld;
      SoloRuns(i + 1);
      assert STRANDING[i..][0] == STRANDING[i] && STRANDING[i..][1..] == STRANDING[i + 1..];
    }
  }

  /** A parallel run whose driver has ended and which is nevertheless `running`, in memory and on disk. */
  lemma ParallelRunCanBeStranded()
    ensures IsRun(SOLO, Start(SOLO), STRANDING)
    ensures var w := After(SOLO, Start(SOLO), STRANDING);
            w.pc == Ended && AllIdle(w.workers) && w.mem.status == w.disk.status == Running && !IsFinal(Running)
  {
    hide Step;
    SoloRuns(0);
    assert STRANDING[0..] == STRANDING;
  }

  /** A parallel run whose recovery has just met a blocker. */
  predicate MetBlocker(p: Plan, w: World, pc: Pc) {
    && IsPlan(p) && p.mode != Pipeline && !p.dryRun
    && IsWorld(p, w) && w.pc == pc && w.mem.decomposed && w.mem.blockers != {}
    && !IsFinal(w.mem.status)
    && exists i :: 0 <= i < p.teams && w.mem.stages[i].status == StageBlocked
  }

  predicate HasResumeBudget(p: Plan, run: Run) {
    run.resumeCount < MAX_RUN_RESUMES && run.completedIterations < p.maxIterations
  }

  lemma ResumeAfterBlocker(p: Plan, w: World)
    requires MetBlocker(p, w, Reconciling(p.teams))
    ensures var r := Step(p, w, GO);
            && r.mem.status == (if HasResumeBudget(p, w.mem) then w.mem.status else Partial)
            && (if HasResumeBudget(p, w.mem) then MetBlocker(p, r, Discussing(true)) else r.pc == Ended)
  {
    var run := w.mem.(resumeCount := w.mem.resumeCount + 1);
    assert !AllCompleted(run.stages) && IsBlocked(run);
    hide AllCompleted, IsBlocked, CompletedSet;
  }

  lemma LoopAfterBlocker(p: Plan, w: World, pc: Pc)
    requires MetBlocker(p, w, pc)
    requires pc == Discussing(true) || pc == Selecting || (pc == LoopTop && w.it <= p.maxIterations)
    ensures var r := Step(p, w, GO);
            && r.mem.status == w.mem.status
            && (match pc
                case Discussing(isResume) => MetBlocker(p, r, Selecting)
                case Selecting => MetBlocker(p, r, LoopTop) && r.it <= p.maxIterations
                case _ => r.pc == Ended)
  {
    NoneFailed(w.mem.stages, {});
    assert !AnyUnavailable(w.mem.stages, {});
    assert IsBlocked(w.mem);
    hide FailedStages, IsBlocked, AnyUnavailable;
  }

  lemma FourMore(p: Plan, w: World, w1: World, w2: World, w3: World)
    requires IsWorld(p, w) && IsWorld(p, w1) && IsWorld(p, w2) && IsWorld(p, w3)
    requires CanDrive(w) && CanDrive(w1) && CanDrive(w2) && CanDrive(w3)
    requires w1 == Step(p, w, GO) && w2 == Step(p, w1, GO) && w3 == Step(p, w2, GO)
    ensures Leads(p, w, [GO, GO, GO, GO], Step(p, w3, GO))
  {
    hide Step, IsWorld, CanDrive;
    OneMore(p, w, [], w, GO);
    assert [] + [GO] == [GO];
    OneMore(p, w, [GO], w1, GO);
    assert [GO] + [GO] == [GO, GO];
    OneMore(p, w, [GO, GO], w2, GO);
    assert [GO, GO] + [GO] == [GO, GO, GO];
    OneMore(p, w, [GO, GO, GO], w3, GO);
    assert [GO, GO, GO] + [GO] == [GO, GO, GO, GO];
  }

  /**
   * What becomes of a parallel run whose recovery has met a blocker, if nothing else goes wrong: without resume budget
   * it is settled at once, with budget left its driver ends at the head of the loop and leaves the status as it was.
   */
  lemma BlockerInRecovery(p: Plan, w: World)
    requires MetBlocker(p, w, Reconciling(p.teams))
    ensures if HasResumeBudget(p, w.mem) then
              exists r :: Leads(p, w, [GO, GO, GO, GO], r) && r.pc == Ended && !IsFinal(r.mem.status)
            else Step(p, w, GO).pc == Ended && Step(p, w, GO).mem.status == Partial
  {
    hide Step;
    ResumeAfterBlocker(p, w);
    if HasResumeBudget(p, w.mem) {
      var w1 := Step(p, w, GO);
      LoopAfterBlocker(p, w1, Discussing(true));
      var w2 := Step(p, w1, GO);
      LoopAfterBlocker(p, w2, Selecting);
      var w3 := Step(p, w2, GO);
      LoopAfterBlocker(p, w3, LoopTop);
      FourMore(p, w, w1, w2, w3);
    }
  }
}
