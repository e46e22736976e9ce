/** The worst case of a parallel run, and with it the exact maximum of posts of every plan. */
module CompanyWorstParallel {
  import opened Text
  import opened CompanyRecord
  import opened CompanyDriver
  import opened CompanyStops
  import opened CompanyBudget
  import opened CompanyEnd
  import CompanyCancel
  import CompanyWorstPipeline

  // ---------------------------------------------------------------- the worst answers

  const FULL := CompanyWorstPipeline.FULL
  const NO := CompanyWorstPipeline.NO

  function ResumesLeft(w: World): int {
    CompanyWorstPipeline.ResumesLeft(w)
  }

  function PassesToCome(p: Plan, w: World): int {
    CompanyWorstPipeline.PassesToCome(p, w)
  }

  /** The first posts of stages that are still to come in this pass, or in the next. */
  function StagesToCome(p: Plan, pc: Pc): int {
    match pc
    case Fanning(s, todo) => p.teams - s
    case FanChoosing(s, todo) => p.teams - s
    case FanPosting(s, todo) => p.teams - s - 1
    case Collecting => 0
    case Retrying => 0
    case _ => p.teams
  }

  function Times(n: nat, a: int): int {
    n * a
  }

  /** The posts that are still to come, the one retry of each stage included. */
  function Debt(p: Plan, w: World): int {
    Times(p.teams, ResumesLeft(w) + PassesToCome(p, w)) + StagesToCome(p, w.pc) + p.teams - Sum(RetriesOf(w.mem.stages))
  }

  /** How far the next post is. */
  function Distance(p: Plan, w: World): int {
    match w.pc
    case FanPosting(s, todo) => 4 * p.teams + 13
    case Fanning(s, todo) => if s < p.teams then 2 else 4 * p.teams + 12
    case Collecting => 3 * p.teams + 8
    case Down => p.teams + 10
    case Booting => p.teams + 9
    case Reconciling(i) => p.teams - i + 8
    case Discussing(isResume) => 7
    case Retrying => 7 + Load(w.workers)
    case Splitting => 6
    case PassEnd => 6
    case Selecting => 5
    case BackingOff => 5
    case LoopTop => 4
    case _ => 1
  }

  /** Every post is refused, so no stage has a task and none is completed. */
  predicate AreRefused(stages: seq<Stage>) {
    forall j :: 0 <= j < |stages| ==>
      !stages[j].task && (stages[j].status == StagePending || stages[j].status == StageFailed)
  }

  predicate AllAre(rs: seq<nat>, n: nat) {
    forall i :: 0 <= i < |rs| ==> rs[i] == n
  }

  /** The first pass that does not crash retries every stage; afterwards nothing is retried. */
  predicate RetriesFit(w: World) {
    AllAre(RetriesOf(w.mem.stages), if w.it == 1 then 0 else 1)
  }

  /** In pass `it`, which is the first while resumes are left. */
  predicate InTurn(p: Plan, w: World) {
    && w.it == w.mem.completedIterations + 1 && w.it <= p.maxIterations
    && (w.mem.resumeCount < MAX_RUN_RESUMES ==> w.it == 1 && w.mem == w.disk)
    && w.mem.decomposed
  }

  /** Dispatching to all stages. */
  predicate InFan(p: Plan, w: World, todo: set<nat>) {
    InTurn(p, w) && RetriesFit(w) && AllIdle(w.workers) && forall k: nat :: k < p.teams ==> k in todo
  }

  /** A retry is about to be posted, or has been. */
  predicate RetriesUnderWay(rs: seq<nat>, workers: seq<Worker>) {
    && |rs| == |workers|
    && forall k :: 0 <= k < |workers| ==>
         if workers[k] == ChoosingProvider then rs[k] == 0 else rs[k] == 1 && workers[k] != WaitingForTask
  }

  predicate IsWorstOnRestart(w: World) {
    && w.mem == w.disk && w.mem.decomposed && w.mem.completedIterations == 0 && w.mem.resumeCount < MAX_RUN_RESUMES
    && AllAre(RetriesOf(w.mem.stages), 0) && AllIdle(w.workers)
  }

  predicate IsWorstAtStart(w: World) {
    && w.mem == w.disk && w.mem.completedIterations == 0 && AllAre(RetriesOf(w.mem.stages), 0) && AllIdle(w.workers)
    && (w.pc.Discussing? ==> w.pc.isResume == w.mem.decomposed)
    && (w.pc.Selecting? ==> w.mem.decomposed)
  }

  predicate IsWorstAt(p: Plan, w: World) {
    match w.pc
    case Down => IsWorstOnRestart(w)
    case Booting => IsWorstOnRestart(w)
    case Reconciling(i) => IsWorstOnRestart(w)
    case Discussing(isResume) => IsWorstAtStart(w)
    case Splitting => IsWorstAtStart(w)
    case Selecting => IsWorstAtStart(w)
    case LoopTop => InTurn(p, w) && RetriesFit(w) && AllIdle(w.workers)
    case Fanning(s, todo) => InFan(p, w, todo)
    case FanChoosing(s, todo) => InFan(p, w, todo)
    case FanPosting(s, todo) => InFan(p, w, todo)
    case Collecting => InTurn(p, w) && RetriesFit(w) && AllIdle(w.workers) && w.mem.resumeCount == MAX_RUN_RESUMES
    case Retrying =>
      InTurn(p, w) && RetriesUnderWay(RetriesOf(w.mem.stages), w.workers) && w.mem.resumeCount == MAX_RUN_RESUMES
    case PassEnd =>
      && InTurn(p, w) && AllAre(RetriesOf(w.mem.stages), 1) && AllIdle(w.workers)
      && w.mem.resumeCount == MAX_RUN_RESUMES && w.it < p.maxIterations
    case BackingOff =>
      && AllAre(RetriesOf(w.mem.stages), 1) && AllIdle(w.workers) && w.mem.decomposed
      && w.mem.resumeCount == MAX_RUN_RESUMES && w.it < p.maxIterations && 1 <= w.it == w.mem.completedIterations
    case _ => false
  }

  predicate IsWorst(p: Plan, w: World) {
    && IsPlan(p) && p.mode != Pipeline && !p.dryRun && IsWorld(p, w)
    && !IsFinal(w.mem.status) && w.mem.blockers == {} && w.mem.decision == None
    && w.mem.resumeCount <= MAX_RUN_RESUMES && AreRefused(w.mem.stages)
    && IsWorstAt(p, w)
  }

  /** A step towards the next post, or that post. */
  predicate Pays(p: Plan, w: World, r: World) {
    && IsWorst(p, r)
    && r.posts + Debt(p, r) == w.posts + Debt(p, w)
    && (r.posts > w.posts || (r.posts == w.posts && Distance(p, r) < Distance(p, w)))
  }

  // ---------------------------------------------------------------- every step pays

  lemma RefusedMeans(run: Run)
    requires AreRefused(run.stages) && run.blockers == {}
    ensures !IsBlocked(run)
    ensures run.stages != [] ==> !AllCompleted(run.stages)
    ensures FailedStages(run.stages, {}) == run.stages && !AnyUnavailable(run.stages, {})
    ensures !AnyUnfinishedUnavailable(run.stages, {})
    ensures forall k: nat :: k < |run.stages| ==> k in Unfinished(run.stages) && !run.stages[k].task
  {
    assert run.stages != [] ==> run.stages[0].status != StageCompleted;
  }

  lemma RefusedAfter(stages: seq<Stage>, todo: set<nat>)
    requires AreRefused(stages)
    ensures AreRefused(RefinedStages(stages, {})) && StartedStages(stages, todo) == stages
    ensures AllIdle(Collectors(stages, todo))
    ensures forall k: nat | k < |stages| ::
      AreRefused(WithStage(stages, k, StageFailed, false)) && AreRefused(RetriedStages(stages, k))
  {
    forall k | 0 <= k < |stages|
      ensures !HasCollector(stages, todo, k)
    {
    }
  }

  lemma OneFewer(n: nat, a: int)
    ensures Times(n, a) == Times(n, a - 1) + n
  {
  }

  lemma RecoveryMoves(p: Plan, w: World)
    requires IsPlan(p) && IsWorld(p, w) && IsRecover(w.pc) && IsWorstOnRestart(w) && w.mem.blockers == {}
    requires AreRefused(w.mem.stages)
    ensures var r := RecoverStep(p, w, FULL.answer);
            && r.mem == r.disk && r.posts == w.posts
            && if w.pc.Reconciling? && w.pc.i == p.teams then
                 r.pc == Discussing(true) && r.mem == w.mem.(resumeCount := w.mem.resumeCount + 1)
               else
                 r.mem == w.mem && r.pc == Reconciling(if w.pc.Booting? then 0 else w.pc.i + 1)
  {
    RefusedMeans(w.mem);
    hide IsBlocked, AllCompleted, FinalizeRun, AreRefused, BlockRun, Recovered, AllIdle, AllAre, RetriesOf;
  }

  lemma RestartPays(p: Plan, w: World) returns (e: Event)
    requires IsWorst(p, w) && (w.pc.Down? || IsRecover(w.pc))
    ensures IsEnabled(w, e) && Pays(p, w, Step(p, w, e))
  {
    hide Times, AreRefused, RecoverStep, PrepareStep, LoopStep, DispatchStep, OutcomeStep, ParallelStep, WorkerStep, InTurn, InFan,
      RetriesFit, RetriesUnderWay, CompletedSet, AllIdle, AllAre, RetriesOf, Sum, Load;
    e := if w.pc.Down? then Restart(true) else FULL;
    if IsRecover(w.pc) {
      RecoveryMoves(p, w);
    }
  }

  lemma PreparationMoves(p: Plan, w: World)
    requires IsWorst(p, w) && IsPrepare(w.pc)
    ensures var r := PrepareStep(p, w, FULL.answer);
            && r.mem == r.disk == w.mem.(status := r.mem.status, decomposed := r.mem.decomposed)
            && r.posts == w.posts && !IsFinal(r.mem.status)
            && match w.pc
               case Discussing(isResume) =>
                 r.pc == (if isResume then Selecting else Splitting) && r.mem.decomposed == w.mem.decomposed
               case Splitting => r.pc == Selecting && r.mem.decomposed
               case _ => r.pc == LoopTop && r.it == 1 && r.mem.decomposed
  {
    RefusedMeans(w.mem);
    hide AreRefused, AnyUnavailable, FailedStages, InTurn, InFan, IsWorstOnRestart, AllIdle, AllAre, RetriesOf;
  }

  lemma PreparationPays(p: Plan, w: World)
    requires IsWorst(p, w) && IsPrepare(w.pc)
    ensures Pays(p, w, PrepareStep(p, w, FULL.answer))
  {
    hide Times, AreRefused, PrepareStep, InFan, IsWorstOnRestart, RetriesUnderWay, AllIdle, AllAre, RetriesOf, Sum, Load;
    PreparationMoves(p, w);
  }

  lemma BeginningMoves(p: Plan, w: World)
    requires IsWorld(p, w) && p.mode != Pipeline && w.it <= p.maxIterations && w.mem.status != Cancelled
    requires AreRefused(w.mem.stages) && w.mem.blockers == {}
    ensures var r := BeginPass(p, w, FULL.answer);
            && r.pc.Fanning? && r.pc.s == 0 && (forall k: nat :: k < p.teams ==> k in r.pc.todo)
            && r.posts == w.posts && r.it == w.it && r.mem == r.disk
            && r.mem == w.mem.(status := Dispatching, stages := r.mem.stages) && AreRefused(r.mem.stages)
            && RetriesOf(r.mem.stages) == RetriesOf(w.mem.stages)
  {
    RefusedMeans(w.mem);
    RefusedAfter(w.mem.stages, {});
    RefusedMeans(w.mem.(stages := RefinedStages(w.mem.stages, {})));
    RetriesUnchanged();
    hide AreRefused, IsBlocked, AllCompleted, FinalizeRun, RefinedStages, AnyUnfinishedUnavailable,
      Unfinished, RetriesOf;
  }

  lemma BeginningPays(p: Plan, w: World)
    requires IsWorst(p, w) && w.pc.LoopTop?
    ensures Pays(p, w, BeginPass(p, w, FULL.answer))
  {
    hide Times, AreRefused, BeginPass, IsWorstOnRestart, RetriesUnderWay, AllIdle, AllAre, RetriesOf, Sum, Load;
    BeginningMoves(p, w);
  }

  lemma EndingMoves(p: Plan, w: World)
    requires IsWorst(p, w) && w.pc.PassEnd?
    ensures EndPass(p, w) == w.(mem := w.mem.(status := Running, completedIterations := w.it),
                                disk := w.mem.(status := Running, completedIterations := w.it), pc := BackingOff)
  {
    var run := w.mem.(completedIterations := w.it);
    RefusedMeans(run);
    assert run.stages[0].status != StageCompleted;
    assert !IsSettled(run);
    hide AreRefused, IsSettled, IsBlocked, FinalizeRun, IsWorstOnRestart, AllIdle, AllAre, RetriesOf;
  }

  lemma EndingPays(p: Plan, w: World)
    requires IsWorst(p, w) && w.pc.PassEnd?
    ensures Pays(p, w, EndPass(p, w))
  {
    hide Times, AreRefused, EndPass, IsWorstOnRestart, RetriesUnderWay, AllIdle, AllAre, RetriesOf, Sum, Load;
    EndingMoves(p, w);
  }

  lemma NextPassPays(p: Plan, w: World)
    requires IsWorst(p, w) && w.pc.BackingOff?
    ensures Pays(p, w, NextPass(w))
  {
    hide Times, AreRefused, IsWorstOnRestart, RetriesUnderWay, AllIdle, AllAre, RetriesOf, Sum, Load;
  }

  lemma LoopPays(p: Plan, w: World)
    requires IsWorst(p, w) && IsLoop(w.pc)
    ensures IsEnabled(w, FULL) && Pays(p, w, Step(p, w, FULL))
  {
    if w.pc.LoopTop? {
      BeginningPays(p, w);
    } else if w.pc.PassEnd? {
      EndingPays(p, w);
    } else {
      NextPassPays(p, w);
    }
    hide Times, Pays, BeginPass, EndPass, RecoverStep, PrepareStep, DispatchStep, OutcomeStep, ParallelStep, WorkerStep, InTurn,
      InFan, RetriesFit, RetriesUnderWay;
  }

  // ---------------------------------------------------------------- the dispatch loop

  lemma FanMoves(p: Plan, w: World)
    requires IsWorst(p, w) && w.pc.Fanning? && w.pc.s < p.teams
    ensures ParallelStep(p, w, FULL.answer) == w.(pc := FanChoosing(w.pc.s, w.pc.todo))
  {
    RefusedMeans(w.mem);
    hide AreRefused, IsBlocked, AllIdle, AllAre, RetriesOf, IsWorstOnRestart, Collectors, StartedStages;
  }

  lemma FanEndMoves(p: Plan, w: World)
    requires IsWorst(p, w) && w.pc.Fanning? && w.pc.s == p.teams
    ensures var r := ParallelStep(p, w, FULL.answer);
            && r.pc == Collecting && r.posts == w.posts && r.it == w.it && AllIdle(r.workers)
            && r.mem == w.mem.(status := Running)
  {
    RefusedMeans(w.mem);
    RefusedAfter(w.mem.stages, w.pc.todo);
    hide AreRefused, IsBlocked, AllIdle, AllAre, RetriesOf, IsWorstOnRestart, Collectors, StartedStages;
  }

  lemma FanChosenMoves(p: Plan, w: World)
    requires IsWorst(p, w) && w.pc.FanChoosing?
    ensures ParallelStep(p, w, FULL.answer) == w.(pc := FanPosting(w.pc.s, w.pc.todo), posts := w.posts + 1)
  {
    RefusedMeans(w.mem);
    hide AreRefused, IsBlocked, AllIdle, AllAre, RetriesOf, IsWorstOnRestart;
  }

  lemma FanPostedMoves(p: Plan, w: World)
    requires IsWorst(p, w) && w.pc.FanPosting?
    ensures var r := ParallelStep(p, w, NO);
            && r.pc == Fanning(w.pc.s + 1, w.pc.todo) && r.posts == w.posts && r.it == w.it && r.workers == w.workers
            && r.mem == r.disk == w.mem.(stages := r.mem.stages) && AreRefused(r.mem.stages)
            && RetriesOf(r.mem.stages) == RetriesOf(w.mem.stages)
  {
    RefusedMeans(w.mem);
    RefusedAfter(w.mem.stages, {});
    RetriesUnchanged();
    hide AreRefused, IsBlocked, AllIdle, AllAre, RetriesOf, IsWorstOnRestart, WithStage;
  }

  lemma FanPays(p: Plan, w: World) returns (e: Event)
    requires IsWorst(p, w) && w.pc.Fanning? && !(w.pc.s == p.teams && w.mem.resumeCount < MAX_RUN_RESUMES)
    ensures IsEnabled(w, e) && Pays(p, w, Step(p, w, e))
  {
    hide Times, AreRefused, RecoverStep, PrepareStep, LoopStep, DispatchStep, OutcomeStep, ParallelStep, WorkerStep,
      IsWorstOnRestart, RetriesUnderWay, AllIdle, AllAre, RetriesOf, Sum, Load;
    e := FULL;
    if w.pc.s < p.teams {
      FanMoves(p, w);
    } else {
      FanEndMoves(p, w);
    }
  }

  lemma FanCrashPays(p: Plan, w: World)
    requires IsWorst(p, w) && w.pc.Fanning? && w.pc.s == p.teams && w.mem.resumeCount < MAX_RUN_RESUMES
    ensures Pays(p, w, Step(p, w, Crash))
  {
    hide Times, AreRefused, RetriesUnderWay, AllAre, RetriesOf, Sum, Load, CompletedSet;
    OneFewer(p.teams, ResumesLeft(w) + PassesToCome(p, w));
  }

  lemma FanChosenPays(p: Plan, w: World)
    requires IsWorst(p, w) && w.pc.FanChoosing?
    ensures Pays(p, w, ParallelStep(p, w, FULL.answer))
  {
    hide Times, AreRefused, ParallelStep, IsWorstOnRestart, RetriesUnderWay, AllIdle, AllAre, RetriesOf, Sum, Load;
    FanChosenMoves(p, w);
  }

  lemma FanPostedPays(p: Plan, w: World)
    requires IsWorst(p, w) && w.pc.FanPosting?
    ensures Pays(p, w, ParallelStep(p, w, NO))
  {
    hide Times, AreRefused, ParallelStep, IsWorstOnRestart, RetriesUnderWay, AllIdle, AllAre, RetriesOf, Sum, Load;
    FanPostedMoves(p, w);
  }

  lemma FanPostPays(p: Plan, w: World) returns (e: Event)
    requires IsWorst(p, w) && (w.pc.FanChoosing? || w.pc.FanPosting?)
    ensures IsEnabled(w, e) && Pays(p, w, Step(p, w, e))
  {
    hide Times, Pays, ParallelStep, IsWorstAt, AreRefused;
    if w.pc.FanChoosing? {
      e := FULL;
      FanChosenPays(p, w);
    } else {
      e := Drive(NO);
      FanPostedPays(p, w);
    }
  }

  // ---------------------------------------------------------------- the retries

  lemma RetriersUnderWay(stages: seq<Stage>, n: nat)
    requires AreRefused(stages) && n <= 1 && AllAre(RetriesOf(stages), n)
    ensures RetriesUnderWay(RetriesOf(stages), Retriers(stages)) && Load(Retriers(stages)) <= 3 * |stages|
  {
    RetrierLoad(stages);
  }

  lemma CollectingMoves(p: Plan, w: World)
    requires IsWorst(p, w) && w.pc.Collecting?
    ensures BeginRetries(p, w) == w.(pc := Retrying, workers := Retriers(w.mem.stages))
  {
    RefusedMeans(w.mem);
    hide IsBlocked, AllAre, RetriesOf, IsWorstOnRestart, Retriers;
  }

  lemma CollectingPays(p: Plan, w: World)
    requires IsWorst(p, w) && w.pc.Collecting?
    ensures Pays(p, w, BeginRetries(p, w))
  {
    hide Times, AreRefused, BeginRetries, IsWorstOnRestart, RetriesUnderWay, AllIdle, AllAre, RetriesOf, Sum, Load, Retriers;
    CollectingMoves(p, w);
    RetriersUnderWay(w.mem.stages, if w.it == 1 then 0 else 1);
  }

  lemma RetryMoves(p: Plan, w: World, k: nat)
    requires IsWorst(p, w) && w.pc.Retrying? && k < p.teams && w.workers[k] == ChoosingProvider
    ensures var run := w.mem.(stages := RetriedStages(w.mem.stages, k));
            WorkerStep(p, w, k, FULL.answer)
            == w.(mem := run, disk := run, workers := w.workers[k := PostingTask], posts := w.posts + 1)
  {
    RefusedAfter(w.mem.stages, {});
    RefusedMeans(w.mem.(stages := RetriedStages(w.mem.stages, k)));
    hide AreRefused, IsBlocked, AllIdle, AllAre, RetriesOf, IsWorstOnRestart, RetriedStages;
  }

  lemma RefusalMoves(p: Plan, w: World, k: nat)
    requires IsWorld(p, w) && k < p.teams && w.workers[k] == PostingTask
    ensures var run := w.mem.(stages := WithStage(w.mem.stages, k, StageFailed, false));
            WorkerStep(p, w, k, NO) == w.(mem := run, disk := run, workers := w.workers[k := Idle])
  {
  }

  lemma UnderWayAfter(rs: seq<nat>, workers: seq<Worker>, k: nat)
    requires RetriesUnderWay(rs, workers) && k < |rs|
    ensures workers[k] == ChoosingProvider ==> RetriesUnderWay(rs[k := rs[k] + 1], workers[k := PostingTask])
    ensures workers[k] == PostingTask ==> RetriesUnderWay(rs, workers[k := Idle])
    ensures workers[k] != WaitingForTask
  {
  }

  lemma RetryCounts(stages: seq<Stage>, workers: seq<Worker>, k: nat)
    requires AreRefused(stages) && RetriesUnderWay(RetriesOf(stages), workers)
    requires k < |stages| == |workers| && workers[k] == ChoosingProvider
    ensures AreRefused(RetriedStages(stages, k))
    ensures RetriesUnderWay(RetriesOf(RetriedStages(stages, k)), workers[k := PostingTask])
    ensures Sum(RetriesOf(RetriedStages(stages, k))) == Sum(RetriesOf(stages)) + 1
  {
    hide AreRefused, RetriesUnderWay, RetriesOf, RetriedStages;
    UnderWayAfter(RetriesOf(stages), workers, k);
    RetryIsCounted(stages, k);
    RefusedAfter(stages, {});
  }

  lemma RetryPays(p: Plan, w: World, k: nat)
    requires IsWorst(p, w) && w.pc.Retrying? && k < p.teams && w.workers[k] == ChoosingProvider
    ensures Pays(p, w, WorkerStep(p, w, k, FULL.answer))
  {
    hide Times, AreRefused, WorkerStep, IsWorstOnRestart, IsWorstAtStart, InFan, RetriesUnderWay, AllIdle, AllAre, RetriesOf,
      Sum, Load, RetriedStages;
    RetryMoves(p, w, k);
    RetryCounts(w.mem.stages, w.workers, k);
  }

  lemma RefusalPays(p: Plan, w: World, k: nat)
    requires IsWorst(p, w) && w.pc.Retrying? && k < p.teams && w.workers[k] == PostingTask
    ensures Pays(p, w, WorkerStep(p, w, k, NO))
  {
    hide Times, AreRefused, WorkerStep, IsWorstOnRestart, RetriesUnderWay, AllIdle, AllAre, RetriesOf, Sum, Load, WithStage;
    RefusalMoves(p, w, k);
    UnderWayAfter(RetriesOf(w.mem.stages), w.workers, k);
    RetriesUnchanged();
    LoadAfterUpdate(w.workers, k, Idle);
    RefusedAfter(w.mem.stages, {});
  }

  lemma WorkerPays(p: Plan, w: World) returns (e: Event)
    requires IsWorst(p, w) && w.pc.Retrying? && !AllIdle(w.workers)
    ensures IsEnabled(w, e) && Pays(p, w, Step(p, w, e))
  {
    hide Times, AreRefused, DriveStep, WorkerStep, IsWorstOnRestart, AllAre, RetriesOf, Sum, Load, Pays;
    var k: nat :| k < |w.workers| && w.workers[k] != Idle;
    if w.workers[k] == ChoosingProvider {
      e := Work(k, FULL.answer);
      RetryPays(p, w, k);
    } else {
      e := Work(k, NO);
      RefusalPays(p, w, k);
    }
  }

  lemma {:induction false} SumOfOnes(rs: seq<nat>)
    requires AllAre(rs, 1)
    ensures Sum(rs) == |rs|
  {
    if rs != [] {
      SumOfOnes(rs[..|rs| - 1]);
    }
  }

  lemma AllRetried(rs: seq<nat>, workers: seq<Worker>)
    requires RetriesUnderWay(rs, workers) && AllIdle(workers)
    ensures AllAre(rs, 1) && Sum(rs) == |rs|
  {
    SumOfOnes(rs);
  }

  lemma RetriedPays(p: Plan, w: World)
    requires IsWorst(p, w) && w.pc.Retrying? && AllIdle(w.workers) && Debt(p, w) > 0
    ensures Pays(p, w, Go(w, PassEnd))
  {
    hide AreRefused, IsWorstOnRestart, RetriesUnderWay, AllIdle, AllAre, RetriesOf, Sum, Load;
    AllRetried(RetriesOf(w.mem.stages), w.workers);
    OneFewer(p.teams, ResumesLeft(w) + PassesToCome(p, w));
    assert w.it < p.maxIterations;
  }

  lemma DrivePays(p: Plan, w: World)
    requires IsWorst(p, w)
    requires IsPrepare(w.pc) || w.pc.Collecting? || (w.pc.Retrying? && AllIdle(w.workers) && Debt(p, w) > 0)
    ensures IsEnabled(w, FULL) && Pays(p, w, Step(p, w, FULL))
  {
    hide Times, Pays, RecoverStep, PrepareStep, LoopStep, DispatchStep, OutcomeStep, BeginRetries, AreRefused, IsWorstOnRestart,
      RetriesUnderWay, AllIdle, AllAre, RetriesOf, Sum, Load;
    if IsPrepare(w.pc) {
      PreparationPays(p, w);
    } else if w.pc.Collecting? {
      CollectingPays(p, w);
    } else {
      RetriedPays(p, w);
    }
  }

  lemma WorstStepPays(p: Plan, w: World) returns (e: Event)
    requires IsWorst(p, w) && Debt(p, w) > 0
    ensures IsEnabled(w, e) && Pays(p, w, Step(p, w, e))
  {
    hide Times, Step, Pays, Debt, InTurn, InFan, RetriesFit, RetriesUnderWay, IsWorstOnRestart, IsWorstAtStart, AreRefused,
      AllIdle;
    e := FULL;
    if w.pc.Down? || IsRecover(w.pc) {
      e := RestartPays(p, w);
    } else if IsLoop(w.pc) {
      LoopPays(p, w);
    } else if w.pc.Fanning? && w.pc.s == p.teams && w.mem.resumeCount < MAX_RUN_RESUMES {
      e := Crash;
      FanCrashPays(p, w);
    } else if w.pc.Fanning? {
      e := FanPays(p, w);
    } else if w.pc.FanChoosing? || w.pc.FanPosting? {
      e := FanPostPays(p, w);
    } else if w.pc.Retrying? && !AllIdle(w.workers) {
      e := WorkerPays(p, w);
    } else {
      DrivePays(p, w);
    }
  }

  lemma DebtBounds(p: Plan, w: World)
    requires IsWorst(p, w)
    ensures Debt(p, w) >= 0 && Distance(p, w) >= 0
  {
    hide AreRefused, AllIdle, RetriesOf, Sum, Load;
    var rs := RetriesOf(w.mem.stages);
    assert forall i :: 0 <= i < |rs| ==> rs[i] <= 1;
    SumBound(rs);
    Product(p.teams, ResumesLeft(w) + PassesToCome(p, w));
  }

  lemma Product(n: nat, a: nat)
    ensures Times(n, a) >= 0
  {
  }

  lemma {:induction false} DebtIsPaid(p: Plan, w: World) returns (es: seq<Event>)
    requires IsWorst(p, w)
    ensures IsRun(p, w, es) && After(p, w, es).posts == w.posts + Debt(p, w)
    decreases Debt(p, w), Distance(p, w)
  {
    hide Step, IsWorstAt, Debt, Distance, IsEnabled, AreRefused;
    DebtBounds(p, w);
    if Debt(p, w) == 0 {
      es := [];
    } else {
      var e := WorstStepPays(p, w);
      var r := Step(p, w, e);
      DebtBounds(p, r);
      var rest := DebtIsPaid(p, r);
      es := [e] + rest;
      assert es[1..] == rest;
    }
  }

  // ---------------------------------------------------------------- the exact maximum

  lemma {:induction false} SumOfZeros(rs: seq<nat>)
    requires AllAre(rs, 0)
    ensures Sum(rs) == 0
  {
    if rs != [] {
      SumOfZeros(rs[..|rs| - 1]);
    }
  }

  lemma StartIsWorst(p: Plan)
    requires IsPlan(p) && p.mode != Pipeline && !p.dryRun
    ensures IsWorst(p, Start(p)) && Debt(p, Start(p)) == PostLimit(p)
  {
    SumOfZeros(RetriesOf(Start(p).mem.stages));
    OneFewer(p.teams, p.maxIterations + MAX_RUN_RESUMES);
    hide Sum;
  }

  lemma PipelineStartIsWorst(p: Plan)
    requires IsPlan(p) && p.mode == Pipeline && !p.dryRun
    ensures CompanyWorstPipeline.IsWorst(p, Start(p)) && CompanyWorstPipeline.Debt(p, Start(p)) == PostLimit(p)
  {
  }

  /** For every plan that is not a dry run, in either mode, some run posts exactly as many tasks as the limit says. */
  lemma PostLimitIsReached(p: Plan)
    requires IsPlan(p) && !p.dryRun
    ensures exists es :: IsRun(p, Start(p), es) && After(p, Start(p), es).posts == PostLimit(p)
  {
    hide Debt, CompanyWorstPipeline.Debt, IsWorst, CompanyWorstPipeline.IsWorst;
    if p.mode == Pipeline {
      PipelineStartIsWorst(p);
      var es := CompanyWorstPipeline.DebtIsPaid(p, Start(p));
    } else {
      StartIsWorst(p);
      var es := DebtIsPaid(p, Start(p));
    }
  }

  /** The most stage tasks that a run can post. */
  function MostPosts(p: Plan): nat {
    if p.dryRun then 0 else PostLimit(p)
  }

  /** It is the exact maximum, for every plan: no run posts more, and some run posts as many. */
  lemma MostPostsExactly(p: Plan)
    requires IsPlan(p)
    ensures MostPosts(p) == if p.dryRun then 0 else if p.mode == Pipeline then 3 * (p.teams + p.maxIterations + 2)
                            else p.teams * (p.maxIterations + 4)
    ensures forall es | IsRun(p, Start(p), es) :: After(p, Start(p), es).posts <= MostPosts(p)
    ensures exists es :: IsRun(p, Start(p), es) && After(p, Start(p), es).posts == MostPosts(p)
  {
    forall es | IsRun(p, Start(p), es)
      ensures After(p, Start(p), es).posts <= MostPosts(p)
    {
      if p.dryRun {
        CompanyCancel.DryRunStaysDry(p, Start(p), es);
      } else {
        PostsAreBounded(p, es);
      }
    }
    if p.dryRun {
      var es: seq<Event> := [];
      assert IsRun(p, Start(p), es) && After(p, Start(p), es).posts == 0;
    } else {
      PostLimitIsReached(p);
    }
  }
}
