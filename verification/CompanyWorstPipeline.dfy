/** The worst case of a pipeline: a run that posts as often as the limit allows. */
module CompanyWorstPipeline {
  import opened CompanyRecord
  import opened CompanyDriver
  import opened CompanyCancel

  // ---------------------------------------------------------------- the worst answers

  /** As `GO`, with as many candidates as are ever tried. */
  const FULL := Drive(Answer(true, false, MAX_STAGE_ATTEMPTS, {}, DONE))

  /** Whoever is asked refuses. */
  const NO := Answer(false, false, 0, {}, DONE)

  predicate IsLastPass(p: Plan, w: World) {
    w.mem.resumeCount == MAX_RUN_RESUMES && w.it == p.maxIterations
  }

  /**
   * The worst events for a pipeline: every post is refused, but for the third of each stage in the last pass; and while
   * resumes are left, a crash comes after the third post of a pass.
   */
  function WorstEvent(p: Plan, w: World): Event {
    match w.pc
    case Down => Restart(true)
    case Posting(s, i, count) => if IsLastPass(p, w) && i == MAX_STAGE_ATTEMPTS - 1 then FULL else Drive(NO)
    case Attempting(s, i, count) =>
      if i == MAX_STAGE_ATTEMPTS && w.mem.resumeCount < MAX_RUN_RESUMES then Crash else FULL
    case _ => FULL
  }

  /** The resume that a crash leads to, and the pass that a failed one is followed by, count as begun. */
  function ResumesLeft(w: World): int {
    MAX_RUN_RESUMES - w.mem.resumeCount - if w.pc.Down? || IsRecover(w.pc) then 1 else 0
  }

  function PassesToCome(p: Plan, w: World): int {
    if w.pc.Down? || IsRecover(w.pc) || IsPrepare(w.pc) then p.maxIterations - 1
    else if w.pc.PassEnd? || w.pc.BackingOff? then p.maxIterations - w.it - 1
    else p.maxIterations - w.it
  }

  function StagesToCome(p: Plan, pc: Pc): int {
    match pc
    case StageHead(s) => MAX_STAGE_ATTEMPTS * (p.teams - s)
    case Choosing(s) => MAX_STAGE_ATTEMPTS * (p.teams - s)
    case Attempting(s, i, count) => MAX_STAGE_ATTEMPTS * (p.teams - s) - i
    case Posting(s, i, count) => MAX_STAGE_ATTEMPTS * (p.teams - s) - i - 1
    case AwaitingTask(s, i, count) => MAX_STAGE_ATTEMPTS * (p.teams - s) - i - 1
    case Judging(s, i, count, r) => MAX_STAGE_ATTEMPTS * (p.teams - s) - i - 1
    case _ => MAX_STAGE_ATTEMPTS * p.teams
  }

  /** The posts that are still to come. */
  function Debt(p: Plan, w: World): int {
    MAX_STAGE_ATTEMPTS * (ResumesLeft(w) + PassesToCome(p, w)) + StagesToCome(p, w.pc)
  }

  /** How far the next post is. */
  function Distance(p: Plan, pc: Pc): int {
    match pc
    case Posting(s, i, count) => p.teams + 12
    case Attempting(s, i, count) => if i < MAX_STAGE_ATTEMPTS then 1 else p.teams + 11
    case Down => p.teams + 10
    case Booting => p.teams + 9
    case Reconciling(i) => p.teams - i + 8
    case Discussing(isResume) => 7
    case Splitting => 6
    case PassEnd => 6
    case Selecting => 5
    case BackingOff => 5
    case AwaitingTask(s, i, count) => 5
    case Judging(s, i, count, r) => 4
    case LoopTop => 4
    case StageHead(s) => 3
    case _ => 2
  }

  /** From stage `s` on nothing is completed, and no later stage has a task. */
  predicate IsOpenFrom(stages: seq<Stage>, s: nat) {
    && (forall j :: 0 <= j < |stages| ==> stages[j].status != StageBlocked)
    && (forall j :: s <= j < |stages| ==> stages[j].status != StageCompleted && !stages[j].task)
  }

  /** In pass `it`, which is the first while resumes are left. */
  predicate InTurn(p: Plan, w: World) {
    && w.it == w.mem.completedIterations + 1 && w.it <= p.maxIterations
    && (w.mem.resumeCount < MAX_RUN_RESUMES ==> w.it == 1)
  }

  /** A pipeline on its way to the worst case, with stage `s` in hand or ahead. */
  predicate AtWorst(p: Plan, w: World, s: nat) {
    && InTurn(p, w) && IsOpenFrom(w.mem.stages, s)
    && (!IsLastPass(p, w) ==> s == 0)
    && (w.mem.resumeCount < MAX_RUN_RESUMES ==> w.mem == w.disk)
  }

  predicate IsWorstAtStart(w: World) {
    w.mem == w.disk && w.mem.completedIterations == 0 && IsOpenFrom(w.mem.stages, 0)
  }

  predicate IsWorstAt(p: Plan, w: World) {
    match w.pc
    case Discussing(isResume) => IsWorstAtStart(w) && isResume == w.mem.decomposed
    case Splitting => IsWorstAtStart(w)
    case Selecting => IsWorstAtStart(w) && w.mem.decomposed
    case LoopTop => AtWorst(p, w, 0) && w.mem.decomposed
    case StageHead(s) => AtWorst(p, w, s) && w.mem.decomposed
    case Choosing(s) => AtWorst(p, w, s) && w.mem.decomposed
    case Attempting(s, i, count) =>
      AtWorst(p, w, s) && w.mem.decomposed && count == MAX_STAGE_ATTEMPTS && (IsLastPass(p, w) ==> i < count)
    case Posting(s, i, count) => AtWorst(p, w, s) && w.mem.decomposed && count == MAX_STAGE_ATTEMPTS
    case AwaitingTask(s, i, count) => IsLastTry(p, w, s, i)
    case Judging(s, i, count, r) => IsLastTry(p, w, s, i) && r == DONE
    case PassEnd => AtWorst(p, w, 0) && w.mem.resumeCount == MAX_RUN_RESUMES && w.it < p.maxIterations
                    && w.mem.stages != [] && w.mem.stages[0].status == StageFailed && w.mem.decomposed
    case BackingOff => w.mem.resumeCount == MAX_RUN_RESUMES && w.it < p.maxIterations && w.mem.decomposed
                       && w.it == w.mem.completedIterations && IsOpenFrom(w.mem.stages, 0)
    case Down => IsWorstOnRestart(w)
    case Booting => IsWorstOnRestart(w)
    case Reconciling(i) => IsWorstOnRestart(w)
    case _ => false
  }

  /** The third post of stage `s` in the last pass, the one that was not refused. */
  predicate IsLastTry(p: Plan, w: World, s: nat, i: nat) {
    && IsLastPass(p, w) && InTurn(p, w) && w.mem.decomposed
    && IsOpenFrom(w.mem.stages, s + 1) && i == MAX_STAGE_ATTEMPTS - 1
  }

  predicate IsWorstOnRestart(w: World) {
    && w.mem == w.disk && w.mem.decomposed && w.mem.completedIterations == 0 && w.mem.resumeCount < MAX_RUN_RESUMES
    && IsOpenFrom(w.mem.stages, 0)
  }

  predicate IsWorst(p: Plan, w: World) {
    && IsPlan(p) && p.mode == Pipeline && !p.dryRun && IsWorld(p, w)
    && !IsFinal(w.mem.status) && w.mem.blockers == {} && w.mem.resumeCount <= MAX_RUN_RESUMES
    && IsWorstAt(p, w)
  }

  /** A step towards the next post, or that post. */
  predicate Pays(p: Plan, w: World, r: World) {
    && IsWorst(p, r)
    && r.posts + Debt(p, r) == w.posts + Debt(p, w)
    && (r.posts > w.posts || (r.posts == w.posts && Distance(p, r.pc) < Distance(p, w.pc)))
  }

  // ---------------------------------------------------------------- every step pays

  lemma OpenMeans(run: Run, s: nat)
    requires IsOpenFrom(run.stages, s) && run.blockers == {}
    ensures !IsBlocked(run)
    ensures s < |run.stages| ==> !AllCompleted(run.stages)
    ensures FailedStages(run.stages, {}) == run.stages && !AnyUnavailable(run.stages, {})
    ensures !AnyUnfinishedUnavailable(run.stages, {})
    ensures IsOpenFrom(run.stages, s + 1)
    ensures s < |run.stages| ==> run.stages[s].status != StageCompleted && !run.stages[s].task
  {
    assert s < |run.stages| ==> run.stages[s].status != StageCompleted;
  }

  lemma OpenAfter(stages: seq<Stage>, s: nat)
    requires IsOpenFrom(stages, s)
    ensures IsOpenFrom(RefinedStages(stages, {}), s)
    ensures s < |stages| ==> WithStage(stages, s, stages[s].status, false) == stages
    ensures s < |stages| ==> IsOpenFrom(WithStage(stages, s, StageFailed, false), s)
    ensures s < |stages| ==> IsOpenFrom(WithStatus(stages, s, StageFailed), s)
    ensures s < |stages| ==> IsOpenFrom(WithStage(stages, s, StageRunning, true), s + 1)
  {
  }

  lemma OpenBehind(stages: seq<Stage>, s: nat)
    requires s < |stages| && IsOpenFrom(stages, s + 1)
    ensures IsOpenFrom(WithStatus(stages, s, StageCompleted), s + 1)
  {
  }

  /** No task is waited for: a resume is counted, and the discussion follows. */
  lemma RecoveryMoves(p: Plan, w: World)
    requires IsPlan(p) && IsWorld(p, w) && IsRecover(w.pc) && IsWorstOnRestart(w) && w.mem.blockers == {}
    ensures var r := RecoverStep(p, w, FULL.answer);
            && r.mem == r.disk && r.posts == w.posts
            && if w.pc.Reconciling? && w.pc.i == p.teams then
                 r.pc == Discussing(true) && r.mem == w.mem.(resumeCount := w.mem.resumeCount + 1)
               else
                 r.mem == w.mem && r.pc == Reconciling(if w.pc.Booting? then 0 else w.pc.i + 1)
  {
    OpenMeans(w.mem, 0);
    assert w.pc.Reconciling? && w.pc.i < p.teams ==> !w.mem.stages[w.pc.i].task;
    hide IsBlocked, AllCompleted, FinalizeRun, IsOpenFrom, BlockRun, Recovered;
  }

  lemma RestartPays(p: Plan, w: World)
    requires IsWorst(p, w) && (w.pc.Down? || IsRecover(w.pc))
    ensures IsEnabled(w, WorstEvent(p, w)) && Pays(p, w, Step(p, w, WorstEvent(p, w)))
  {
    hide IsOpenFrom, RecoverStep, PrepareStep, LoopStep, DispatchStep, OutcomeStep, ParallelStep, WorkerStep, AtWorst,
      IsLastTry, CompletedSet;
    if IsRecover(w.pc) {
      RecoveryMoves(p, w);
    }
  }

  lemma PreparationMoves(p: Plan, w: World)
    requires IsWorst(p, w) && IsPrepare(w.pc)
    ensures var r := PrepareStep(p, w, FULL.answer);
            && r.mem == r.disk == w.mem.(status := r.mem.status, decomposed := r.mem.decomposed)
            && r.posts == w.posts && !IsFinal(r.mem.status)
            && match w.pc
               case Discussing(isResume) =>
                 r.pc == (if isResume then Selecting else Splitting) && r.mem.decomposed == w.mem.decomposed
               case Splitting => r.pc == Selecting && r.mem.decomposed
               case _ => r.pc == LoopTop && r.it == 1 && r.mem.decomposed
  {
    OpenMeans(w.mem, 0);
    hide IsOpenFrom, AnyUnavailable, FailedStages, AtWorst, IsLastTry, IsWorstOnRestart;
  }

  lemma PreparationPays(p: Plan, w: World)
    requires IsWorst(p, w) && IsPrepare(w.pc)
    ensures IsEnabled(w, WorstEvent(p, w)) && Pays(p, w, Step(p, w, WorstEvent(p, w)))
  {
    PreparationMoves(p, w);
    hide IsOpenFrom, RecoverStep, PrepareStep, LoopStep, DispatchStep, OutcomeStep, ParallelStep, WorkerStep, IsLastTry,
      IsWorstOnRestart;
  }

  lemma BeginningMoves(p: Plan, w: World)
    requires IsWorld(p, w) && p.mode == Pipeline && w.it <= p.maxIterations && w.mem.status != Cancelled
    requires IsOpenFrom(w.mem.stages, 0) && w.mem.blockers == {}
    ensures var r := BeginPass(p, w, FULL.answer);
            && r.pc == StageHead(0) && r.posts == w.posts && r.it == w.it && r.mem == r.disk
            && r.mem == w.mem.(status := Running, stages := r.mem.stages) && IsOpenFrom(r.mem.stages, 0)
  {
    OpenMeans(w.mem, 0);
    OpenAfter(w.mem.stages, 0);
    hide IsOpenFrom, IsBlocked, AllCompleted, FinalizeRun, RefinedStages, AnyUnfinishedUnavailable, Unfinished;
  }

  lemma BeginningPays(p: Plan, w: World)
    requires IsWorst(p, w) && w.pc.LoopTop?
    ensures Pays(p, w, BeginPass(p, w, FULL.answer))
  {
    hide IsOpenFrom, BeginPass, IsLastTry, IsWorstOnRestart;
    BeginningMoves(p, w);
  }

  lemma EndingMoves(p: Plan, w: World)
    requires IsWorst(p, w) && w.pc.PassEnd?
    ensures var r := EndPass(p, w);
            && r.pc == BackingOff && r.it == w.it && r.posts == w.posts
            && r.mem == w.mem.(status := Running, completedIterations := w.it)
  {
    var run := w.mem.(completedIterations := w.it);
    OpenMeans(run, 0);
    assert !IsSettled(run);
    hide IsOpenFrom, IsSettled, IsBlocked, FinalizeRun, IsLastTry, IsWorstOnRestart;
  }

  lemma EndingPays(p: Plan, w: World)
    requires IsWorst(p, w) && w.pc.PassEnd?
    ensures Pays(p, w, EndPass(p, w))
  {
    hide IsOpenFrom, EndPass, IsLastTry, IsWorstOnRestart;
    EndingMoves(p, w);
  }

  lemma LoopPays(p: Plan, w: World)
    requires IsWorst(p, w) && IsLoop(w.pc)
    ensures IsEnabled(w, WorstEvent(p, w)) && Pays(p, w, Step(p, w, WorstEvent(p, w)))
  {
    if w.pc.LoopTop? {
      BeginningPays(p, w);
    } else if w.pc.PassEnd? {
      EndingPays(p, w);
    }
    hide IsOpenFrom, BeginPass, EndPass, RecoverStep, PrepareStep, DispatchStep, OutcomeStep, ParallelStep, WorkerStep;
  }

  lemma HeadMoves(p: Plan, w: World)
    requires IsWorst(p, w) && (w.pc.StageHead? || w.pc.Choosing?) && w.pc.s < p.teams
    ensures DispatchStep(p, w, FULL.answer)
            == w.(pc := if w.pc.StageHead? then Choosing(w.pc.s) else Attempting(w.pc.s, 0, MAX_STAGE_ATTEMPTS))
  {
    OpenMeans(w.mem, w.pc.s);
    hide IsOpenFrom, IsBlocked, WithStatus, Attempt, Posted, IsLastTry, IsWorstOnRestart;
  }

  lemma HeadPays(p: Plan, w: World)
    requires IsWorst(p, w) && (w.pc.StageHead? || w.pc.Choosing?) && Debt(p, w) > 0
    ensures Pays(p, w, DispatchStep(p, w, FULL.answer))
  {
    hide IsOpenFrom, DispatchStep, IsLastTry, IsWorstOnRestart;
    HeadMoves(p, w);
  }

  lemma AttemptMoves(p: Plan, w: World)
    requires IsWorst(p, w) && w.pc.Attempting? && w.pc.i < MAX_STAGE_ATTEMPTS
    ensures DispatchStep(p, w, FULL.answer)
            == w.(pc := Posting(w.pc.s, w.pc.i, MAX_STAGE_ATTEMPTS), posts := w.posts + 1)
  {
    OpenMeans(w.mem, w.pc.s);
    OpenAfter(w.mem.stages, w.pc.s);
    hide IsOpenFrom, IsBlocked, WithStatus, WithStage, AtHead, Chosen, Posted, IsLastTry, IsWorstOnRestart;
  }

  lemma GivingUpMoves(p: Plan, w: World)
    requires IsWorst(p, w) && w.pc.Attempting? && w.pc.i == MAX_STAGE_ATTEMPTS
    ensures var r := DispatchStep(p, w, FULL.answer);
            && w.pc.s == 0 && r.pc == PassEnd && r.posts == w.posts && r.it == w.it
            && r.mem == w.mem.(stages := r.mem.stages) && IsOpenFrom(r.mem.stages, 0)
            && r.mem.stages[0].status == StageFailed
  {
    OpenAfter(w.mem.stages, w.pc.s);
    assert WithStatus(w.mem.stages, w.pc.s, StageFailed)[w.pc.s].status == StageFailed;
    hide IsOpenFrom, IsBlocked, WithStatus, WithStage, AtHead, Chosen, Posted, IsLastTry, IsWorstOnRestart;
  }

  lemma AttemptPays(p: Plan, w: World)
    requires IsWorst(p, w) && w.pc.Attempting? && WorstEvent(p, w) == FULL
    ensures Pays(p, w, DispatchStep(p, w, FULL.answer))
  {
    hide DispatchStep, IsOpenFrom, WithStatus, WithStage, IsLastTry, IsWorstOnRestart;
    if w.pc.i < MAX_STAGE_ATTEMPTS {
      AttemptMoves(p, w);
    } else {
      GivingUpMoves(p, w);
    }
  }

  lemma PostingMoves(p: Plan, w: World)
    requires IsWorst(p, w) && w.pc.Posting? && WorstEvent(p, w).Drive?
    ensures var s, i := w.pc.s, w.pc.i;
            var r := DispatchStep(p, w, WorstEvent(p, w).answer);
            && r.posts == w.posts && r.it == w.it && r.mem == r.disk == w.mem.(stages := r.mem.stages)
            && if IsLastPass(p, w) && i == MAX_STAGE_ATTEMPTS - 1 then
                 r.pc == AwaitingTask(s, i, w.pc.count) && IsOpenFrom(r.mem.stages, s + 1)
               else
                 r.pc == Attempting(s, i + 1, w.pc.count) && IsOpenFrom(r.mem.stages, s)
  {
    OpenAfter(w.mem.stages, w.pc.s);
    hide IsOpenFrom, WithStage, AtHead, Chosen, Attempt, IsLastTry, IsWorstOnRestart;
  }

  lemma PostingPays(p: Plan, w: World)
    requires IsWorst(p, w) && w.pc.Posting?
    ensures WorstEvent(p, w).Drive? && Pays(p, w, DispatchStep(p, w, WorstEvent(p, w).answer))
  {
    PostingMoves(p, w);
    hide DispatchStep, IsOpenFrom, IsWorstOnRestart;
  }

  lemma CrashPays(p: Plan, w: World)
    requires IsWorst(p, w) && w.pc.Attempting? && WorstEvent(p, w) == Crash
    ensures Pays(p, w, Step(p, w, Crash))
  {
    hide IsOpenFrom, CompletedSet;
  }

  lemma DispatchPays(p: Plan, w: World)
    requires IsWorst(p, w) && IsDispatch(w.pc) && Debt(p, w) > 0
    ensures IsEnabled(w, WorstEvent(p, w)) && Pays(p, w, Step(p, w, WorstEvent(p, w)))
  {
    if w.pc.StageHead? || w.pc.Choosing? {
      HeadPays(p, w);
    } else if w.pc.Posting? {
      PostingPays(p, w);
    } else if WorstEvent(p, w) == FULL {
      AttemptPays(p, w);
    } else {
      CrashPays(p, w);
    }
    hide IsWorst, Pays, Debt, RecoverStep, PrepareStep, LoopStep, DispatchStep, OutcomeStep, ParallelStep, WorkerStep,
      CompletedSet;
  }

  lemma OutcomeMoves(p: Plan, w: World)
    requires IsWorst(p, w) && IsOutcome(w.pc)
    ensures var r := OutcomeStep(p, w, FULL.answer);
            var s, i := w.pc.s, w.pc.i;
            && r.posts == w.posts && r.it == w.it && r.mem == w.mem.(stages := r.mem.stages, decision := r.mem.decision)
            && IsOpenFrom(r.mem.stages, s + 1)
            && r.pc == if w.pc.AwaitingTask? then Judging(s, i, w.pc.count, DONE) else StageHead(s + 1)
  {
    OpenBehind(w.mem.stages, w.pc.s);
    hide IsOpenFrom, BlockRun, WithStatus, SkippedAfter, IsWorstOnRestart, AtWorst;
  }

  lemma OutcomePays(p: Plan, w: World)
    requires IsWorst(p, w) && IsOutcome(w.pc)
    ensures IsEnabled(w, WorstEvent(p, w)) && Pays(p, w, Step(p, w, WorstEvent(p, w)))
  {
    OutcomeMoves(p, w);
    hide IsOpenFrom, RecoverStep, PrepareStep, LoopStep, DispatchStep, OutcomeStep, ParallelStep, WorkerStep,
      IsWorstOnRestart;
  }

  lemma WorstStepPays(p: Plan, w: World)
    requires IsWorst(p, w) && Debt(p, w) > 0
    ensures IsEnabled(w, WorstEvent(p, w)) && Pays(p, w, Step(p, w, WorstEvent(p, w)))
  {
    hide Step, Pays, Debt;
    if w.pc.Down? || IsRecover(w.pc) {
      RestartPays(p, w);
    } else if IsPrepare(w.pc) {
      PreparationPays(p, w);
    } else if IsLoop(w.pc) {
      LoopPays(p, w);
    } else if IsDispatch(w.pc) {
      DispatchPays(p, w);
    } else {
      OutcomePays(p, w);
    }
  }

  lemma DebtBounds(p: Plan, w: World)
    requires IsWorst(p, w)
    ensures Debt(p, w) >= 0 && Distance(p, w.pc) >= 0
  {
    hide IsOpenFrom;
  }

  lemma {:induction false} DebtIsPaid(p: Plan, w: World) returns (es: seq<Event>)
    requires IsWorst(p, w)
    ensures IsRun(p, w, es) && After(p, w, es).posts == w.posts + Debt(p, w)
    decreases Debt(p, w), Distance(p, w.pc)
  {
    hide Step, IsWorstAt, Debt, Distance, IsEnabled;
    DebtBounds(p, w);
    if Debt(p, w) == 0 {
      es := [];
    } else {
      WorstStepPays(p, w);
      var r := Step(p, w, WorstEvent(p, w));
      DebtBounds(p, r);
      var rest := DebtIsPaid(p, r);
      es := [WorstEvent(p, w)] + rest;
      assert es[1..] == rest;
    }
  }
}
