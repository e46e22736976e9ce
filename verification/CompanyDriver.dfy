/**
 * The driver of a company run as a state machine. One step is what the code does between two points where another
 * request, a task result or a crash can come in; the answers of providers, tasks and HTTP calls are arbitrary.
 */
module CompanyDriver {
  import opened Text
  import opened CompanyRecord

  /** `gate` is the position of the value-gate team, if the organization is the porting one and has it. */
  datatype Plan = Plan(mode: Mode, teams: nat, maxIterations: nat, dryRun: bool, gate: Option<nat>)

  predicate IsPlan(p: Plan) {
    p.teams >= 1 && 1 <= p.maxIterations <= ABSOLUTE_MAX_RUN_ITERATIONS
  }

  datatype TaskStatus = TaskCompleted | TaskFailed | TaskTimedOut | TaskCancelled

  /**
   * What waiting for a task gives: its status, the blocker its response reports, whether that blocker may be retried,
   * whether the response is acceptable, and the decision it states.
   */
  datatype TaskResult = TaskResult(
    status: TaskStatus, blocker: Option<string>, isRetryable: bool, isAcceptable: bool, decision: Decision)

  /** Everything the outside answers at one step; each step looks at some of it. */
  datatype Answer = Answer(ok: bool, stored: bool, chain: nat, unavailable: set<nat>, result: TaskResult)

  /** A `collectStage` or retry closure of a parallel pass. */
  datatype Worker = Idle | WaitingForTask | ChoosingProvider | PostingTask

  datatype Pc =
    | Down
    | Booting
    | Reconciling(i: nat)
    | Discussing(isResume: bool)
    | Splitting
    | Selecting
    | LoopTop
    | StageHead(s: nat)
    | Choosing(s: nat)
    | Attempting(s: nat, i: nat, count: nat)
    | Posting(s: nat, i: nat, count: nat)
    | AwaitingTask(s: nat, i: nat, count: nat)
    | Judging(s: nat, i: nat, count: nat, r: TaskResult)
    | Fanning(s: nat, todo: set<nat>)
    | FanChoosing(s: nat, todo: set<nat>)
    | FanPosting(s: nat, todo: set<nat>)
    | Collecting
    | Retrying
    | PassEnd
    | Reviewing
    | BackingOff
    | Ended

  /**
   * `mem` is the object in memory, `disk` the persisted copy, `it` the loop variable. The other fields are history that
   * survives crashes, but for the last one: how many stage tasks were posted; how many passes with unfinished stages
   * began; the stages whose output was found acceptable, at the value gate with a decision in it; the stages that
   * became completed, for the next life or this one, without that; and whether the recovery of this life met a blocker.
   */
  datatype World = World(
    mem: Run, disk: Run, pc: Pc, it: nat, workers: seq<Worker>,
    posts: nat, passes: nat, judged: set<nat>, slipped: set<nat>, metBlocker: bool)

  datatype Event = Drive(answer: Answer) | Work(k: nat, answer: Answer) | Cancel | Crash | Restart(valid: bool) | Throw

  /** The pending stage of a step is one of the run's stages. */
  predicate IsInRange(pc: Pc, n: nat) {
    match pc
    case Choosing(s) => s < n
    case Attempting(s, i, count) => s < n && count <= MAX_STAGE_ATTEMPTS && i <= count
    case Posting(s, i, count) => s < n && i < count <= MAX_STAGE_ATTEMPTS
    case AwaitingTask(s, i, count) => s < n && i < count <= MAX_STAGE_ATTEMPTS
    case Judging(s, i, count, r) => s < n && i < count <= MAX_STAGE_ATTEMPTS
    case FanChoosing(s, todo) => s < n
    case FanPosting(s, todo) => s < n
    case StageHead(s) => s <= n
    case Fanning(s, todo) => s <= n
    case Reconciling(i) => i <= n
    case _ => true
  }

  /** The shape that every reachable world has. */
  predicate IsWorld(p: Plan, w: World) {
    && |w.mem.stages| == |w.disk.stages| == |w.workers| == p.teams
    && IsInRange(w.pc, p.teams)
  }

  // ---------------------------------------------------------------- helpers

  function Go(w: World, pc: Pc): World {
    w.(pc := pc)
  }

  /** Change the record in memory only. */
  function Keep(w: World, run: Run, pc: Pc): World {
    w.(mem := run, pc := pc)
  }

  /** Change the record and `touch` it. */
  function Save(w: World, run: Run, pc: Pc): World {
    w.(mem := run, disk := run, pc := pc)
  }

  function NextPass(w: World): World {
    w.(pc := LoopTop, it := w.it + 1)
  }

  function SetStatus(run: Run, s: nat, status: StageStatus): Run
    requires s < |run.stages|
  {
    run.(stages := WithStatus(run.stages, s, status))
  }

  function SetStage(run: Run, s: nat, status: StageStatus, task: bool): Run
    requires s < |run.stages|
  {
    run.(stages := WithStage(run.stages, s, status, task))
  }

  function StageStatusOf(t: TaskStatus): StageStatus {
    match t
    case TaskCompleted => StageCompleted
    case TaskFailed => StageFailed
    case TaskTimedOut => StageTimedOut
    case TaskCancelled => StageCancelled
  }

  /** A rejected driver promise: `applyCompanyRunDriverFailure`. */
  function Fail(p: Plan, w: World): (r: World)
    requires IsWorld(p, w)
    ensures IsWorld(p, r)
  {
    if IsCancelled(w.mem) then Go(w, Ended) else Save(w, w.mem.(status := Failed), Ended)
  }

  function Finish(p: Plan, w: World): (r: World)
    requires IsWorld(p, w)
    ensures IsWorld(p, r)
  {
    Save(w, FinalizeRun(w.mem), Ended)
  }

  function CompletedSet(stages: seq<Stage>): set<nat> {
    set i: nat | i < |stages| && stages[i].status == StageCompleted
  }

  function NoWorkers(n: nat): (ws: seq<Worker>)
    ensures |ws| == n && forall k :: 0 <= k < n ==> ws[k] == Idle
  {
    seq(n, _ => Idle)
  }

  predicate AllIdle(ws: seq<Worker>) {
    forall k :: 0 <= k < |ws| ==> ws[k] == Idle
  }

  // ---------------------------------------------------------------- recovery and preparation

  /** `launchRunDriver` for a restored run. */
  function Boot(p: Plan, w: World): (r: World)
    requires IsWorld(p, w)
    ensures IsWorld(p, r)
  {
    if IsBlocked(w.mem) then Finish(p, w) else Go(w, Reconciling(0))
  }

  /**
   * The recovered task of stage `i` has ended. Whether its output is acceptable makes no difference to the status, and
   * the value gate is not consulted.
   */
  function Recovered(p: Plan, w: World, i: nat, result: TaskResult): (r: World)
    requires IsWorld(p, w) && i < p.teams
    ensures IsWorld(p, r) && r.pc == Reconciling(i + 1)
  {
    var acceptable := result.status == TaskCompleted && result.isAcceptable;
    var status := if acceptable then StageCompleted else StageStatusOf(result.status);
    var r := Save(w, SetStatus(w.mem, i, status), Reconciling(i + 1));
    if IsJudgedByRecovery(p, i, result) then r.(judged := w.judged + {i})
    else if result.status == TaskCompleted then r.(slipped := w.slipped + {i})
    else r
  }

  /** The recovery has looked at the output and there was no gate to pass. */
  predicate IsJudgedByRecovery(p: Plan, i: nat, result: TaskResult) {
    result.status == TaskCompleted && result.isAcceptable && p.gate != Some(i)
  }

  /** One turn of `reconcilePersistedStages`; after the last one the resume decision. */
  function Reconcile(p: Plan, w: World, i: nat, a: Answer): (r: World)
    requires IsWorld(p, w) && i <= p.teams
    ensures IsWorld(p, r)
  {
    if i >= |w.mem.stages| then Resume(p, w)
    else
      var stage := w.mem.stages[i];
      if !stage.task || !IsActive(stage) then Go(w, Reconciling(i + 1))
      else if a.result.status == TaskTimedOut && !a.ok then Fail(p, w)
      else if a.result.blocker.Some? then
        Save(w, BlockRun(p.mode, w.mem, i, a.result.blocker.value), Reconciling(|w.mem.stages|)).(metBlocker := true)
      else Recovered(p, w, i, a.result)
  }

  function Resume(p: Plan, w: World): (r: World)
    requires IsWorld(p, w)
    ensures IsWorld(p, r)
  {
    var run := w.mem.(resumeCount := w.mem.resumeCount + 1);
    var next := Save(w, run, Discussing(true));
    match DecideResume(!AllCompleted(run.stages), run.resumeCount, run.completedIterations, p.maxIterations)
    case NothingLeft => next
    case Continue => next
    case RecoveryExhausted => Finish(p, next)
    case IterationsExhausted => Finish(p, next)
  }

  /** The planning discussion has ended. */
  function Discussed(p: Plan, w: World, isResume: bool): (r: World)
    requires IsWorld(p, w)
    ensures IsWorld(p, r)
  {
    if !isResume || !w.mem.decomposed then Save(w, w.mem.(status := Decomposing), Splitting) else Go(w, Selecting)
  }

  /** Every stage has its subtask. */
  function Split(p: Plan, w: World): (r: World)
    requires IsWorld(p, w)
    ensures IsWorld(p, r)
  {
    Save(w, w.mem.(decomposed := true), Selecting)
  }

  function FailedStages(stages: seq<Stage>, unavailable: set<nat>): (r: seq<Stage>)
    ensures |r| == |stages|
    ensures forall i :: 0 <= i < |r| ==> r[i] == if i in unavailable then stages[i].(status := StageFailed) else stages[i]
  {
    seq(|stages|, i requires 0 <= i < |stages| =>
      if i in unavailable then stages[i].(status := StageFailed) else stages[i])
  }

  predicate AnyUnavailable(stages: seq<Stage>, unavailable: set<nat>) {
    exists i :: 0 <= i < |stages| && i in unavailable
  }

  predicate AnyUnfinishedUnavailable(stages: seq<Stage>, unavailable: set<nat>) {
    exists i :: 0 <= i < |stages| && stages[i].status != StageCompleted && i in unavailable
  }

  /** Nothing that the budgets count has changed. */
  predicate SameCounters(w: World, r: World) {
    && r.mem.completedIterations == w.mem.completedIterations
    && r.mem.resumeCount == w.mem.resumeCount
    && r.workers == w.workers
    && r.judged == w.judged && r.slipped == w.slipped
  }

  function FirstIteration(p: Plan, run: Run): nat {
    var next := run.completedIterations + 1;
    if next < p.maxIterations then next else p.maxIterations
  }

  /** Executors are selected; a stage without a provider ends the run. */
  function Select(p: Plan, w: World, a: Answer): (r: World)
    requires IsWorld(p, w)
    ensures IsWorld(p, r)
    ensures SameCounters(w, r) && r.passes == w.passes
    ensures r.pc == Ended || (r.pc == LoopTop && r.it == FirstIteration(p, w.mem))
  {
    var run := w.mem.(stages := FailedStages(w.mem.stages, a.unavailable));
    if AnyUnavailable(w.mem.stages, a.unavailable) then Fail(p, Save(w, run, w.pc))
    else if p.dryRun then Save(w, run.(status := Planned), Ended)
    else Save(w, run, LoopTop).(it := FirstIteration(p, run))
  }

  // ---------------------------------------------------------------- the loop

  /** The head of the loop, up to the first await of the pass. */
  function BeginPass(p: Plan, w: World, a: Answer): (r: World)
    requires IsWorld(p, w)
    ensures IsWorld(p, r)
    ensures SameCounters(w, r)
    ensures r.pc == Ended || (p.mode == Pipeline && r.pc == StageHead(0))
            || (p.mode != Pipeline && r.pc.Fanning? && r.pc.s == 0)
    ensures r.posts == w.posts
    ensures r.passes == if r.pc == Ended || AllCompleted(r.mem.stages) then w.passes else w.passes + 1
    ensures r.it == w.it && (r.pc != Ended ==> w.it <= p.maxIterations)
  {
    if w.it > p.maxIterations then (if IsCancelled(w.mem) then Go(w, Ended) else Finish(p, w))
    else if IsStopped(w.mem) then Go(w, Ended)
    else
      var stages := if w.it > 1 then RefinedStages(w.mem.stages, a.unavailable) else w.mem.stages;
      var missing := w.it > 1 && AnyUnfinishedUnavailable(w.mem.stages, a.unavailable);
      var run := w.mem.(stages := stages);
      if missing then Fail(p, Save(w, run, w.pc))
      else
        var counted := w.(passes := if AllCompleted(stages) then w.passes else w.passes + 1);
        if p.mode == Pipeline then Save(counted, run.(status := Running), StageHead(0))
        else Save(counted, run.(status := Dispatching), Fanning(0, Unfinished(stages)))
  }

  function Unfinished(stages: seq<Stage>): set<nat> {
    set i: nat | i < |stages| && stages[i].status != StageCompleted
  }

  /** After the pass: verify, then review, retry or finish. */
  function EndPass(p: Plan, w: World): (r: World)
    requires IsWorld(p, w)
    ensures IsWorld(p, r)
  {
    if IsCancelled(w.mem) then Go(w, Ended)
    else
      var run := w.mem.(completedIterations := w.it);
      if IsBlocked(run) then Finish(p, Keep(w, run, w.pc))
      else if IsSettled(run) then Save(w, run, Reviewing)
      else if w.it < p.maxIterations then Save(w, run.(status := Running), BackingOff)
      else Save(w, run, LoopTop).(it := w.it + 1)
  }

  /** Every stage is completed, or skipped after a rejection. */
  predicate IsSettled(run: Run) {
    forall i :: 0 <= i < |run.stages| ==>
      run.stages[i].status == StageCompleted || (run.decision == Some(Reject) && run.stages[i].status == StageSkipped)
  }

  /** The answer of the quality review. */
  function Reviewed(p: Plan, w: World, a: Answer): (r: World)
    requires IsWorld(p, w)
    ensures IsWorld(p, r)
  {
    if a.ok then Save(w, w.mem.(status := Completed), Ended)
    else if w.it < p.maxIterations then NextPass(w)
    else Finish(p, w)
  }

  // ---------------------------------------------------------------- a pipeline pass

  function AtHead(p: Plan, w: World, s: nat): (r: World)
    requires IsWorld(p, w) && s <= p.teams
    ensures IsWorld(p, r)
  {
    if s >= |w.mem.stages| || IsStopped(w.mem) then Go(w, PassEnd)
    else if w.mem.stages[s].status == StageCompleted then Go(w, StageHead(s + 1))
    else Go(w, Choosing(s))
  }

  /** The candidate chain is known; `ok` says whether executors outside the team are allowed. */
  function Chosen(p: Plan, w: World, s: nat, a: Answer): (r: World)
    requires IsWorld(p, w) && s < p.teams
    ensures IsWorld(p, r)
  {
    if a.chain == 0 && !a.ok then Save(w, SetStatus(w.mem, s, StageFailed), PassEnd)
    else
      var count := if a.chain == 0 then 1 else if a.chain < MAX_STAGE_ATTEMPTS then a.chain else MAX_STAGE_ATTEMPTS;
      Go(w, Attempting(s, 0, count))
  }

  /** The head of the failover loop; `ok` says whether the candidate is available. A post is made here. */
  function Attempt(p: Plan, w: World, s: nat, i: nat, count: nat, a: Answer): (r: World)
    requires IsWorld(p, w) && s < p.teams && i <= count <= MAX_STAGE_ATTEMPTS
    ensures IsWorld(p, r)
  {
    if i >= count then
      (if IsCancelled(w.mem) then Go(w, PassEnd) else Keep(w, SetStatus(w.mem, s, StageFailed), PassEnd))
    else if IsStopped(w.mem) then Go(w, PassEnd)
    else if i > 0 && !a.ok then Go(w, Attempting(s, i + 1, count))
    else Keep(w, SetStage(w.mem, s, w.mem.stages[s].status, false), Posting(s, i, count)).(posts := w.posts + 1)
  }

  /** The HTTP answer to a post. */
  function Posted(p: Plan, w: World, s: nat, i: nat, count: nat, a: Answer): (r: World)
    requires IsWorld(p, w) && s < p.teams && i < count <= MAX_STAGE_ATTEMPTS
    ensures IsWorld(p, r)
  {
    if a.ok then Save(w, SetStage(w.mem, s, StageRunning, true), AwaitingTask(s, i, count))
    else
      var next := if IsCancelled(w.mem) then PassEnd else Attempting(s, i + 1, count);
      Save(w, SetStage(w.mem, s, StageFailed, a.stored), next)
  }

  /** The task of a stage has ended. */
  function TaskEnded(p: Plan, w: World, s: nat, i: nat, count: nat, a: Answer): (r: World)
    requires IsWorld(p, w) && s < p.teams && i < count <= MAX_STAGE_ATTEMPTS
    ensures IsWorld(p, r)
  {
    var r := a.result;
    if r.status == TaskTimedOut && !a.ok then Fail(p, w)
    else if r.blocker.Some? && r.isRetryable then Save(w, SetStatus(w.mem, s, StageFailed), Attempting(s, i + 1, count))
    else if r.blocker.Some? then Save(w, BlockRun(p.mode, w.mem, s, r.blocker.value), PassEnd)
    else if r.status == TaskCancelled || IsCancelled(w.mem) then Save(w, SetStatus(w.mem, s, StageCancelled), PassEnd)
    else Save(w, SetStatus(w.mem, s, StageStatusOf(r.status)), Judging(s, i, count, r))
  }

  /** Only now, after the status is persisted, is the output looked at; the value gate comes last. */
  function Judge(p: Plan, w: World, s: nat, i: nat, count: nat, r: TaskResult): (next: World)
    requires IsWorld(p, w) && s < p.teams && i < count <= MAX_STAGE_ATTEMPTS
    ensures IsWorld(p, next)
  {
    if !(r.status == TaskCompleted && r.isAcceptable) then Go(w, Attempting(s, i + 1, count))
    else
      var taken := w.(judged := w.judged + {s});
      if p.gate != Some(s) then Go(taken, StageHead(s + 1))
      else
        var run := w.mem.(decision := Some(r.decision));
        match r.decision
        case Undetermined => Save(w, SetStatus(run, s, StageFailed), PassEnd)
        case Reject => Save(taken, run.(stages := SkippedAfter(run.stages, s, false)), PassEnd)
        case Approve => Keep(taken, run, StageHead(s + 1))
  }

  // ---------------------------------------------------------------- a parallel pass

  /** The head of the dispatch loop; after its end the collectors start. */
  function Fan(p: Plan, w: World, s: nat, todo: set<nat>): (r: World)
    requires IsWorld(p, w) && s <= p.teams
    ensures IsWorld(p, r)
  {
    if s < |w.mem.stages| then
      (if s !in todo then Go(w, Fanning(s + 1, todo))
       else if IsStopped(w.mem) then Go(w, PassEnd)
       else Go(w, FanChoosing(s, todo)))
    else if IsCancelled(w.mem) then Go(w, PassEnd)
    else if IsBlocked(w.mem) then Save(w, w.mem.(status := Running), Collecting)
    else
      Save(w, w.mem.(status := Running, stages := StartedStages(w.mem.stages, todo)), Collecting)
        .(workers := Collectors(w.mem.stages, todo))
  }

  predicate HasCollector(stages: seq<Stage>, todo: set<nat>, k: int) {
    0 <= k < |stages| && k in todo && stages[k].task
  }

  function StartedStages(stages: seq<Stage>, todo: set<nat>): (r: seq<Stage>)
    ensures |r| == |stages|
    ensures forall k :: 0 <= k < |r| ==>
      r[k] == if HasCollector(stages, todo, k) then stages[k].(status := StageRunning) else stages[k]
  {
    seq(|stages|, k requires 0 <= k < |stages| =>
      if HasCollector(stages, todo, k) then stages[k].(status := StageRunning) else stages[k])
  }

  function Collectors(stages: seq<Stage>, todo: set<nat>): (ws: seq<Worker>)
    ensures |ws| == |stages|
    ensures forall k :: 0 <= k < |ws| ==> ws[k] == if HasCollector(stages, todo, k) then WaitingForTask else Idle
  {
    seq(|stages|, k requires 0 <= k < |stages| => if HasCollector(stages, todo, k) then WaitingForTask else Idle)
  }

  /** The executor is chosen; `dispatchStage` looks at the stop flags again and posts. */
  function FanChosen(p: Plan, w: World, s: nat, todo: set<nat>): (r: World)
    requires IsWorld(p, w) && s < p.teams
    ensures IsWorld(p, r)
  {
    if IsStopped(w.mem) then Go(w, Fanning(s + 1, todo))
    else Go(w, FanPosting(s, todo)).(posts := w.posts + 1)
  }

  function FanPosted(p: Plan, w: World, s: nat, todo: set<nat>, a: Answer): (r: World)
    requires IsWorld(p, w) && s < p.teams
    ensures IsWorld(p, r)
  {
    var stage := w.mem.stages[s];
    Save(w,
         if a.ok then SetStage(w.mem, s, stage.status, true)
         else SetStage(w.mem, s, StageFailed, stage.task || a.stored),
         Fanning(s + 1, todo))
  }

  /** All collectors are done: retry what failed, once ever per stage. */
  function BeginRetries(p: Plan, w: World): (r: World)
    requires IsWorld(p, w)
    ensures IsWorld(p, r)
  {
    if IsStopped(w.mem) then Go(w, PassEnd)
    else Go(w, Retrying).(workers := Retriers(w.mem.stages))
  }

  function Retriers(stages: seq<Stage>): (ws: seq<Worker>)
    ensures |ws| == |stages|
    ensures forall k :: 0 <= k < |ws| ==> ws[k] == if IsRetried(stages[k]) then ChoosingProvider else Idle
  {
    seq(|stages|, k requires 0 <= k < |stages| => if IsRetried(stages[k]) then ChoosingProvider else Idle)
  }

  predicate IsRetried(s: Stage) {
    s.status != StageCompleted && s.status != StageCancelled && s.retries < 1
  }

  function SetWorker(w: World, k: nat, worker: Worker): World
    requires k < |w.workers|
  {
    w.(workers := w.workers[k := worker])
  }

  /** One step of a collector or retry closure. They outlive a driver that has failed. */
  function WorkerStep(p: Plan, w: World, k: nat, a: Answer): (r: World)
    requires IsWorld(p, w) && k < p.teams
    ensures IsWorld(p, r)
    ensures w.mem.blockers <= r.mem.blockers
  {
    match w.workers[k]
    case Idle => w
    case WaitingForTask => Collected(p, SetWorker(w, k, Idle), k, a)
    case ChoosingProvider =>
      if !a.ok then SetWorker(w, k, Idle)
      else
        var run := w.mem.(stages := RetriedStages(w.mem.stages, k));
        if IsStopped(run) then Save(SetWorker(w, k, Idle), run, w.pc)
        else Save(SetWorker(w, k, PostingTask), run, w.pc).(posts := w.posts + 1)
    case PostingTask =>
      if !a.ok then Save(SetWorker(w, k, Idle), SetStage(w.mem, k, StageFailed, a.stored), w.pc)
      else if IsBlocked(w.mem) then Save(SetWorker(w, k, Idle), SetStage(w.mem, k, w.mem.stages[k].status, true), w.pc)
      else Save(SetWorker(w, k, WaitingForTask), SetStage(w.mem, k, StageRunning, true), w.pc)
  }

  /** `collectStage` once the task has ended. */
  function Collected(p: Plan, w: World, k: nat, a: Answer): (r: World)
    requires IsWorld(p, w) && k < p.teams
    ensures IsWorld(p, r)
  {
    var r := a.result;
    if r.status == TaskTimedOut && !a.ok then (if w.pc == Ended then w else Fail(p, w))
    else if r.blocker.Some? && r.isRetryable then Save(w, SetStatus(w.mem, k, StageFailed), w.pc)
    else if r.blocker.Some? then Save(w, BlockRun(p.mode, w.mem, k, r.blocker.value), w.pc)
    else if r.status == TaskCompleted && !r.isAcceptable then Save(w, SetStatus(w.mem, k, StageFailed), w.pc)
    else if r.status == TaskCompleted then Save(w, SetStatus(w.mem, k, StageCompleted), w.pc).(judged := w.judged + {k})
    else Save(w, SetStatus(w.mem, k, StageStatusOf(r.status)), w.pc)
  }

  // ---------------------------------------------------------------- all steps

  /** Has the driver anything to do? In the two joins it waits until every worker is idle. */
  predicate CanDrive(w: World) {
    match w.pc
    case Down => false
    case Ended => false
    case Collecting => AllIdle(w.workers)
    case Retrying => AllIdle(w.workers)
    case _ => true
  }

  /** Recovery after a restart. */
  function RecoverStep(p: Plan, w: World, a: Answer): (r: World)
    requires IsWorld(p, w)
    ensures IsWorld(p, r) && r.posts == w.posts
    ensures w.mem.blockers <= r.mem.blockers
    ensures w.judged <= r.judged && w.slipped <= r.slipped
    ensures r.workers == w.workers && (p.mode == Pipeline && !IsParallel(w.pc) ==> !IsParallel(r.pc))
  {
    match w.pc
    case Booting => Boot(p, w)
    case Reconciling(i) => Reconcile(p, w, i, a)
    case _ => w
  }

  predicate IsRecover(pc: Pc) {
    pc.Booting? || pc.Reconciling?
  }

  /** Preparation, up to the loop. */
  function PrepareStep(p: Plan, w: World, a: Answer): (r: World)
    requires IsWorld(p, w)
    ensures IsWorld(p, r) && r.posts == w.posts
    ensures w.mem.blockers <= r.mem.blockers
    ensures w.judged <= r.judged && w.slipped <= r.slipped
    ensures r.workers == w.workers && (p.mode == Pipeline && !IsParallel(w.pc) ==> !IsParallel(r.pc))
  {
    match w.pc
    case Discussing(isResume) => Discussed(p, w, isResume)
    case Splitting => Split(p, w)
    case Selecting => Select(p, w, a)
    case _ => w
  }

  predicate IsPrepare(pc: Pc) {
    pc.Discussing? || pc.Splitting? || pc.Selecting?
  }

  /** The loop around the passes. */
  function LoopStep(p: Plan, w: World, a: Answer): (r: World)
    requires IsWorld(p, w)
    ensures IsWorld(p, r) && r.posts == w.posts
    ensures w.mem.blockers <= r.mem.blockers
    ensures w.judged <= r.judged && w.slipped <= r.slipped
    ensures r.workers == w.workers && (p.mode == Pipeline && !IsParallel(w.pc) ==> !IsParallel(r.pc))
  {
    match w.pc
    case LoopTop => BeginPass(p, w, a)
    case PassEnd => EndPass(p, w)
    case Reviewing => Reviewed(p, w, a)
    case BackingOff => NextPass(w)
    case _ => w
  }

  predicate IsLoop(pc: Pc) {
    pc.LoopTop? || pc.PassEnd? || pc.Reviewing? || pc.BackingOff?
  }

  /** `executePipelineOnce` and `runStageWithFailover`, up to the posted task. */
  function DispatchStep(p: Plan, w: World, a: Answer): (r: World)
    requires IsWorld(p, w)
    ensures IsWorld(p, r)
    ensures r.posts == w.posts || (r.posts == w.posts + 1 && w.pc.Attempting? && !IsStopped(w.mem))
    ensures w.mem.blockers <= r.mem.blockers
    ensures w.judged <= r.judged && w.slipped <= r.slipped
    ensures r.workers == w.workers && (p.mode == Pipeline && !IsParallel(w.pc) ==> !IsParallel(r.pc))
  {
    match w.pc
    case StageHead(s) => AtHead(p, w, s)
    case Choosing(s) => Chosen(p, w, s, a)
    case Attempting(s, i, count) => Attempt(p, w, s, i, count, a)
    case Posting(s, i, count) => Posted(p, w, s, i, count, a)
    case _ => w
  }

  predicate IsDispatch(pc: Pc) {
    pc.StageHead? || pc.Choosing? || pc.Attempting? || pc.Posting?
  }

  /** The same functions from the end of the task on. */
  function OutcomeStep(p: Plan, w: World, a: Answer): (next: World)
    requires IsWorld(p, w)
    ensures IsWorld(p, next) && next.posts == w.posts
    ensures w.mem.blockers <= next.mem.blockers
    ensures w.judged <= next.judged && w.slipped <= next.slipped
    ensures next.workers == w.workers && (p.mode == Pipeline && !IsParallel(w.pc) ==> !IsParallel(next.pc))
  {
    match w.pc
    case AwaitingTask(s, i, count) => TaskEnded(p, w, s, i, count, a)
    case Judging(s, i, count, r) => Judge(p, w, s, i, count, r)
    case _ => w
  }

  predicate IsOutcome(pc: Pc) {
    pc.AwaitingTask? || pc.Judging?
  }

  /** The driver works on one stage of a pipeline. */
  predicate AtStage(pc: Pc) {
    pc.Choosing? || pc.Attempting? || pc.Posting? || pc.AwaitingTask? || pc.Judging?
  }

  /** The driver is at a step of a parallel pass. */
  predicate IsParallel(pc: Pc) {
    pc.Fanning? || pc.FanChoosing? || pc.FanPosting? || pc.Collecting? || pc.Retrying?
  }

  /** `executeParallelOnce` */
  function ParallelStep(p: Plan, w: World, a: Answer): (r: World)
    requires IsWorld(p, w)
    ensures IsWorld(p, r)
    ensures r.posts == w.posts || (r.posts == w.posts + 1 && w.pc.FanChoosing? && !IsStopped(w.mem))
    ensures w.mem.blockers <= r.mem.blockers
    ensures w.judged <= r.judged && w.slipped <= r.slipped
  {
    match w.pc
    case Fanning(s, todo) => Fan(p, w, s, todo)
    case FanChoosing(s, todo) => FanChosen(p, w, s, todo)
    case FanPosting(s, todo) => FanPosted(p, w, s, todo, a)
    case Collecting => BeginRetries(p, w)
    case Retrying => Go(w, PassEnd)
    case _ => w
  }

  function DriveStep(p: Plan, w: World, a: Answer): (r: World)
    requires IsWorld(p, w)
    ensures IsWorld(p, r)
    ensures w.mem.blockers <= r.mem.blockers
    ensures w.judged <= r.judged && w.slipped <= r.slipped
  {
    if IsRecover(w.pc) then RecoverStep(p, w, a)
    else if IsPrepare(w.pc) then PrepareStep(p, w, a)
    else if IsLoop(w.pc) then LoopStep(p, w, a)
    else if IsDispatch(w.pc) then DispatchStep(p, w, a)
    else if IsOutcome(w.pc) then OutcomeStep(p, w, a)
    else ParallelStep(p, w, a)
  }

  /** A pass has begun and has not been closed. */
  predicate InPass(pc: Pc) {
    IsDispatch(pc) || IsOutcome(pc) || IsParallel(pc) || pc.PassEnd?
  }

  /** Between the recovery and the end of a driver life. */
  predicate IsLife(pc: Pc) {
    IsPrepare(pc) || IsLoop(pc) || InPass(pc)
  }

  predicate IsUp(w: World) {
    w.pc != Down
  }

  predicate IsEnabled(w: World, e: Event) {
    match e
    case Drive(a) => CanDrive(w)
    case Work(k, a) => IsUp(w) && k < |w.workers| && w.workers[k] != Idle
    case Cancel => IsUp(w)
    case Crash => IsUp(w)
    case Restart(valid) => w.pc == Down && !IsFinal(w.disk.status)
    case Throw => w.pc != Down && w.pc != Ended
  }

  function Step(p: Plan, w: World, e: Event): (r: World)
    requires IsWorld(p, w) && IsEnabled(w, e)
    ensures IsWorld(p, r)
  {
    match e
    case Drive(a) => DriveStep(p, w, a)
    case Work(k, a) => WorkerStep(p, w, k, a)
    case Cancel => (if IsFinal(w.mem.status) then w else Save(w, CancelRun(w.mem), w.pc))
    case Crash =>
      w.(mem := w.disk, pc := Down, workers := NoWorkers(p.teams), metBlocker := false,
         slipped := w.slipped + (CompletedSet(w.disk.stages) - w.judged))
    case Restart(valid) =>
      if valid then w.(mem := w.disk, pc := Booting, metBlocker := false)
      else Save(w, w.disk.(status := Failed), Ended)
    case Throw => Fail(p, w)
  }

  /** A freshly started run, persisted, with its driver about to hold the planning discussion. */
  function Start(p: Plan): World {
    var run := Run(NotStarted, seq(p.teams, _ => Stage(StagePending, false, 0)), {}, false, 0, 0, None);
    World(run, run, Discussing(false), 0, NoWorkers(p.teams), 0, 0, {}, {}, false)
  }

  /**
   * The steps of a cancel request, of a reported blocker and of a settled driver change the record as the methods of
   * `RunRecord` do, and persist it.
   */
  lemma StepsRewriteTheRecord(p: Plan, w: World, a: Answer)
    requires IsWorld(p, w)
    ensures IsUp(w) ==> Step(p, w, Cancel).mem == CancelRun(w.mem)
    ensures IsUp(w) && !IsFinal(w.mem.status) ==> Step(p, w, Cancel).disk == CancelRun(w.mem)
    ensures w.pc.AwaitingTask? && a.result.blocker.Some? && !a.result.isRetryable
            && (a.result.status == TaskTimedOut ==> a.ok) ==>
              var r := Step(p, w, Drive(a)); r.mem == r.disk == BlockRun(p.mode, w.mem, w.pc.s, a.result.blocker.value)
    ensures w.pc.Booting? && IsBlocked(w.mem) ==> var r := Step(p, w, Drive(a)); r.mem == r.disk == FinalizeRun(w.mem)
    ensures w.pc.Reviewing? && !a.ok && w.it >= p.maxIterations ==>
              var r := Step(p, w, Drive(a)); r.mem == r.disk == FinalizeRun(w.mem)
  {
    hide BlockRun, FinalizeRun, IsBlocked, CancelledStages;
  }

  /** So does the head of a later pass. */
  lemma LaterPassRefinesTheRecord(p: Plan, w: World, a: Answer)
    requires IsWorld(p, w) && w.pc.LoopTop? && 1 < w.it <= p.maxIterations && !IsStopped(w.mem)
    ensures var r := Step(p, w, Drive(a));
            && r.mem.stages == r.disk.stages == RefinedStages(w.mem.stages, a.unavailable)
            && (r.pc == Ended <==>
                  exists i :: 0 <= i < p.teams && w.mem.stages[i].status != StageCompleted && i in a.unavailable)
  {
    hide RefinedStages, IsStopped, AllCompleted, Unfinished;
  }

  predicate IsRun(p: Plan, w: World, es: seq<Event>)
    requires IsWorld(p, w)
    decreases |es|
  {
    es != [] ==>
      IsEnabled(w, es[0]) && IsRun(p, Step(p, w, es[0]), es[1..])
  }

  function After(p: Plan, w: World, es: seq<Event>): (r: World)
    requires IsWorld(p, w) && IsRun(p, w, es)
    ensures IsWorld(p, r)
    decreases |es|
  {
    if es == [] then w else After(p, Step(p, w, es[0]), es[1..])
  }
}
