/** The record of one company run and the operations that rewrite it in one go. */
module CompanyRecord {
  import opened Text

  datatype Mode = Pipeline | Parallel

  datatype RunStatus =
    NotStarted | Decomposing | Planned | Dispatching | Running | Completed | Failed | Partial | Cancelled

  datatype StageStatus =
    | StagePending | StageRunning | StageCompleted | StageFailed | StageTimedOut
    | StageCancelled | StageSkipped | StageBlocked

  datatype Decision = Approve | Reject | Undetermined

  /** `task` says whether a task id is stored; `retries` counts the parallel retries ever made. */
  datatype Stage = Stage(status: StageStatus, task: bool, retries: nat)

  /** What is persisted, as far as control flow depends on it; `decomposed` says that every stage has its subtask. */
  datatype Run = Run(
    status: RunStatus, stages: seq<Stage>, blockers: set<string>, decomposed: bool,
    completedIterations: nat, resumeCount: nat, decision: Option<Decision>)

  /** `TERMINAL_RUN_FOR_CANCEL`, which are the statuses that a restart leaves alone. */
  predicate IsFinal(s: RunStatus) {
    s == Completed || s == Failed || s == Partial || s == Cancelled || s == Planned
  }

  predicate IsCancelled(run: Run) {
    run.status == Cancelled
  }

  predicate IsBlocked(run: Run) {
    run.blockers != {} || exists i :: 0 <= i < |run.stages| && run.stages[i].status == StageBlocked
  }

  predicate IsStopped(run: Run) {
    IsCancelled(run) || IsBlocked(run)
  }

  predicate AllCompleted(stages: seq<Stage>) {
    forall i :: 0 <= i < |stages| ==> stages[i].status == StageCompleted
  }

  // ---------------------------------------------------------------- cancelling

  predicate IsActive(s: Stage) {
    s.status == StagePending || s.status == StageRunning
  }

  function CancelledStages(stages: seq<Stage>): (r: seq<Stage>)
    ensures |r| == |stages|
    ensures forall i :: 0 <= i < |r| ==>
      r[i] == if IsActive(stages[i]) then stages[i].(status := StageCancelled) else stages[i]
  {
    seq(|stages|, i requires 0 <= i < |stages| =>
      if IsActive(stages[i]) then stages[i].(status := StageCancelled) else stages[i])
  }

  /** `cancelCompanyRun`, up to the persisted record. */
  function CancelRun(run: Run): Run {
    if IsFinal(run.status) then run else run.(status := Cancelled, stages := CancelledStages(run.stages))
  }

  // ---------------------------------------------------------------- blocking

  /** Stages after `k`; those that are done stay done. */
  function SkippedAfter(stages: seq<Stage>, k: int, keepCompleted: bool): (r: seq<Stage>)
    ensures |r| == |stages|
    ensures forall i :: 0 <= i < |r| ==>
      r[i] == if i > k && !(keepCompleted && stages[i].status == StageCompleted)
              then stages[i].(status := StageSkipped) else stages[i]
  {
    seq(|stages|, i requires 0 <= i < |stages| =>
      if i > k && !(keepCompleted && stages[i].status == StageCompleted) then stages[i].(status := StageSkipped)
      else stages[i])
  }

  function WithStatus(stages: seq<Stage>, s: nat, status: StageStatus): (r: seq<Stage>)
    requires s < |stages|
    ensures |r| == |stages|
  {
    stages[s := stages[s].(status := status)]
  }

  function WithStage(stages: seq<Stage>, s: nat, status: StageStatus, task: bool): (r: seq<Stage>)
    requires s < |stages|
    ensures |r| == |stages|
  {
    stages[s := stages[s].(status := status, task := task)]
  }

  function BlockedStages(mode: Mode, stages: seq<Stage>, k: nat): (r: seq<Stage>)
    requires k < |stages|
    ensures |r| == |stages|
  {
    var marked := WithStatus(stages, k, StageBlocked);
    if mode == Pipeline then SkippedAfter(marked, k, true) else marked
  }

  /** `applyBlockedStageOutcome`, for an outcome that was recognised. */
  function BlockRun(mode: Mode, run: Run, k: nat, fingerprint: string): Run
    requires k < |run.stages|
  {
    run.(blockers := run.blockers + {fingerprint},
         stages := BlockedStages(mode, run.stages, k),
         status := if mode == Pipeline then Partial else run.status)
  }

  // ---------------------------------------------------------------- finalizing

  function Count(stages: seq<Stage>, s: StageStatus): nat {
    if stages == [] then 0 else Count(stages[..|stages| - 1], s) + if stages[|stages| - 1].status == s then 1 else 0
  }

  datatype Summary = Summary(total: nat, succeeded: nat, failed: int, skipped: nat, blocked: nat)

  /** `summarizeRun` without the number of retried stages. */
  function Summarize(stages: seq<Stage>): Summary {
    var succeeded, skipped := Count(stages, StageCompleted), Count(stages, StageSkipped);
    var blocked := Count(stages, StageBlocked);
    Summary(|stages|, succeeded, |stages| - succeeded - skipped - blocked, skipped, blocked)
  }

  /** `finalizeRun` */
  function FinalizeRun(run: Run): (r: Run)
    ensures IsFinal(r.status)
    ensures r.(status := run.status) == run
    ensures run.status == Cancelled ==> r.status == Cancelled
  {
    if IsCancelled(run) then run
    else if IsBlocked(run) then run.(status := Partial)
    else
      var summary := Summarize(run.stages);
      run.(status := if summary.failed == 0 then Completed else if summary.succeeded > 0 then Partial else Failed)
  }

  // ---------------------------------------------------------------- refining

  /** The stages as a later pass starts with them; `unavailable` holds those without an assigned provider. */
  function RefinedStages(stages: seq<Stage>, unavailable: set<nat>): (r: seq<Stage>)
    ensures |r| == |stages|
    ensures forall i :: 0 <= i < |r| ==> r[i] == RefinedStage(stages[i], i in unavailable)
  {
    seq(|stages|, i requires 0 <= i < |stages| => RefinedStage(stages[i], i in unavailable))
  }

  /** The stage as a retry starts with it: without a task, and counted. */
  function RetriedStages(stages: seq<Stage>, k: nat): (r: seq<Stage>)
    requires k < |stages|
    ensures |r| == |stages|
  {
    stages[k := Stage(StagePending, false, stages[k].retries + 1)]
  }

  function RefinedStage(s: Stage, isUnavailable: bool): Stage {
    if s.status == StageCompleted then s
    else if isUnavailable then s.(status := StageFailed)
    else s.(status := StagePending, task := false)
  }

  // ---------------------------------------------------------------- resuming

  datatype ResumeDecision = NothingLeft | Continue | RecoveryExhausted | IterationsExhausted

  const MAX_RUN_RESUMES := 3
  const MAX_STAGE_ATTEMPTS := 3
  const ABSOLUTE_MAX_RUN_ITERATIONS := 10

  /** `decideCompanyRunResume` */
  function DecideResume(incomplete: bool, resumeCount: nat, completedIterations: nat, maxIterations: nat): ResumeDecision {
    if !incomplete then NothingLeft
    else if resumeCount > MAX_RUN_RESUMES then RecoveryExhausted
    else if completedIterations >= maxIterations then IterationsExhausted
    else Continue
  }

  // ---------------------------------------------------------------- properties

  lemma {:induction false} CountBounds(stages: seq<Stage>, s: StageStatus)
    ensures Count(stages, s) <= |stages|
    ensures Count(stages, s) > 0 <==> exists i :: 0 <= i < |stages| && stages[i].status == s
  {
    if stages != [] {
      var front := stages[..|stages| - 1];
      CountBounds(front, s);
      if Count(front, s) > 0 {
        var i :| 0 <= i < |front| && front[i].status == s;
        assert stages[i].status == s;
      } else {
        assert forall i :: 0 <= i < |front| ==> front[i] == stages[i];
      }
    }
  }

  lemma {:induction false} CountsAddUp(stages: seq<Stage>)
    ensures Summarize(stages).failed
            == Count(stages, StagePending) + Count(stages, StageRunning) + Count(stages, StageFailed)
               + Count(stages, StageTimedOut) + Count(stages, StageCancelled)
  {
    if stages != [] {
      CountsAddUp(stages[..|stages| - 1]);
    }
  }

  predicate IsDone(s: Stage) {
    s.status == StageCompleted || s.status == StageSkipped
  }

  /**
   * The final status over the stage statuses: a cancel stays, a blocked run is partial; otherwise the run is completed
   * exactly when every stage is completed or skipped, and of the rest failed exactly when none is completed.
   */
  lemma FinalizeMeaning(run: Run)
    ensures var status := FinalizeRun(run).status;
            && (run.status == Cancelled ==> status == Cancelled)
            && (run.status != Cancelled
                && (run.blockers != {} || exists i :: 0 <= i < |run.stages| && run.stages[i].status == StageBlocked) ==>
                  status == Partial)
            && (!IsStopped(run) ==>
                  var allDone := forall i :: 0 <= i < |run.stages| ==> IsDone(run.stages[i]);
                  var someCompleted := exists i :: 0 <= i < |run.stages| && run.stages[i].status == StageCompleted;
                  && (status == Completed <==> allDone)
                  && (status == Failed <==> !allDone && !someCompleted)
                  && (status == Partial <==> !allDone && someCompleted))
  {
    if !IsStopped(run) {
      DoneAndCompleted(run.stages);
      hide Count;
    }
  }

  /** The two counts that decide: nothing failed, something succeeded. */
  lemma DoneAndCompleted(stages: seq<Stage>)
    requires forall i :: 0 <= i < |stages| ==> stages[i].status != StageBlocked
    ensures Summarize(stages).failed == 0 <==> forall i :: 0 <= i < |stages| ==> IsDone(stages[i])
    ensures Summarize(stages).succeeded > 0 <==> exists i :: 0 <= i < |stages| && stages[i].status == StageCompleted
  {
    CountsAddUp(stages);
    CountBounds(stages, StagePending);
    CountBounds(stages, StageRunning);
    CountBounds(stages, StageFailed);
    CountBounds(stages, StageTimedOut);
    CountBounds(stages, StageCancelled);
    CountBounds(stages, StageCompleted);
    hide Count;
    if forall i :: 0 <= i < |stages| ==> IsDone(stages[i]) {
    } else {
      var i :| 0 <= i < |stages| && !IsDone(stages[i]);
      assert Count(stages, stages[i].status) > 0;
    }
  }

  // ---------------------------------------------------------------- the record as an object

  /** The run object that the driver, the cancel request and the task results rewrite in place. */
  class RunRecord {
    const mode: Mode
    var status: RunStatus
    var stages: seq<Stage>
    var blockers: set<string>
    var decomposed: bool
    var completedIterations: nat
    var resumeCount: nat
    var decision: Option<Decision>

    constructor (mode: Mode, teams: nat)
      ensures this.mode == mode
      ensures Value() == Run(NotStarted, seq(teams, _ => Stage(StagePending, false, 0)), {}, false, 0, 0, None)
    {
      this.mode := mode;
      status, stages := NotStarted, seq(teams, _ => Stage(StagePending, false, 0));
      blockers, decomposed, completedIterations, resumeCount, decision := {}, false, 0, 0, None;
    }

    function Value(): Run
      reads this
    {
      Run(status, stages, blockers, decomposed, completedIterations, resumeCount, decision)
    }

    /** Returns the stages whose tasks are then cancelled over HTTP, or `None` for a finished run. */
    method Cancel() returns (tasks: Option<seq<nat>>)
      modifies this
      ensures Value() == CancelRun(old(Value()))
      ensures tasks.None? <==> old(status) in {Completed, Failed, Partial, Cancelled, Planned}
      ensures tasks.None? ==> unchanged(this)
      ensures tasks.Some? ==>
                && status == Cancelled && |stages| == |old(stages)|
                && forall i :: 0 <= i < |stages| ==>
                     stages[i] == if old(stages)[i].status == StagePending || old(stages)[i].status == StageRunning
                                  then old(stages)[i].(status := StageCancelled) else old(stages)[i]
      ensures tasks.Some? ==>
        forall i: nat :: i in tasks.value <==> i < |old(stages)| && IsActive(old(stages)[i]) && old(stages)[i].task
    {
      if IsFinal(status) {
        return None;
      }
      var before := stages;
      var ids: seq<nat> := [];
      for i := 0 to |stages|
        invariant |stages| == |before|
        invariant unchanged(`status, `blockers, `decomposed, `completedIterations, `resumeCount, `decision)
        invariant stages[..i] == CancelledStages(before)[..i] && stages[i..] == before[i..]
        invariant forall k: nat :: k in ids <==> k < i && IsActive(before[k]) && before[k].task
      {
        assert stages[i] == before[i];
        assert CancelledStages(before)[..i + 1] == CancelledStages(before)[..i] + [CancelledStages(before)[i]];
        if IsActive(stages[i]) {
          if stages[i].task {
            ids := ids + [i];
          }
          stages := stages[i := stages[i].(status := StageCancelled)];
        }
      }
      assert stages[..|stages|] == stages && CancelledStages(before)[..|stages|] == CancelledStages(before);
      status := Cancelled;
      return Some(ids);
    }

    /** The effect of a recognised blocker reported by stage `k`. */
    method ApplyBlocked(k: nat, fingerprint: string)
      requires k < |stages|
      modifies this
      ensures Value() == BlockRun(mode, old(Value()), k, fingerprint)
      ensures blockers == old(blockers) + {fingerprint} && status == if mode == Pipeline then Partial else old(status)
      ensures |stages| == |old(stages)| && stages[k] == old(stages)[k].(status := StageBlocked)
      ensures forall i :: 0 <= i < |stages| && i != k ==>
                stages[i] == if mode == Pipeline && i > k && old(stages)[i].status != StageCompleted
                             then old(stages)[i].(status := StageSkipped) else old(stages)[i]
    {
      if fingerprint !in blockers {
        blockers := blockers + {fingerprint};
      }
      stages := stages[k := stages[k].(status := StageBlocked)];
      if mode == Pipeline {
        var marked := stages;
        for i := k + 1 to |stages|
          invariant |stages| == |marked| && unchanged(`status, `decomposed, `completedIterations, `resumeCount, `decision)
          invariant blockers == old(blockers) + {fingerprint}
          invariant stages[..i] == SkippedAfter(marked, k, true)[..i] && stages[i..] == marked[i..]
        {
          assert stages[i] == marked[i];
          if stages[i].status != StageCompleted {
            stages := stages[i := stages[i].(status := StageSkipped)];
          }
        }
        assert stages[..|stages|] == stages;
        assert SkippedAfter(marked, k, true)[..|stages|] == SkippedAfter(marked, k, true);
        status := Partial;
      }
    }

    method Finalize()
      modifies this`status
      ensures old(status) == Cancelled ==> status == Cancelled
      ensures var isBlocked := blockers != {} || exists i :: 0 <= i < |stages| && stages[i].status == StageBlocked;
              var allDone := forall i :: 0 <= i < |stages| ==> IsDone(stages[i]);
              var someCompleted := exists i :: 0 <= i < |stages| && stages[i].status == StageCompleted;
              old(status) != Cancelled ==>
                && (isBlocked ==> status == Partial)
                && (!isBlocked && allDone ==> status == Completed)
                && (!isBlocked && !allDone && someCompleted ==> status == Partial)
                && (!isBlocked && !allDone && !someCompleted ==> status == Failed)
      ensures Value() == FinalizeRun(old(Value()))
    {
      ghost var run := Value();
      FinalizeMeaning(run);
      if IsCancelled(Value()) {
        return;
      }
      if IsBlocked(Value()) {
        status := Partial;
        assert run.stages == stages && run.blockers == blockers;
        return;
      }
      var succeeded := CountStatus(StageCompleted);
      var skipped := CountStatus(StageSkipped);
      var blocked := CountStatus(StageBlocked);
      var failed := |stages| - succeeded - skipped - blocked;
      status := if failed == 0 then Completed else if succeeded > 0 then Partial else Failed;
    }

    method CountStatus(s: StageStatus) returns (n: nat)
      ensures n == Count(stages, s)
    {
      n := 0;
      for i := 0 to |stages|
        invariant n == Count(stages[..i], s)
      {
        assert stages[..i + 1][..i] == stages[..i];
        if stages[i].status == s {
          n := n + 1;
        }
      }
      assert stages[..|stages|] == stages;
    }

    /** The start of a later pass; true when every unfinished stage has a provider. */
    method Refine(unavailable: set<nat>) returns (available: bool)
      modifies this`stages
      ensures stages == RefinedStages(old(stages), unavailable)
      ensures |stages| == |old(stages)|
      ensures forall i :: 0 <= i < |stages| ==>
                stages[i] == if old(stages)[i].status == StageCompleted then old(stages)[i]
                             else if i in unavailable then old(stages)[i].(status := StageFailed)
                             else old(stages)[i].(status := StagePending, task := false)
      ensures available <==> forall i :: 0 <= i < |stages| && old(stages)[i].status != StageCompleted ==> i !in unavailable
    {
      var before := stages;
      available := true;
      for i := 0 to |stages|
        invariant |stages| == |before|
        invariant stages[..i] == RefinedStages(before, unavailable)[..i] && stages[i..] == before[i..]
        invariant available <==> forall k :: 0 <= k < i && before[k].status != StageCompleted ==> k !in unavailable
      {
        assert stages[i] == before[i];
        ghost var refined := RefinedStages(before, unavailable);
        assert refined[..i + 1] == refined[..i] + [refined[i]];
        if stages[i].status != StageCompleted {
          if i in unavailable {
            stages := stages[i := stages[i].(status := StageFailed)];
            available := false;
          } else {
            stages := stages[i := stages[i].(status := StagePending, task := false)];
          }
        }
      }
      assert stages[..|stages|] == stages;
      assert RefinedStages(before, unavailable)[..|stages|] == RefinedStages(before, unavailable);
    }
  }
}
