/** What a step does to the record of a run, in the fields that callers see; and what a final status says. */
module CompanyOutcomes {
  import opened Text
  import opened CompanyRecord
  import opened CompanyDriver

  // ---------------------------------------------------------------- requests and failures

  /** Nothing of the run has changed but perhaps the stage with its status and task. */
  predicate OnlyStage(after: Run, before: Run, s: nat, status: StageStatus, task: bool) {
    s < |before.stages|
    && after == before.(stages := before.stages[s := Stage(status, task, before.stages[s].retries)])
  }

  /** A driver that gives up: a cancelled run stays as it is, any other is persisted as failed. */
  predicate HasFailed(after: World, before: World) {
    && after.pc == Ended && after.workers == before.workers && after.posts == before.posts
    && if before.mem.status == Cancelled then after.mem == before.mem && after.disk == before.disk
       else after.mem == after.disk == before.mem.(status := Failed)
  }

  /** A driver that is done: the record is persisted with its final status, and nothing else in it changes. */
  predicate HasFinished(after: World, run: Run) {
    && after.pc == Ended && after.mem == after.disk == run.(status := after.mem.status)
    && after.mem.status == FinalizeRun(run).status
  }

  lemma RequestOutcome(p: Plan, w: World, e: Event)
    requires IsWorld(p, w) && IsEnabled(w, e)
    ensures var r := Step(p, w, e);
            && (e == Cancel ==>
                  && r.pc == w.pc && r.workers == w.workers
                  && if w.mem.status in {Completed, Failed, Partial, Cancelled, Planned} then
                       r.mem == w.mem && r.disk == w.disk
                     else
                       && r.mem == r.disk == w.mem.(status := Cancelled, stages := r.mem.stages)
                       && |r.mem.stages| == |w.mem.stages|
                       && forall i :: 0 <= i < |w.mem.stages| ==>
                            var stage := w.mem.stages[i];
                            r.mem.stages[i] == if stage.status == StagePending || stage.status == StageRunning
                                               then stage.(status := StageCancelled) else stage)
            && (e == Throw ==> HasFailed(r, w))
            && (e == Crash ==>
                  && r.mem == r.disk == w.disk && r.pc == Down && !r.metBlocker
                  && forall k :: 0 <= k < p.teams ==> r.workers[k] == Idle)
            && (e == Restart(true) ==> r.mem == r.disk == w.disk && r.pc == Booting)
            && (e == Restart(false) ==> r.mem == r.disk == w.disk.(status := Failed) && r.pc == Ended)
  {
  }

  // ---------------------------------------------------------------- recovery

  function StatusFor(t: TaskStatus): StageStatus {
    if t.TaskCompleted? then StageCompleted else if t.TaskFailed? then StageFailed
    else if t.TaskTimedOut? then StageTimedOut else StageCancelled
  }

  /** Stage `s` reported a blocker: its fingerprint is recorded; in a pipeline what follows it is not done any more. */
  predicate HasBlocked(p: Plan, after: Run, before: Run, s: nat, fingerprint: string) {
    && s < |before.stages| == |after.stages|
    && after == before.(blockers := before.blockers + {fingerprint}, stages := after.stages,
                        status := if p.mode == Pipeline then Partial else before.status)
    && after.stages[s] == before.stages[s].(status := StageBlocked)
    && forall i :: 0 <= i < |before.stages| && i != s ==>
         after.stages[i] == if p.mode == Pipeline && i > s && before.stages[i].status != StageCompleted
                            then before.stages[i].(status := StageSkipped) else before.stages[i]
  }

  lemma RecoveryOutcome(p: Plan, w: World, a: Answer)
    requires IsWorld(p, w) && IsRecover(w.pc)
    ensures var r := Step(p, w, Drive(a));
            var n := |w.mem.stages|;
            && (w.pc == Booting && IsBlocked(w.mem) ==> HasFinished(r, w.mem))
            && (w.pc == Booting && !IsBlocked(w.mem) ==> r == w.(pc := Reconciling(0)))
            && (w.pc.Reconciling? && w.pc.i < n ==>
                  var stage := w.mem.stages[w.pc.i];
                  var isWaitedFor := stage.task && (stage.status == StagePending || stage.status == StageRunning);
                  if !isWaitedFor then r == w.(pc := Reconciling(w.pc.i + 1))
                  else if a.result.status == TaskTimedOut && !a.ok then HasFailed(r, w)
                  else if a.result.blocker.Some? then
                    && HasBlocked(p, r.mem, w.mem, w.pc.i, a.result.blocker.value)
                    && r.disk == r.mem && r.pc == Reconciling(n) && r.metBlocker
                  else
                    && OnlyStage(r.mem, w.mem, w.pc.i, StatusFor(a.result.status), true)
                    && r.disk == r.mem && r.pc == Reconciling(w.pc.i + 1))
            && (w.pc.Reconciling? && w.pc.i >= n ==>
                  var run := w.mem.(resumeCount := w.mem.resumeCount + 1);
                  if AllCompleted(run.stages) || (run.resumeCount <= 3 && run.completedIterations < p.maxIterations)
                  then r.mem == r.disk == run && r.pc == Discussing(true)
                  else HasFinished(r, run))
  {
    hide IsBlocked, AllCompleted, FinalizeRun;
  }

  // ---------------------------------------------------------------- preparation and the loop

  predicate AreFailed(after: seq<Stage>, before: seq<Stage>, unavailable: set<nat>) {
    |after| == |before|
    && forall i :: 0 <= i < |after| ==>
         after[i] == if i in unavailable then before[i].(status := StageFailed) else before[i]
  }

  lemma PreparationOutcome(p: Plan, w: World, a: Answer)
    requires IsWorld(p, w) && IsPrepare(w.pc)
    ensures var r := Step(p, w, Drive(a));
            match w.pc
            case Discussing(isResume) =>
              if isResume && w.mem.decomposed then r == w.(pc := Selecting)
              else r.mem == r.disk == w.mem.(status := Decomposing) && r.pc == Splitting
            case Splitting => r.mem == r.disk == w.mem.(decomposed := true) && r.pc == Selecting
            case _ =>
              if exists i: nat :: i < p.teams && i in a.unavailable then
                && r.pc == Ended && r.mem == r.disk && AreFailed(r.mem.stages, w.mem.stages, a.unavailable)
                && r.mem == w.mem.(stages := r.mem.stages,
                                   status := if w.mem.status == Cancelled then Cancelled else Failed)
              else if p.dryRun then r.mem == r.disk == w.mem.(status := Planned) && r.pc == Ended
              else
                && r.mem == r.disk == w.mem && r.pc == LoopTop
                && r.it == if w.mem.completedIterations + 1 < p.maxIterations then w.mem.completedIterations + 1
                           else p.maxIterations
  {
    var failed := FailedStages(w.mem.stages, a.unavailable);
    assert !AnyUnavailable(w.mem.stages, a.unavailable) ==> failed == w.mem.stages;
  }

  lemma PassBegins(p: Plan, w: World, a: Answer)
    requires IsWorld(p, w) && w.pc == LoopTop
    ensures var r := Step(p, w, Drive(a));
            if w.it > p.maxIterations then
              if w.mem.status == Cancelled then r == w.(pc := Ended) else HasFinished(r, w.mem)
            else if w.mem.status == Cancelled || IsBlocked(w.mem) then r == w.(pc := Ended)
            else if w.it > 1 && exists i :: 0 <= i < |w.mem.stages| && w.mem.stages[i].status != StageCompleted
                                            && i in a.unavailable
            then r.pc == Ended && r.mem == r.disk && r.mem.status == Failed
            else
              && r.mem == r.disk && |r.mem.stages| == |w.mem.stages|
              && r.mem == w.mem.(stages := r.mem.stages, status := if p.mode == Pipeline then Running else Dispatching)
              && (forall i :: 0 <= i < |w.mem.stages| ==>
                    r.mem.stages[i] == if w.it == 0 || w.it == 1 || w.mem.stages[i].status == StageCompleted
                                       then w.mem.stages[i]
                                       else Stage(StagePending, false, w.mem.stages[i].retries))
              && if p.mode == Pipeline then r.pc == StageHead(0)
                 else r.pc == Fanning(0, set i: nat | i < |r.mem.stages| && r.mem.stages[i].status != StageCompleted)
  {
    hide FinalizeRun, AllCompleted;
    hide IsBlocked;
  }

  lemma PassEnds(p: Plan, w: World, a: Answer)
    requires IsWorld(p, w) && w.pc == PassEnd
    ensures var r := Step(p, w, Drive(a));
            var run := w.mem.(completedIterations := w.it);
            var isSettled := forall i :: 0 <= i < |run.stages| ==>
                               run.stages[i].status == StageCompleted
                               || (run.decision == Some(Reject) && run.stages[i].status == StageSkipped);
            if w.mem.status == Cancelled then r == w.(pc := Ended)
            else if IsBlocked(w.mem) then HasFinished(r, run)
            else if isSettled then r.mem == r.disk == run && r.pc == Reviewing && r.it == w.it
            else if w.it < p.maxIterations then
              r.mem == r.disk == run.(status := Running) && r.pc == BackingOff && r.it == w.it
            else r.mem == r.disk == run && r.pc == LoopTop && r.it == w.it + 1
  {
    hide FinalizeRun;
    assert IsBlocked(w.mem.(completedIterations := w.it)) <==> IsBlocked(w.mem);
    hide IsBlocked;
  }

  lemma ReviewOutcome(p: Plan, w: World, a: Answer)
    requires IsWorld(p, w) && (w.pc == Reviewing || w.pc == BackingOff)
    ensures var r := Step(p, w, Drive(a));
            if w.pc == Reviewing && a.ok then r.mem == r.disk == w.mem.(status := Completed) && r.pc == Ended
            else if w.pc == Reviewing && w.it >= p.maxIterations then HasFinished(r, w.mem)
            else r == w.(pc := LoopTop, it := w.it + 1)
  {
    hide FinalizeRun;
  }

  // ---------------------------------------------------------------- a pipeline stage

  lemma DispatchOutcome(p: Plan, w: World, a: Answer)
    requires IsWorld(p, w) && IsDispatch(w.pc)
    ensures var r := Step(p, w, Drive(a));
            var isStopped := w.mem.status == Cancelled || IsBlocked(w.mem);
            match w.pc
            case StageHead(s) =>
              r == w.(pc := if s == |w.mem.stages| || isStopped then PassEnd
                            else if w.mem.stages[s].status == StageCompleted then StageHead(s + 1) else Choosing(s))
            case Choosing(s) =>
              if a.chain == 0 && !a.ok then
                OnlyStage(r.mem, w.mem, s, StageFailed, w.mem.stages[s].task) && r.disk == r.mem && r.pc == PassEnd
              else
                r == w.(pc := Attempting(s, 0, if a.chain == 0 then 1 else if a.chain >= 3 then 3 else a.chain))
            case Attempting(s, i, count) =>
              if i == count then
                && r.pc == PassEnd && r.disk == w.disk && r.posts == w.posts
                && if w.mem.status == Cancelled then r.mem == w.mem
                   else OnlyStage(r.mem, w.mem, s, StageFailed, w.mem.stages[s].task)
              else if isStopped then r == w.(pc := PassEnd)
              else if i > 0 && !a.ok then r == w.(pc := Attempting(s, i + 1, count))
              else
                && OnlyStage(r.mem, w.mem, s, w.mem.stages[s].status, false)
                && r.disk == w.disk && r.pc == Posting(s, i, count) && r.posts == w.posts + 1
            case Posting(s, i, count) =>
              && r.mem == r.disk
              && if a.ok then OnlyStage(r.mem, w.mem, s, StageRunning, true) && r.pc == AwaitingTask(s, i, count)
                 else
                   && OnlyStage(r.mem, w.mem, s, StageFailed, a.stored)
                   && r.pc == if w.mem.status == Cancelled then PassEnd else Attempting(s, i + 1, count)
            case _ => true
  {
    hide IsBlocked;
  }

  lemma TaskOutcome(p: Plan, w: World, a: Answer)
    requires IsWorld(p, w) && w.pc.AwaitingTask?
    ensures var r := Step(p, w, Drive(a));
            var s, result, task := w.pc.s, a.result, w.mem.stages[w.pc.s].task;
            if result.status == TaskTimedOut && !a.ok then HasFailed(r, w)
            else
              && r.mem == r.disk
              && if result.blocker.Some? && result.isRetryable then
                   OnlyStage(r.mem, w.mem, s, StageFailed, task) && r.pc == Attempting(s, w.pc.i + 1, w.pc.count)
                 else if result.blocker.Some? then
                   HasBlocked(p, r.mem, w.mem, s, result.blocker.value) && r.pc == PassEnd
                 else if result.status == TaskCancelled || w.mem.status == Cancelled then
                   OnlyStage(r.mem, w.mem, s, StageCancelled, task) && r.pc == PassEnd
                 else
                   && OnlyStage(r.mem, w.mem, s, StatusFor(result.status), task)
                   && r.pc == Judging(s, w.pc.i, w.pc.count, result)
  {
  }

  lemma JudgingOutcome(p: Plan, w: World, a: Answer)
    requires IsWorld(p, w) && w.pc.Judging?
    ensures var r := Step(p, w, Drive(a));
            var s, result := w.pc.s, w.pc.r;
            if result.status != TaskCompleted || !result.isAcceptable then
              r == w.(pc := Attempting(s, w.pc.i + 1, w.pc.count))
            else if p.gate != Some(s) then
              r == w.(pc := StageHead(s + 1), judged := w.judged + {s})
            else
              && r.mem.decision == Some(result.decision)
              && match result.decision
                 case Approve => r.mem == w.mem.(decision := Some(Approve)) && r.disk == w.disk && r.pc == StageHead(s + 1)
                 case Undetermined =>
                   && OnlyStage(r.mem, w.mem.(decision := Some(Undetermined)), s, StageFailed, w.mem.stages[s].task)
                   && r.disk == r.mem && r.pc == PassEnd
                 case Reject =>
                   && r.disk == r.mem == w.mem.(decision := Some(Reject), stages := r.mem.stages) && r.pc == PassEnd
                   && |r.mem.stages| == |w.mem.stages|
                   && forall i :: 0 <= i < |w.mem.stages| ==>
                        r.mem.stages[i] == if i > s then w.mem.stages[i].(status := StageSkipped) else w.mem.stages[i]
  {
  }

  // ---------------------------------------------------------------- a parallel pass

  lemma FanOutcome(p: Plan, w: World, a: Answer)
    requires IsWorld(p, w) && (w.pc.Fanning? || w.pc.FanChoosing? || w.pc.FanPosting?)
    ensures var r := Step(p, w, Drive(a));
            var isStopped := w.mem.status == Cancelled || IsBlocked(w.mem);
            match w.pc
            case Fanning(s, todo) =>
              if s < |w.mem.stages| then
                r == w.(pc := if s !in todo then Fanning(s + 1, todo)
                              else if isStopped then PassEnd else FanChoosing(s, todo))
              else if w.mem.status == Cancelled then r == w.(pc := PassEnd)
              else
                && r.mem == r.disk == w.mem.(status := Running, stages := r.mem.stages) && r.pc == Collecting
                && |r.mem.stages| == |w.mem.stages|
                && if isStopped then r.mem.stages == w.mem.stages && r.workers == w.workers
                   else forall k :: 0 <= k < |w.mem.stages| ==>
                          if k in todo && w.mem.stages[k].task then
                            r.mem.stages[k] == w.mem.stages[k].(status := StageRunning) && r.workers[k] == WaitingForTask
                          else r.mem.stages[k] == w.mem.stages[k] && r.workers[k] == Idle
            case FanChoosing(s, todo) =>
              if isStopped then r == w.(pc := Fanning(s + 1, todo))
              else r == w.(pc := FanPosting(s, todo), posts := w.posts + 1)
            case FanPosting(s, todo) =>
              && r.mem == r.disk && r.pc == Fanning(s + 1, todo)
              && if a.ok then OnlyStage(r.mem, w.mem, s, w.mem.stages[s].status, true)
                 else OnlyStage(r.mem, w.mem, s, StageFailed, w.mem.stages[s].task || a.stored)
            case _ => true
  {
    hide IsBlocked;
  }

  lemma JoinOutcome(p: Plan, w: World, a: Answer)
    requires IsWorld(p, w) && CanDrive(w) && (w.pc == Collecting || w.pc == Retrying)
    ensures var r := Step(p, w, Drive(a));
            if w.pc == Retrying || w.mem.status == Cancelled || IsBlocked(w.mem) then r == w.(pc := PassEnd)
            else
              && r == w.(pc := Retrying, workers := r.workers)
              && forall k :: 0 <= k < p.teams ==>
                   var stage := w.mem.stages[k];
                   r.workers[k] == if stage.status != StageCompleted && stage.status != StageCancelled && stage.retries == 0
                                   then ChoosingProvider else Idle
  {
    hide IsBlocked;
  }

  /** The one retry of stage `k` has begun. */
  predicate OnlyRetried(after: Run, before: Run, k: nat) {
    k < |before.stages|
    && after == before.(stages := before.stages[k := Stage(StagePending, false, before.stages[k].retries + 1)])
  }

  lemma RetryOutcome(p: Plan, w: World, k: nat, a: Answer)
    requires IsWorld(p, w) && k < p.teams && (w.workers[k] == ChoosingProvider || w.workers[k] == PostingTask)
    ensures var r := WorkerStep(p, w, k, a);
            var next := r.workers[k];
            && r.pc == w.pc && r.workers == w.workers[k := next]
            && if w.workers[k] == ChoosingProvider && !a.ok then
                 next == Idle && r.mem == w.mem && r.disk == w.disk && r.posts == w.posts
               else
                 && r.mem == r.disk
                 && if w.workers[k] == ChoosingProvider then
                      && OnlyRetried(r.mem, w.mem, k)
                      && (next == PostingTask <==> r.posts == w.posts + 1) && (next == Idle <==> r.posts == w.posts)
                      && (next == PostingTask <==> r.mem.status != Cancelled && !IsBlocked(r.mem))
                    else if !a.ok then next == Idle && OnlyStage(r.mem, w.mem, k, StageFailed, a.stored)
                    else if IsBlocked(w.mem) then next == Idle && OnlyStage(r.mem, w.mem, k, w.mem.stages[k].status, true)
                    else next == WaitingForTask && OnlyStage(r.mem, w.mem, k, StageRunning, true)
  {
    hide IsBlocked;
  }

  lemma CollectionOutcome(p: Plan, w: World, k: nat, a: Answer)
    requires IsWorld(p, w) && k < p.teams && w.workers[k] == WaitingForTask
    ensures var r := WorkerStep(p, w, k, a);
            var result, task := a.result, w.mem.stages[k].task;
            && r.workers == w.workers[k := Idle] && r.posts == w.posts
            && if result.status == TaskTimedOut && !a.ok then
                 && r.pc == Ended
                 && (w.pc == Ended || w.mem.status == Cancelled ==> r.mem == w.mem && r.disk == w.disk)
                 && (w.pc != Ended && w.mem.status != Cancelled ==> r.mem == r.disk == w.mem.(status := Failed))
               else
                 && r.pc == w.pc && r.mem == r.disk
                 && if result.blocker.Some? && !result.isRetryable then
                      HasBlocked(p, r.mem, w.mem, k, result.blocker.value)
                    else
                      OnlyStage(r.mem, w.mem, k,
                                if result.blocker.Some? || (result.status == TaskCompleted && !result.isAcceptable)
                                then StageFailed else StatusFor(result.status), task)
  {
  }
}
