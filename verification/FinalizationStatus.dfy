/**
 * Which statuses are a success, an error or silent, said over runs and by status: what a finalization
 * asks of the cloud, what it writes into the record, and what backs its report.
 */
module FinalizationStatus {
  import opened Prelude
  import opened Jobs
  import opened Finalization
  import opened FinalizationRuns

  // ---------------------------------------------------------------------------------------------
  // The status a run resolves
  // ---------------------------------------------------------------------------------------------

  predicate Succeeded(status: Status) {
    status == COMPLETED || status == RUNNING
  }

  predicate Failing(status: Status) {
    status == FAILED || status == STOPPED || status == UNKNOWN
  }

  /** A pending cancellation is carried out, and a job that a boot still finds running has failed. */
  function Found(job: LocalJob, boot: bool): Status {
    if job.status == CANCEL_PENDING then CANCELLED
    else if boot && job.status == RUNNING then FAILED
    else job.status
  }

  /** An EXECUTE job that succeeded without any work has failed. */
  function Checked(found: Status, execute: bool, noWork: bool): Status {
    if Succeeded(found) && execute && noWork then FAILED else found
  }

  /** The finalization does not return at once, nor ask the state file first. */
  predicate GoesAhead(job: LocalJob, boot: bool, alive: bool) {
    && job.hasClaudeWorkDir
    && !(job.status == CANCEL_PENDING && job.pid.Some? && alive)
    && !(boot && job.status == RUNNING && job.hasStatePath)
  }

  ghost predicate ResolvesFrom(job: LocalJob, boot: bool, alive: bool, noWork: bool, status: Status) {
    GoesAhead(job, boot, alive) && status == Checked(Found(job, boot), job.execute, noWork)
  }

  /** In this step run `k` learns that its loop ended with this status. */
  ghost predicate Resolves(s: State, step: Step, k: nat, status: Status) {
    match step
    case Start(reason, alive, noWork, _) =>
      k == s.started && s.record.Some? && ResolvesFrom(s.record.value, reason == BootRecovery, alive, noWork, status)
    case StatusAnswered(l, cloud, alive, noWork, _) =>
      k == l && k in s.runs && cloud != LoopTimedOut
      && ResolvesFrom(s.runs[k].job, s.runs[k].reason == BootRecovery, alive, noWork, status)
    case StateRead(l, read, noWork, _) =>
      k == l && k in s.runs && status == Checked(
        if read.Some? && read.value in {COMPLETED, FAILED, CANCELLED, STOPPED, UNKNOWN, TIMED_OUT} then read.value else FAILED,
        s.runs[k].job.execute, noWork)
    case _ => false
  }

  // ---------------------------------------------------------------------------------------------
  // One step
  // ---------------------------------------------------------------------------------------------

  predicate Resolved(r: Run) {
    !r.stage.AwaitStatus? && !r.stage.AwaitState?
  }

  /** The request the run waits for is one that this status asks for. */
  predicate Fits(r: Run, status: Status) {
    || (Succeeded(status) && (r.stage.AwaitExecute? || r.stage.AwaitUpload? || r.stage.AwaitCompletedPost?))
    || (Failing(status) && (r.stage.AwaitSupport? || r.stage.AwaitErrorPost?))
  }

  /** It does, and the run will go on accordingly. */
  predicate OnCourse(r: Run, status: Status) {
    Fits(r, status) && (r.kind.SuccessKind? <==> Succeeded(status)) && (r.kind.ErrorKind? <==> Failing(status))
  }

  /** The run waits for its first request, or is over because the status asks for none; nothing was sent. */
  ghost predicate Begins(s: State, s': State, k: nat, status: Status) {
    && s'.posts == s.posts
    && (k in s'.runs <==> Succeeded(status) || Failing(status))
    && (k in s'.runs ==>
          && OnCourse(s'.runs[k], status)
          && (Succeeded(status) <==> s'.runs[k].stage.AwaitExecute? || s'.runs[k].stage.AwaitUpload?)
          && (Failing(status) <==> s'.runs[k].stage.AwaitSupport?)
          && (Succeeded(status) ==> (s'.runs[k].stage.AwaitExecute? <==> s'.runs[k].job.execute && !s'.runs[k].job.executeFinalized)))
    && (k !in s'.runs ==> s'.reports == s.reports + [Report(NoEvent, true)])
  }

  lemma FinalizeBegins(s: State, k: nat, r: Run, now: int, status: Status)
    requires r.kind == KindOf(status)
    ensures Begins(s, Finalize(s, k, r, now), k, status)
  {
    hide IsRetryable, FinalSaved, OrNow, Current;
  }

  lemma ResolveBegins(s: State, k: nat, r: Run, noWork: bool, now: int, status: Status)
    requires status == Checked(r.job.status, r.job.execute, noWork)
    ensures Begins(s, Resolve(s, k, r, noWork, now), k, status)
  {
    hide Finalize, KindOf, Begins, FinalSaved;
    var job := WorkChecked(r.job, noWork);
    assert job.status == status;
    var kind := KindOf(status);
    var record := FinalSaved(s.record, job, kind.SuccessKind?, now);
    if r.reason.LiveExit? {
      FinalizeBegins(s, k, r.(job := job, kind := kind), now, status);
    } else {
      FinalizeBegins(s.(record := record), k, r.(job := Current(record, job), kind := kind), now, status);
      SameBegins(s, s.(record := record), Resolve(s, k, r, noWork, now), k, status);
    }
  }

  lemma SameBegins(s: State, s1: State, s': State, k: nat, status: Status)
    requires s1.posts == s.posts && s1.reports == s.reports && Begins(s1, s', k, status)
    ensures Begins(s, s', k, status)
  {
  }

  lemma EnterBegins(s: State, k: nat, r: Run, alive: bool, noWork: bool, now: int, status: Status)
    requires ResolvesFrom(r.job, r.reason.BootRecovery?, alive, noWork, status)
    ensures Begins(s, Enter(s, k, r, alive, noWork, now), k, status)
  {
    hide Resolve, Begins, Return;
    var job := if r.job.status.CANCEL_PENDING? then r.job.(status := CANCELLED) else r.job;
    if r.reason.BootRecovery? && job.status.RUNNING? {
      ResolveBegins(s, k, r.(job := job.(status := FAILED)), noWork, now, status);
    } else {
      ResolveBegins(s, k, r.(job := job), noWork, now, status);
    }
  }

  /** The status alone decides what is asked of the cloud first, and whether anything is. */
  lemma StatusDecides(s: State, step: Step, k: nat, status: Status)
    requires Enabled(s, step) && Resolves(s, step, k, status)
    ensures Begins(s, Apply(s, step), k, status)
  {
    hide Enter, Resolve, Begins, ResolvesFrom, Terminated;
    match step
    case Start(reason, alive, noWork, now) => {
      var s1, r := s.(started := s.started + 1), Run(AwaitState, reason, false, s.record.value, NoEvent, now);
      EnterBegins(s1, k, r, alive, noWork, now, status);
      SameBegins(s, s1, Apply(s, step), k, status);
    }
    case StatusAnswered(_, cloud, alive, noWork, now) => ReplayBegins(s, k, cloud, alive, noWork, now, status);
    case StateRead(_, read, noWork, now) => {
      var r := s.runs[k].(job := Derived(s.runs[k].job, read));
      ResolveBegins(s, k, r, noWork, now, status);
    }
  }

  lemma ReplayBegins(s: State, k: nat, cloud: LoopStatus, alive: bool, noWork: bool, now: int, status: Status)
    requires k in s.runs && cloud != LoopTimedOut
    requires ResolvesFrom(s.runs[k].job, s.runs[k].reason == BootRecovery, alive, noWork, status)
    ensures Begins(s, AfterStatus(s, k, s.runs[k], cloud, alive, noWork, now), k, status)
  {
    hide Enter, Begins, ResolvesFrom, Current;
    var r := s.runs[k];
    var s0 := if cloud.LoopGone? then Terminated(s, r.job, UNKNOWN, now) else s;
    var s1 := s0.(record := Some(r.job.(recoveryAttempts := r.job.recoveryAttempts + 1)), calls := s0.calls + 1);
    EnterBegins(s1, k, r.(at := now), alive, noWork, now, status);
    SameBegins(s, s1, AfterStatus(s, k, r, cloud, alive, noWork, now), k, status);
  }

  // ---------------------------------------------------------------------------------------------
  // From then on
  // ---------------------------------------------------------------------------------------------

  /** The runs other than the one that the step continues or starts. */
  ghost predicate OthersStay(s: State, s': State, own: nat) {
    forall l | l in s'.runs && l != own :: l in s.runs && s'.runs[l] == s.runs[l]
  }

  function Own(s: State, step: Step): nat {
    match step
    case StatusAnswered(k, _, _, _, _) => k
    case StateRead(k, _, _, _) => k
    case ExecuteDone(k, _) => k
    case UploadAnswered(k, _, _) => k
    case SupportAnswered(k) => k
    case PostAnswered(k, _, _) => k
    case Throws(k, _) => k
    case _ => s.started
  }

  lemma ReturnLeavesOthers(s: State, k: nat, r: Run, cloudFinalized: bool, retryable: bool, now: int)
    ensures OthersStay(s, Return(s, k, r, cloudFinalized, retryable, now), k)
  {
  }

  lemma FinalizeLeavesOthers(s: State, k: nat, r: Run, now: int)
    ensures OthersStay(s, Finalize(s, k, r, now), k)
  {
    hide IsRetryable, FinalSaved, OrNow, Current;
  }

  lemma ResolveLeavesOthers(s: State, k: nat, r: Run, noWork: bool, now: int)
    ensures OthersStay(s, Resolve(s, k, r, noWork, now), k)
  {
    hide Finalize, KindOf, WorkChecked, FinalSaved, Current;
    var job := WorkChecked(r.job, noWork);
    var kind := KindOf(job.status);
    var record := FinalSaved(s.record, job, kind.SuccessKind?, now);
    FinalizeLeavesOthers(s, k, r.(job := job, kind := kind), now);
    FinalizeLeavesOthers(s.(record := record), k, r.(job := Current(record, job), kind := kind), now);
  }

  lemma EnterLeavesOthers(s: State, k: nat, r: Run, alive: bool, noWork: bool, now: int)
    ensures OthersStay(s, Enter(s, k, r, alive, noWork, now), k)
  {
    hide Resolve, Return;
    var job := if r.job.status.CANCEL_PENDING? then r.job.(status := CANCELLED) else r.job;
    ReturnLeavesOthers(s, k, r.(kind := NoEvent), false, false, now);
    ResolveLeavesOthers(s, k, r.(job := job.(status := FAILED)), noWork, now);
    ResolveLeavesOthers(s, k, r.(job := job), noWork, now);
  }

  lemma ConcludeLeavesOthers(s: State, k: nat, r: Run, failed: bool, error: Option<string>, now: int)
    ensures OthersStay(s, Conclude(s, k, r, failed, error, now), k) && k !in Conclude(s, k, r, failed, error, now).runs
  {
    hide IsRetryable, FinalSaved, OrNow, Current;
  }

  lemma StepLeavesOthers(s: State, step: Step)
    requires Enabled(s, step)
    ensures OthersStay(s, Apply(s, step), Own(s, step))
  {
    hide Enter, Resolve, Conclude, CloudStage, FirstError, Current, Derived, GaveUp, AfterPost, AfterUpload, SendEvent, Replay;
    match step
    case UploadAnswered(k, answer, now) => UploadLeavesOthers(s, k, s.runs[k], answer, now);
    case SupportAnswered(k) => SendLeavesOthers(s, k, s.runs[k], AwaitErrorPost);
    case Start(reason, alive, noWork, now) =>
      EnterLeavesOthers(s.(started := s.started + 1), s.started, Run(AwaitState, reason, false, s.record.value, NoEvent, now), alive, noWork, now);
    case StatusAnswered(k, cloud, alive, noWork, now) =>
      ReplayLeavesOthers(s, k, s.runs[k], alive, noWork, now);
      ReplayLeavesOthers(Terminated(s, s.runs[k].job, UNKNOWN, now), k, s.runs[k], alive, noWork, now);
    case StateRead(k, status, noWork, now) =>
      ResolveLeavesOthers(s, k, s.runs[k].(job := Derived(s.runs[k].job, status)), noWork, now);
    case ExecuteDone(k, now) =>
      CloudStageLeavesOthers(s, k, s.runs[k].(job := Current(s.record, s.runs[k].job)), now);
    case PostAnswered(k, answer, now) => PostLeavesOthers(s, k, s.runs[k], answer, now);
    case _ =>
  }

  lemma SendLeavesOthers(s: State, k: nat, r: Run, stage: Stage)
    ensures OthersStay(s, SendEvent(s, k, r, stage), k)
  {
  }

  lemma UploadLeavesOthers(s: State, k: nat, r: Run, answer: Http, now: int)
    ensures OthersStay(s, AfterUpload(s, k, r, answer, now), k)
  {
    hide SendEvent, Current;
    var saved := s.(record := Some(Current(s.record, r.job).(artifactsUploadedAt := Some(now))), uploadSaved := true);
    SendLeavesOthers(s, k, r, AwaitCompletedPost(Sent));
    SendLeavesOthers(saved, k, r, AwaitCompletedPost(Sent));
    SendLeavesOthers(s, k, r, AwaitCompletedPost(answer));
  }

  lemma CloudStageLeavesOthers(s: State, k: nat, r: Run, now: int)
    ensures OthersStay(s, CloudStage(s, k, r, now), k)
  {
    hide Conclude;
    ConcludeLeavesOthers(s, k, r, false, None, now);
  }

  lemma ReplayLeavesOthers(s: State, k: nat, r: Run, alive: bool, noWork: bool, now: int)
    ensures OthersStay(s, Replay(s, k, r, alive, noWork, now), k)
  {
    hide Enter;
    var s1 := s.(record := Some(r.job.(recoveryAttempts := r.job.recoveryAttempts + 1)), calls := s.calls + 1);
    EnterLeavesOthers(s1, k, r.(at := now), alive, noWork, now);
  }

  lemma PostLeavesOthers(s: State, k: nat, r: Run, answer: Http, now: int)
    ensures OthersStay(s, AfterPost(s, k, r, answer, now), k) && k !in AfterPost(s, k, r, answer, now).runs
  {
    hide Conclude, FirstError, Current;
    var skipped := r.job.completedEventPostedAt.Some?;
    var s1 := if skipped || answer.Failed? then s
              else s.(record := Some(Current(s.record, r.job).(completedEventPostedAt := Some(now))),
                       settled := if s.settled.Some? then s.settled else Some(s.started));
    var post := if skipped then Sent else answer;
    var upload := if r.stage.AwaitCompletedPost? then r.stage.upload else Sent;
    ConcludeLeavesOthers(s1, k, r, upload.Failed? || post.Failed?, FirstError(upload, post), now);
  }

  /** A run keeps to its course until it ends. */
  lemma StepKeepsCourse(s: State, step: Step, k: nat, status: Status)
    requires Enabled(s, step) && k < s.started && k in s.runs && OnCourse(s.runs[k], status) && k in Apply(s, step).runs
    ensures OnCourse(Apply(s, step).runs[k], status)
  {
    hide OnCourse;
    if Own(s, step) == k {
      NotStarting(s, step, k, status);
      OwnKeepsCourse(s, step, k, status);
    } else {
      StepLeavesOthers(s, step);
      hide Apply, Own;
    }
  }

  predicate Asks(step: Step) {
    step.ExecuteDone? || step.UploadAnswered? || step.SupportAnswered? || step.PostAnswered? || step.Throws?
  }

  lemma NotStarting(s: State, step: Step, k: nat, status: Status)
    requires Enabled(s, step) && k < s.started && Own(s, step) == k && k in s.runs && OnCourse(s.runs[k], status)
    ensures Asks(step) && step.k == k
  {
  }

  lemma OwnKeepsCourse(s: State, step: Step, k: nat, status: Status)
    requires Enabled(s, step) && Asks(step) && step.k == k && OnCourse(s.runs[k], status) && k in Apply(s, step).runs
    ensures OnCourse(Apply(s, step).runs[k], status)
  {
    hide AfterPost, AfterUpload, CloudStage, SendEvent, Current, OnCourse;
    match step
    case ExecuteDone(_, now) => ExecuteKeepsCourse(s, k, s.runs[k], s.runs[k].(job := Current(s.record, s.runs[k].job)), now, status);
    case UploadAnswered(_, answer, now) => UploadKeepsCourse(s, k, s.runs[k], answer, now, status);
    case SupportAnswered(_) => SendKeepsCourse(s, k, s.runs[k], AwaitErrorPost, status);
    case PostAnswered(_, answer, now) => PostLeavesOthers(s, k, s.runs[k], answer, now);
    case _ =>
  }

  lemma ExecuteKeepsCourse(s: State, k: nat, r: Run, r1: Run, now: int, status: Status)
    requires r.stage.AwaitExecute? && OnCourse(r, status) && r1.stage == r.stage && r1.kind == r.kind
    ensures var s' := CloudStage(s, k, r1, now); k in s'.runs ==> OnCourse(s'.runs[k], status)
  {
  }

  lemma UploadKeepsCourse(s: State, k: nat, r: Run, answer: Http, now: int, status: Status)
    requires r.stage.AwaitUpload? && OnCourse(r, status)
    ensures var s' := AfterUpload(s, k, r, answer, now); k in s'.runs && OnCourse(s'.runs[k], status)
  {
    hide SendEvent, Current, OnCourse;
    var saved := s.(record := Some(Current(s.record, r.job).(artifactsUploadedAt := Some(now))), uploadSaved := true);
    SendKeepsCourse(s, k, r, AwaitCompletedPost(Sent), status);
    SendKeepsCourse(saved, k, r, AwaitCompletedPost(Sent), status);
    SendKeepsCourse(s, k, r, AwaitCompletedPost(answer), status);
  }

  lemma SendKeepsCourse(s: State, k: nat, r: Run, stage: Stage, status: Status)
    requires OnCourse(r, status)
    requires (r.stage.AwaitSupport? && stage.AwaitErrorPost?) || (r.stage.AwaitUpload? && stage.AwaitCompletedPost?)
    ensures var s' := SendEvent(s, k, r, stage); k in s'.runs && OnCourse(s'.runs[k], status)
  {
  }

  ghost predicate RunsStarted(s: State) {
    forall k | k in s.runs :: k < s.started
  }

  lemma {:induction false} RunsAreStarted(states: seq<State>, steps: seq<Step>, j: nat)
    requires IsRun(states, steps) && j < |states|
    ensures RunsStarted(states[j])
  {
    if j > 0 {
      RunsAreStarted(states, steps, j - 1);
      StepAt(states, steps, j - 1);
      StepStarts(states[j - 1], steps[j - 1]);
    }
  }

  lemma StepStarts(s: State, step: Step)
    requires Enabled(s, step) && RunsStarted(s)
    ensures RunsStarted(Apply(s, step))
  {
    StepLeavesOthers(s, step);
    StepGrows(s, step);
    hide Enter, Resolve, CloudStage, AfterStatus, AfterUpload, AfterPost, SendEvent, GaveUp, OthersStay;
    OwnIsStarted(s, step);
    hide Apply;
    assert OthersStay(s, Apply(s, step), Own(s, step));
    OthersStarted(s, Apply(s, step), Own(s, step));
  }

  lemma OthersStarted(s: State, s': State, own: nat)
    requires RunsStarted(s) && OthersStay(s, s', own) && s.started <= s'.started && (own in s'.runs ==> own < s'.started)
    ensures RunsStarted(s')
  {
  }

  lemma OwnIsStarted(s: State, step: Step)
    requires Enabled(s, step) && RunsStarted(s)
    ensures Own(s, step) in Apply(s, step).runs ==> Own(s, step) < Apply(s, step).started
  {
    StepGrows(s, step);
    hide Enter, Resolve, CloudStage, AfterStatus, AfterUpload, AfterPost, SendEvent, GaveUp;
  }

  /** What a run asks of the cloud is what the status asks for that it resolved, whenever it did. */
  lemma {:induction false} RunFollowsStatus(states: seq<State>, steps: seq<Step>, i: nat, j: nat, k: nat, status: Status)
    requires IsRun(states, steps) && i < j < |states| && Resolves(states[i], steps[i], k, status) && k in states[j].runs
    ensures OnCourse(states[j].runs[k], status)
  {
    hide Apply, Enabled, Resolves, OnCourse, Begins;
    IsRunLengths(states, steps);
    StepAt(states, steps, i);
    StepAt(states, steps, j - 1);
    RunsAreStarted(states, steps, i);
    KnownRun(states[i], steps[i], k, status);
    if j == i + 1 {
      StatusDecides(states[i], steps[i], k, status);
      BeginsOnCourse(states[i], states[j], k, status);
    } else {
      RunGrows(states, steps, i + 1, j - 1);
      NotStartedAgain(states[j - 1], steps[j - 1], k);
      RunFollowsStatus(states, steps, i, j - 1, k, status);
      StepKeepsCourse(states[j - 1], steps[j - 1], k, status);
    }
  }

  lemma BeginsOnCourse(s: State, s': State, k: nat, status: Status)
    requires Begins(s, s', k, status) && k in s'.runs
    ensures OnCourse(s'.runs[k], status)
  {
  }

  lemma KnownRun(s: State, step: Step, k: nat, status: Status)
    requires Enabled(s, step) && RunsStarted(s) && Resolves(s, step, k, status)
    ensures k < Apply(s, step).started
  {
    StepGrows(s, step);
    hide Enter, Resolve, AfterStatus, ResolvesFrom, Checked;
  }

  lemma NotStartedAgain(s: State, step: Step, k: nat)
    requires Enabled(s, step) && k < s.started && k in Apply(s, step).runs
    ensures k in s.runs
  {
    SegmentsTouchOwnRun(s, step);
  }

  /** Every run that got past its status has resolved one. */
  lemma {:induction false} WasResolved(states: seq<State>, steps: seq<Step>, j: nat, k: nat) returns (i: nat, status: Status)
    requires IsRun(states, steps) && j < |states| && k in states[j].runs && Resolved(states[j].runs[k])
    ensures i < j && Resolves(states[i], steps[i], k, status)
  {
    hide Apply, Enabled, Resolves, Resolved;
    IsRunLengths(states, steps);
    NoneAtFirst(states, steps);
    StepAt(states, steps, j - 1);
    if k in states[j - 1].runs && Resolved(states[j - 1].runs[k]) {
      i, status := WasResolved(states, steps, j - 1, k);
    } else {
      i := j - 1;
      status := ResolvedNow(states[i], steps[i], k);
    }
  }

  lemma NoneAtFirst(states: seq<State>, steps: seq<Step>)
    requires IsRun(states, steps)
    ensures states[0].runs == map[]
  {
  }

  lemma ResolvedNow(s: State, step: Step, k: nat) returns (status: Status)
    requires Enabled(s, step) && k in Apply(s, step).runs && Resolved(Apply(s, step).runs[k])
    requires !(k in s.runs && Resolved(s.runs[k]))
    ensures Resolves(s, step, k, status)
  {
    OnlyThese(s, step, k);
    if step.Start? {
      status := StartResolves(s, step);
    } else if step.StatusAnswered? {
      hide AfterStatus, ResolvesFrom;
      status := ReplayResolves(s, k, step.cloud, step.alive, step.noWork, step.now);
    } else {
      status := Checked(Derived(s.runs[k].job, step.status).status, s.runs[k].job.execute, step.noWork);
    }
  }

  lemma StartResolves(s: State, step: Step) returns (status: Status)
    requires Enabled(s, step) && step.Start? && s.started in Apply(s, step).runs && Resolved(Apply(s, step).runs[s.started])
    ensures Resolves(s, step, s.started, status)
  {
    hide Enter, ResolvesFrom;
    var s1, r := s.(started := s.started + 1), Run(AwaitState, step.reason, false, s.record.value, NoEvent, step.now);
    status := EnterResolves(s1, s.started, r, step.alive, step.noWork, step.now);
  }

  lemma OnlyThese(s: State, step: Step, k: nat)
    requires Enabled(s, step) && k in Apply(s, step).runs && Resolved(Apply(s, step).runs[k])
    requires !(k in s.runs && Resolved(s.runs[k]))
    ensures k == Own(s, step) && (step.Start? || step.StatusAnswered? || step.StateRead?)
  {
    StepLeavesOthers(s, step);
    hide Enter, Resolve, Conclude, CloudStage, AfterPost, AfterStatus, GaveUp;
  }

  lemma EnterResolves(s: State, k: nat, r: Run, alive: bool, noWork: bool, now: int) returns (status: Status)
    requires k in Enter(s, k, r, alive, noWork, now).runs && Resolved(Enter(s, k, r, alive, noWork, now).runs[k])
    ensures ResolvesFrom(r.job, r.reason == BootRecovery, alive, noWork, status)
  {
    hide Resolve, GaveUp;
    status := Checked(Found(r.job, r.reason == BootRecovery), r.job.execute, noWork);
  }

  lemma ReplayResolves(s: State, k: nat, cloud: LoopStatus, alive: bool, noWork: bool, now: int) returns (status: Status)
    requires k in s.runs
    requires var s' := AfterStatus(s, k, s.runs[k], cloud, alive, noWork, now); k in s'.runs && Resolved(s'.runs[k])
    ensures cloud != LoopTimedOut && ResolvesFrom(s.runs[k].job, s.runs[k].reason == BootRecovery, alive, noWork, status)
  {
    hide Enter, ResolvesFrom, Current;
    var r := s.runs[k];
    var s0 := if cloud.LoopGone? then Terminated(s, r.job, UNKNOWN, now) else s;
    var s1 := s0.(record := Some(r.job.(recoveryAttempts := r.job.recoveryAttempts + 1)), calls := s0.calls + 1);
    status := EnterResolves(s1, k, r.(at := now), alive, noWork, now);
  }

  // ---------------------------------------------------------------------------------------------
  // Over every run
  // ---------------------------------------------------------------------------------------------

  /**
   * What a run in flight has asked the cloud for follows from the status it resolved: artifacts and the
   * completed event (after the git work) for COMPLETED or RUNNING, the support bundle and the error event
   * for FAILED, STOPPED or UNKNOWN; with any other status it is not in flight.
   */
  lemma RequestsFollowStatus(states: seq<State>, steps: seq<Step>, j: nat, k: nat) returns (i: nat, status: Status)
    requires IsRun(states, steps) && j < |states| && k in states[j].runs
    requires !states[j].runs[k].stage.AwaitStatus? && !states[j].runs[k].stage.AwaitState?
    ensures i < j && Resolves(states[i], steps[i], k, status)
    ensures var stage := states[j].runs[k].stage;
      && (stage.AwaitExecute? || stage.AwaitUpload? || stage.AwaitCompletedPost? ==> status in {COMPLETED, RUNNING})
      && (stage.AwaitSupport? || stage.AwaitErrorPost? ==> status in {FAILED, STOPPED, UNKNOWN})
  {
    hide Resolves, IsRun;
    i, status := WasResolved(states, steps, j, k);
    RunFollowsStatus(states, steps, i, j, k, status);
  }

  /** An event is sent only by a run whose status asks for it. */
  lemma EventsFollowStatus(states: seq<State>, steps: seq<Step>, j: nat) returns (i: nat, k: nat, status: Status)
    requires IsRun(states, steps) && j < |steps| && states[j + 1].posts != states[j].posts
    ensures i < j && Resolves(states[i], steps[i], k, status) && states[j + 1].posts == states[j].posts + [k]
    ensures (steps[j].UploadAnswered? && status in {COMPLETED, RUNNING}) || (steps[j].SupportAnswered? && status in {FAILED, STOPPED, UNKNOWN})
  {
    hide Resolves, IsRun, Apply, Enabled;
    IsRunLengths(states, steps);
    StepAt(states, steps, j);
    k := Sender(states[j], steps[j]);
    i, status := RequestsFollowStatus(states, steps, j, k);
  }

  lemma Sender(s: State, step: Step) returns (k: nat)
    requires Enabled(s, step) && Apply(s, step).posts != s.posts
    ensures k in s.runs && Apply(s, step).posts == s.posts + [k]
    ensures (step.UploadAnswered? && s.runs[k].stage.AwaitUpload?) || (step.SupportAnswered? && s.runs[k].stage.AwaitSupport?)
  {
    SegmentsTouchOwnRun(s, step);
    hide Put, Current;
    k := step.k;
  }

  /** A run that answers its last request and reports success is backed by the flags its status asks for. */
  lemma ReportsFollowStatus(states: seq<State>, steps: seq<Step>, j: nat, l: nat) returns (i: nat, status: Status)
    requires IsRun(states, steps) && AllClean(states, steps) && j < |steps| && j < l < |states|
    requires steps[j].PostAnswered? && states[l].record.Some?
    requires |states[j + 1].reports| > |states[j].reports| && states[j + 1].reports[|states[j].reports|].cloudFinalized
    ensures i < j && Resolves(states[i], steps[i], steps[j].k, status)
    ensures var record := states[l].record.value;
      || (status in {COMPLETED, RUNNING} && record.artifactsUploadedAt.Some? && record.completedEventPostedAt.Some?)
      || (status in {FAILED, STOPPED, UNKNOWN} && record.completedEventPostedAt.Some?)
  {
    hide Resolves, IsRun, Apply, Enabled, AllClean, OnCourse;
    IsRunLengths(states, steps);
    StepAt(states, steps, j);
    var k, m := steps[j].k, |states[j].reports|;
    ReportOf(states[j], steps[j]);
    i, status := RequestsFollowStatus(states, steps, j, k);
    RunFollowsStatus(states, steps, i, j, k, status);
    CourseKind(states[j].runs[k], status);
    RunGrows(states, steps, j + 1, l);
    CloudFinalizedIsBacked(states, steps, l, m);
  }

  lemma CourseKind(r: Run, status: Status)
    requires OnCourse(r, status)
    ensures (r.kind.SuccessKind? <==> status in {COMPLETED, RUNNING}) && (r.kind.ErrorKind? <==> status in {FAILED, STOPPED, UNKNOWN})
    ensures r.kind.SuccessKind? || r.kind.ErrorKind?
  {
  }

  lemma ReportOf(s: State, step: Step)
    requires Enabled(s, step) && step.PostAnswered?
    ensures step.k in s.runs && (s.runs[step.k].stage.AwaitCompletedPost? || s.runs[step.k].stage.AwaitErrorPost?)
    ensures var s' := Apply(s, step);
      |s'.reports| > |s.reports| ==> s'.reports[|s.reports|].kind == s.runs[step.k].kind
  {
    hide IsRetryable, FinalSaved, OrNow, Current, GaveUp, FirstError;
  }

  // ---------------------------------------------------------------------------------------------
  // COMPLETED in the record
  // ---------------------------------------------------------------------------------------------

  /** Some copy of the record held in memory says COMPLETED. */
  ghost predicate CopySaysCompleted(s: State) {
    || (exists k :: k in s.runs && s.runs[k].job.status == COMPLETED)
    || (s.candidate.Some? && s.candidate.value.status == COMPLETED)
  }

  predicate SaysCompleted(record: Option<LocalJob>) {
    record.Some? && record.value.status == COMPLETED
  }

  lemma FinalSavedIs(record: Option<LocalJob>, job: LocalJob, success: bool, now: int)
    ensures SaysCompleted(FinalSaved(record, job, success, now)) ==> SaysCompleted(record) || success || job.status == COMPLETED
  {
  }

  lemma ConcludeWrites(s: State, k: nat, r: Run, failed: bool, error: Option<string>, now: int)
    ensures SaysCompleted(Conclude(s, k, r, failed, error, now).record) ==>
      SaysCompleted(s.record) || r.job.status == COMPLETED || (r.reason.LiveExit? && r.kind.SuccessKind?)
  {
    hide IsRetryable, OrNow;
  }

  lemma ResolveWritesCompleted(s: State, k: nat, r: Run, noWork: bool, now: int)
    ensures SaysCompleted(Resolve(s, k, r, noWork, now).record) ==>
      SaysCompleted(s.record) || Succeeded(Checked(r.job.status, r.job.execute, noWork))
  {
    hide Conclude;
    var job := WorkChecked(r.job, noWork);
    var kind := KindOf(job.status);
    var record := FinalSaved(s.record, job, kind.SuccessKind?, now);
    ConcludeWrites(s, k, r.(job := job, kind := kind), false, None, now);
    ConcludeWrites(s.(record := record), k, r.(job := Current(record, job), kind := kind), false, None, now);
  }

  lemma EnterWritesCompleted(s: State, k: nat, r: Run, alive: bool, noWork: bool, now: int)
    requires s.record.Some?
    ensures SaysCompleted(Enter(s, k, r, alive, noWork, now).record) ==>
      SaysCompleted(s.record)
      || (GoesAhead(r.job, r.reason.BootRecovery?, alive) && Succeeded(Checked(Found(r.job, r.reason.BootRecovery?), r.job.execute, noWork)))
  {
    hide Resolve;
    var job := if r.job.status.CANCEL_PENDING? then r.job.(status := CANCELLED) else r.job;
    ResolveWritesCompleted(s, k, r.(job := job.(status := FAILED)), noWork, now);
    ResolveWritesCompleted(s, k, r.(job := job), noWork, now);
  }

  /** A step that resolves no success and answers no successful live run leaves the record, or writes a copy. */
  lemma StepWritesCompleted(s: State, step: Step)
    requires Enabled(s, step) && !step.Touch? && SaysCompleted(Apply(s, step).record) && !SaysCompleted(s.record)
    ensures || CopySaysCompleted(s)
            || (exists status :: Resolves(s, step, Own(s, step), status) && Succeeded(status))
            || (step.PostAnswered? && s.runs[step.k].reason.LiveExit? && s.runs[step.k].kind.SuccessKind?)
  {
    hide Enter, Resolve, Conclude, GaveUp;
    match step
    case Start(reason, alive, noWork, now) => {
      var r := Run(AwaitState, reason, false, s.record.value, NoEvent, now);
      EnterWritesCompleted(s.(started := s.started + 1), s.started, r, alive, noWork, now);
      assert Resolves(s, step, s.started, Checked(Found(r.job, reason.BootRecovery?), r.job.execute, noWork));
    }
    case _ => StepWritesLater(s, step);
  }

  lemma StepWritesLater(s: State, step: Step)
    requires Enabled(s, step) && !step.Touch? && !step.Start? && SaysCompleted(Apply(s, step).record) && !SaysCompleted(s.record)
    ensures || CopySaysCompleted(s)
            || (exists status :: Resolves(s, step, Own(s, step), status) && Succeeded(status))
            || (step.PostAnswered? && s.runs[step.k].reason.LiveExit? && s.runs[step.k].kind.SuccessKind?)
  {
    hide Enter, Resolve, Conclude, AfterStatus, AfterPost, CloudStage, ResolvesFrom, Resolves, GaveUp;
    match step
    case StateRead(_, _, _, _) => StateWritesCompleted(s, step);
    case BeginDead(now) => GaveUpIs(s.record, Current(s.record, s.candidate.value), now);
    case StatusAnswered(k, cloud, alive, noWork, now) =>
      ReplayWritesCompleted(s, k, s.runs[k], cloud, alive, noWork, now);
      var status := Checked(Found(s.runs[k].job, s.runs[k].reason.BootRecovery?), s.runs[k].job.execute, noWork);
      ResolvesIs(s, step, status);
    case ExecuteDone(k, now) => CloudStageWritesCompleted(s, k, s.runs[k].(job := Current(s.record, s.runs[k].job)), now);
    case PostAnswered(k, answer, now) => PostWritesCompleted(s, k, s.runs[k], answer, now);
    case _ =>
  }

  lemma GaveUpIs(record: Option<LocalJob>, job: LocalJob, now: int)
    ensures SaysCompleted(GaveUp(record, job, now)) ==> SaysCompleted(record) || job.status == COMPLETED
  {
  }

  lemma StateWritesCompleted(s: State, step: Step)
    requires Enabled(s, step) && step.StateRead? && SaysCompleted(Apply(s, step).record) && !SaysCompleted(s.record)
    ensures exists status :: Resolves(s, step, step.k, status) && Succeeded(status)
  {
    hide Resolve;
    var r := s.runs[step.k].(job := Derived(s.runs[step.k].job, step.status));
    ResolveWritesCompleted(s, step.k, r, step.noWork, step.now);
    assert Resolves(s, step, step.k, Checked(r.job.status, r.job.execute, step.noWork));
  }

  lemma ResolvesIs(s: State, step: Step, status: Status)
    requires step.StatusAnswered? && step.k in s.runs
    requires status == Checked(Found(s.runs[step.k].job, s.runs[step.k].reason.BootRecovery?), s.runs[step.k].job.execute, step.noWork)
    ensures step.cloud != LoopTimedOut && GoesAhead(s.runs[step.k].job, s.runs[step.k].reason.BootRecovery?, step.alive) ==>
      Resolves(s, step, step.k, status)
  {
  }

  lemma CloudStageWritesCompleted(s: State, k: nat, r: Run, now: int)
    ensures SaysCompleted(CloudStage(s, k, r, now).record) ==> SaysCompleted(s.record) || r.job.status == COMPLETED
  {
    hide Conclude;
    ConcludeWrites(s, k, r, false, None, now);
  }

  lemma ReplayWritesCompleted(s: State, k: nat, r: Run, cloud: LoopStatus, alive: bool, noWork: bool, now: int)
    ensures SaysCompleted(AfterStatus(s, k, r, cloud, alive, noWork, now).record) ==>
      r.job.status == COMPLETED
      || (cloud != LoopTimedOut && GoesAhead(r.job, r.reason.BootRecovery?, alive)
          && Succeeded(Checked(Found(r.job, r.reason.BootRecovery?), r.job.execute, noWork)))
  {
    hide Enter;
    var s0 := if cloud.LoopGone? then Terminated(s, r.job, UNKNOWN, now) else s;
    var s1 := s0.(record := Some(r.job.(recoveryAttempts := r.job.recoveryAttempts + 1)), calls := s0.calls + 1);
    EnterWritesCompleted(s1, k, r.(at := now), alive, noWork, now);
  }

  lemma PostWritesCompleted(s: State, k: nat, r: Run, answer: Http, now: int)
    ensures SaysCompleted(AfterPost(s, k, r, answer, now).record) ==>
      SaysCompleted(s.record) || r.job.status == COMPLETED || (r.reason.LiveExit? && r.kind.SuccessKind?)
  {
    hide Conclude, FirstError;
    var skipped := r.job.completedEventPostedAt.Some?;
    var s1 := if skipped || answer.Failed? then s
              else s.(record := Some(Current(s.record, r.job).(completedEventPostedAt := Some(now))),
                       settled := if s.settled.Some? then s.settled else Some(s.started));
    var post := if skipped then Sent else answer;
    var upload := if r.stage.AwaitCompletedPost? then r.stage.upload else Sent;
    ConcludeWrites(s1, k, r, upload.Failed? || post.Failed?, FirstError(upload, post), now);
  }

  /**
   * Finalization writes COMPLETED over another status only for a run that resolved COMPLETED or RUNNING,
   * or when it writes back a copy that said so before.
   */
  lemma CompletedFollowsStatus(states: seq<State>, steps: seq<Step>, j: nat) returns (i: nat, k: nat, status: Status)
    requires IsRun(states, steps) && j < |steps| && !steps[j].Touch?
    requires states[j + 1].record.Some? && states[j + 1].record.value.status == COMPLETED
    requires states[j].record.None? || states[j].record.value.status != COMPLETED
    ensures CopySaysCompleted(states[j])
         || (i <= j && Resolves(states[i], steps[i], k, status) && status in {COMPLETED, RUNNING})
  {
    hide Resolves, IsRun, Apply, Enabled, CopySaysCompleted, OnCourse;
    IsRunLengths(states, steps);
    StepAt(states, steps, j);
    StepWritesCompleted(states[j], steps[j]);
    i, k, status := j, Own(states[j], steps[j]), COMPLETED;
    if st :| Resolves(states[j], steps[j], k, st) && Succeeded(st) {
      status := st;
    } else if !CopySaysCompleted(states[j]) {
      AnswersRequest(states[j], steps[j]);
      k := steps[j].k;
      i, status := RequestsFollowStatus(states, steps, j, k);
      RunFollowsStatus(states, steps, i, j, k, status);
      CourseKind(states[j].runs[k], status);
    }
  }

  lemma AnswersRequest(s: State, step: Step)
    requires Enabled(s, step) && step.PostAnswered?
    ensures step.k in s.runs && Resolved(s.runs[step.k])
  {
  }

  // ---------------------------------------------------------------------------------------------
  // What is written, and when nothing is asked
  // ---------------------------------------------------------------------------------------------

  /** The copy of the record that a resolving run works on. */
  function CopyOf(s: State, step: Step): LocalJob
    requires (step.Start? && s.record.Some?) || ((step.StatusAnswered? || step.StateRead?) && step.k in s.runs)
  {
    if step.Start? then s.record.value else s.runs[step.k].job
  }

  function ReasonOf(s: State, step: Step): Reason
    requires step.Start? || ((step.StatusAnswered? || step.StateRead?) && step.k in s.runs)
  {
    if step.Start? then step.reason else s.runs[step.k].reason
  }

  /** The record says the resolved status, as COMPLETED if it is a success, and since when. */
  ghost predicate SaysResolved(record: Option<LocalJob>, status: Status, now: int) {
    && record.Some? && record.value.finalStatusPersistedAt == Some(now)
    && record.value.status == (if Succeeded(status) then COMPLETED else status)
  }

  lemma FinalizeSaves(s: State, k: nat, r: Run, now: int)
    requires !r.reason.LiveExit? && s.record.Some?
    ensures var s' := Finalize(s, k, r, now);
      && s'.record.Some? && s'.record.value.status == s.record.value.status
      && s'.record.value.finalStatusPersistedAt == s.record.value.finalStatusPersistedAt
      && (k in s'.runs ==> s'.record == s.record)
  {
    hide IsRetryable;
  }

  lemma ResolveSaves(s: State, k: nat, r: Run, noWork: bool, now: int, status: Status)
    requires status == Checked(r.job.status, r.job.execute, noWork) && status != CANCEL_PENDING && !r.reason.LiveExit?
    ensures var s' := Resolve(s, k, r, noWork, now);
      if r.job.finalStatusPersistedAt.None? then SaysResolved(s'.record, status, now)
      else k in s'.runs ==> s'.record == s.record
  {
    hide Finalize;
    var job := WorkChecked(r.job, noWork);
    var kind := KindOf(job.status);
    var record := FinalSaved(s.record, job, kind.SuccessKind?, now);
    if record.Some? {
      FinalizeSaves(s.(record := record), k, r.(job := Current(record, job), kind := kind), now);
    } else {
      WithoutRecord(s, k, r.(job := Current(record, job), kind := kind), now);
    }
  }

  lemma WithoutRecord(s: State, k: nat, r: Run, now: int)
    ensures k in Finalize(s, k, r, now).runs ==> Finalize(s, k, r, now).record == s.record
  {
    hide IsRetryable, FinalSaved, OrNow, Current;
  }

  lemma EnterSaves(s: State, k: nat, r: Run, alive: bool, noWork: bool, now: int, status: Status)
    requires ResolvesFrom(r.job, r.reason.BootRecovery?, alive, noWork, status) && !r.reason.LiveExit?
    ensures var s' := Enter(s, k, r, alive, noWork, now);
      if r.job.finalStatusPersistedAt.None? then SaysResolved(s'.record, status, now)
      else k in s'.runs ==> s'.record == s.record
  {
    hide Resolve, Return, SaysResolved;
    var job := if r.job.status.CANCEL_PENDING? then r.job.(status := CANCELLED) else r.job;
    if r.reason.BootRecovery? && job.status.RUNNING? {
      ResolveSaves(s, k, r.(job := job.(status := FAILED)), noWork, now, status);
    } else {
      ResolveSaves(s, k, r.(job := job), noWork, now, status);
    }
  }

  /**
   * A boot or a repair writes the status that it resolves into the record at once, unless the copy it works
   * on says that this was done before.
   */
  lemma ResolvedIsSaved(s: State, step: Step, k: nat, status: Status)
    requires Enabled(s, step) && Resolves(s, step, k, status) && ReasonOf(s, step) != LiveExit
    ensures var s' := Apply(s, step);
      && (CopyOf(s, step).finalStatusPersistedAt.None? ==> SaysResolved(s'.record, status, step.now))
      && (CopyOf(s, step).finalStatusPersistedAt.Some? && k in s'.runs && !step.StatusAnswered? ==> s'.record == s.record)
  {
    hide Enter, Resolve, ResolvesFrom, Terminated, SaysResolved, Current;
    match step
    case Start(reason, alive, noWork, now) =>
      EnterSaves(s.(started := s.started + 1), k, Run(AwaitState, reason, false, s.record.value, NoEvent, now), alive, noWork, now, status);
    case StatusAnswered(_, cloud, alive, noWork, now) => ReplaySaves(s, k, cloud, alive, noWork, now, status);
    case StateRead(_, read, noWork, now) =>
      ResolveSaves(s, k, s.runs[k].(job := Derived(s.runs[k].job, read)), noWork, now, status);
  }

  lemma ReplaySaves(s: State, k: nat, cloud: LoopStatus, alive: bool, noWork: bool, now: int, status: Status)
    requires k in s.runs && cloud != LoopTimedOut && s.runs[k].reason != LiveExit
    requires ResolvesFrom(s.runs[k].job, s.runs[k].reason == BootRecovery, alive, noWork, status)
    ensures s.runs[k].job.finalStatusPersistedAt.None? ==>
      SaysResolved(AfterStatus(s, k, s.runs[k], cloud, alive, noWork, now).record, status, now)
  {
    hide Enter, ResolvesFrom, Current, SaysResolved;
    var r := s.runs[k];
    var s0 := if cloud.LoopGone? then Terminated(s, r.job, UNKNOWN, now) else s;
    var s1 := s0.(record := Some(r.job.(recoveryAttempts := r.job.recoveryAttempts + 1)), calls := s0.calls + 1);
    EnterSaves(s1, k, r.(at := now), alive, noWork, now, status);
  }

  /** A live exit writes it with the last answer: COMPLETED, or the status of the run that failed. */
  lemma LiveExitSaves(s: State, k: nat, answer: Http, now: int, status: Status)
    requires Enabled(s, PostAnswered(k, answer, now)) && OnCourse(s.runs[k], status)
    requires s.runs[k].reason == LiveExit && s.runs[k].job.finalStatusPersistedAt.None?
    ensures var record, r := Apply(s, PostAnswered(k, answer, now)).record, s.runs[k];
      && record.Some? && record.value.finalStatusPersistedAt == Some(now)
      && record.value.status == (if Succeeded(status) then COMPLETED else if r.job.status == CANCEL_PENDING then CANCELLED else r.job.status)
  {
    hide IsRetryable, FirstError;
  }

  /** When the artifacts are answered for, however, the completed event goes out, unless the run knows that it did. */
  lemma UploadThenEvent(s: State, k: nat, answer: Http, now: int)
    requires Enabled(s, UploadAnswered(k, answer, now))
    ensures var s', job := Apply(s, UploadAnswered(k, answer, now)), s.runs[k].job;
      && k in s'.runs && s'.runs[k].stage == AwaitCompletedPost(if job.artifactsUploadedAt.Some? then Sent else answer)
      && s'.posts == s.posts + (if job.completedEventPostedAt.Some? then [] else [k])
      && (if job.artifactsUploadedAt.None? && answer == Sent
          then s'.record.Some? && s'.record.value.artifactsUploadedAt == Some(now) else s'.record == s.record)
  {
  }

  /** So does the error event, after the support bundle. */
  lemma SupportThenEvent(s: State, k: nat)
    requires Enabled(s, SupportAnswered(k))
    ensures var s' := Apply(s, SupportAnswered(k));
      && k in s'.runs && s'.runs[k].stage == AwaitErrorPost && s'.record == s.record
      && s'.posts == s.posts + (if s.runs[k].job.completedEventPostedAt.Some? then [] else [k])
  {
  }

  /** A finalization that does not go ahead reads the state file first, or returns at once and leaves everything alone. */
  lemma StartsBehind(s: State, reason: Reason, alive: bool, noWork: bool, now: int)
    requires s.record.Some? && !GoesAhead(s.record.value, reason == BootRecovery, alive)
    ensures var s', job := Apply(s, Start(reason, alive, noWork, now)), s.record.value;
      && s'.record == s.record && s'.token == s.token && s'.posts == s.posts
      && (if job.hasClaudeWorkDir && !(job.status == CANCEL_PENDING && job.pid.Some? && alive)
          then s.started in s'.runs && s'.runs[s.started] == Run(AwaitState, reason, false, job, NoEvent, now) && s'.reports == s.reports
          else s.started !in s'.runs && s'.reports == s.reports + [Report(NoEvent, false)])
  {
    hide Resolve;
  }

  // ---------------------------------------------------------------------------------------------
  // The outcome of a run
  // ---------------------------------------------------------------------------------------------

  /** The upload that preceded the event failed, or the event was to be sent now and failed. */
  predicate CloudFailed(r: Run, answer: Http) {
    (r.stage.AwaitCompletedPost? && r.stage.upload.Failed?) || (r.job.completedEventPostedAt.None? && answer.Failed?)
  }

  /** The error that is reported: that of the upload before that of the event. */
  ghost predicate Reports(r: Run, answer: Http, error: string) {
    if r.stage.AwaitCompletedPost? && r.stage.upload.Failed? && r.stage.upload.error.Some? then error == r.stage.upload.error.value
    else if r.job.completedEventPostedAt.None? && answer.Failed? && answer.error.Some? then error == answer.error.value
    else error == "Cloud finalization failed"
  }

  /** A dead job whose attempts are used up. */
  predicate UsedUp(s: State, r: Run) {
    r.dead && (if s.record.Some? then s.record.value.recoveryAttempts else r.job.recoveryAttempts) >= 3
  }

  /**
   * The last answer ends the run. Without a failure the record is finalized, without an error, and the token
   * is gone. With one the record says why, or that the third attempt was the last; the token is kept
   * exactly for a retryable failure with attempts left.
   */
  lemma AnswerEnds(s: State, k: nat, answer: Http, now: int, error: string)
    requires var step := PostAnswered(k, answer, now); Enabled(s, step) && Reports(s.runs[k], answer, error)
    ensures var s', r := Apply(s, PostAnswered(k, answer, now)), s.runs[k];
      && k !in s'.runs && s'.posts == s.posts && s'.record.Some?
      && s'.reports == s.reports + [Report(r.kind, !CloudFailed(r, answer))]
      && (!CloudFailed(r, answer) ==> s'.record.value.cloudFinalizedAt.Some? && s'.record.value.lastRecoveryError.None? && !s'.token)
      && (CloudFailed(r, answer) ==>
            var retries := IsRetryable(Some(error)) && !UsedUp(s, r);
            && (s'.token <==> s.token && retries)
            && s'.record.value.lastRecoveryError == Some(if IsRetryable(Some(error)) && UsedUp(s, r) then "Exceeded retry cap (3)" else error))
  {
    var r := s.runs[k];
    var skipped := r.job.completedEventPostedAt.Some?;
    var s1 := if skipped || answer.Failed? then s
              else s.(record := Some(Current(s.record, r.job).(completedEventPostedAt := Some(now))),
                       settled := if s.settled.Some? then s.settled else Some(s.started));
    var post := if skipped then Sent else answer;
    var upload := if r.stage.AwaitCompletedPost? then r.stage.upload else Sent;
    assert CloudFailed(r, answer) ==> FirstError(upload, post) == Some(error);
    assert UsedUp(s1, r) == UsedUp(s, r);
    hide FirstError, UsedUp, IsRetryable;
    ConcludeEnds(s1, k, r, upload.Failed? || post.Failed?, FirstError(upload, post), now);
  }

  lemma ConcludeEnds(s: State, k: nat, r: Run, failed: bool, error: Option<string>, now: int)
    ensures var s' := Conclude(s, k, r, failed, error, now);
      && k !in s'.runs && s'.posts == s.posts && s'.record.Some? && s'.reports == s.reports + [Report(r.kind, !failed)]
      && (!failed ==> s'.record.value.cloudFinalizedAt.Some? && s'.record.value.lastRecoveryError.None? && !s'.token)
      && (failed ==>
            && (s'.token <==> s.token && IsRetryable(error) && !UsedUp(s, r))
            && s'.record.value.lastRecoveryError == (if IsRetryable(error) && UsedUp(s, r) then Some("Exceeded retry cap (3)") else error))
  {
    hide IsRetryable;
  }

  /** A loop that timed out in the cloud is over: recorded as such, without its token, and nothing is sent. */
  lemma TimedOutEnds(s: State, k: nat, alive: bool, noWork: bool, now: int)
    requires Enabled(s, StatusAnswered(k, LoopTimedOut, alive, noWork, now))
    ensures var s' := Apply(s, StatusAnswered(k, LoopTimedOut, alive, noWork, now));
      && k !in s'.runs && s'.posts == s.posts && s'.reports == s.reports && s'.calls == s.calls && !s'.token
      && s'.record.Some? && s'.record.value.status == TIMED_OUT && s'.record.value.cloudFinalizedAt == Some(now)
  {
    hide Replay;
  }

  /** A finalization that throws ends; the error is recorded for a dead job only. */
  lemma ThrowEnds(s: State, k: nat, error: string)
    requires Enabled(s, Throws(k, error))
    ensures var s' := Apply(s, Throws(k, error));
      && k !in s'.runs && s'.posts == s.posts && s'.token == s.token && s'.reports == s.reports
      && (if s.runs[k].dead then s'.record.Some? && s'.record.value.lastRecoveryError == Some(error) else s'.record == s.record)
  {
  }

  /**
   * A boot takes up only a loop that is not finalized and has attempts left. With three attempts made since
   * it is given up; without its token nothing is tried; otherwise the cloud is asked for its status.
   */
  lemma TakenUpIf(s: State, now: int)
    ensures Enabled(s, Boot) ==>
      s.record.Some? && s.record.value.cloudFinalizedAt.None? && s.record.value.recoveryAttempts < 3
    ensures Enabled(s, BeginDead(now)) ==>
      var s', job := Apply(s, BeginDead(now)), if s.record.Some? then s.record.value else s.candidate.value;
      && s'.posts == s.posts
      && (if job.recoveryAttempts >= 3 then
            && s'.runs == s.runs && !s'.token && s'.record.Some? && s'.record.value.cloudFinalizedAt.Some?
            && s'.record.value.lastRecoveryError == Some("Exceeded retry cap (3)")
          else
            && s'.record == s.record && s'.token == s.token
            && s'.runs == (if s.token then s.runs[s.started := Run(AwaitStatus, BootRecovery, true, job, NoEvent, now)] else s.runs))
  {
  }

  /** Besides the statuses of `RetryableStatuses`: any error without a status is retryable, none at all is not. */
  lemma {:induction false} NoStatusIsRetryable(text: string)
    requires 'H' !in text
    ensures IsRetryable(Some(text)) <==> text != ""
    ensures !IsRetryable(None)
  {
    NoStatusBefore(text, "");
    assert text + "" == text;
  }
}
