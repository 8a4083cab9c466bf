/**
 * Finalization of one loop: the record in the job store, the finalization runs in flight, and what
 * the cloud has been sent. A run is cut at its awaits; a crash may happen between any two steps.
 */
module Finalization {
  import opened Prelude
  import opened Decimal
  import opened Jobs

  const MAX_RECOVERY_ATTEMPTS := 3

  datatype Reason = LiveExit | BootRecovery | ManualRepair

  /** The result of a request to the cloud. */
  datatype Http = Sent | Failed(error: Option<string>)

  /** What a run owes the cloud: the artifacts and a completed event, an error event, or nothing. */
  datatype Kind = SuccessKind | ErrorKind | NoEvent

  datatype Stage =
    | AwaitStatus
    | AwaitState
    | AwaitExecute
    | AwaitUpload
    | AwaitSupport
    | AwaitCompletedPost(upload: Http)
    | AwaitErrorPost

  /** A suspended finalization: its `resolvedJob` and where it waits. `dead` runs come from boot recovery's dead-job path. */
  datatype Run = Run(stage: Stage, reason: Reason, dead: bool, job: LocalJob, kind: Kind, at: int)

  datatype Report = Report(kind: Kind, cloudFinalized: bool)

  /**
   * `record` is what `getByLoopId` returns. `posts` lists the runs that sent a completed or error
   * event; `calls` counts the finalizations started by the dead-job path; `uploadSaved`
   * says whether `artifactsUploadedAt` was ever persisted, and `settled` how many runs had started
   * when `completedEventPostedAt` first was.
   */
  datatype State = State(
    record: Option<LocalJob>,
    token: bool,
    candidate: Option<LocalJob>,
    runs: map<nat, Run>,
    started: nat,
    posts: seq<nat>,
    calls: nat,
    uploadSaved: bool,
    settled: Option<nat>,
    reports: seq<Report>)

  // ---------------------------------------------------------------------------------------------
  // Retryable errors
  // ---------------------------------------------------------------------------------------------

  predicate IsWordChar(c: char) {
    IsDigit(c) || 'a' <= c <= 'z' || 'A' <= c <= 'Z' || c == '_'
  }

  /** A match of /HTTP\s+(\d{3})\b/ that begins with the string. */
  function StatusHere(s: string): Option<nat> {
    if !("HTTP" <= s) || |s| == 4 || !IsSpace(s[4]) then None
    else
      var t := TrimStart(s[4..]);
      if |t| >= 3 && AllDigits(t[..3]) && (|t| == 3 || !IsWordChar(t[3])) then Some(Value(t[..3])) else None
  }

  function FirstStatus(s: string): Option<nat> {
    if s == "" then None
    else if StatusHere(s).Some? then StatusHere(s)
    else FirstStatus(s[1..])
  }

  /** isRetryableFinalizationError */
  predicate IsRetryable(error: Option<string>) {
    if error.None? || error.value == "" then false
    else
      var status := FirstStatus(error.value);
      status.None? || status.value == 429 || status.value >= 500
  }

  // ---------------------------------------------------------------------------------------------
  // Writes to the record
  // ---------------------------------------------------------------------------------------------

  /** jobStore.getByLoopId(job.loopId) ?? job */
  function Current(record: Option<LocalJob>, job: LocalJob): LocalJob {
    if record.Some? then record.value else job
  }

  /** persistFinalJobStatus */
  function FinalSaved(record: Option<LocalJob>, job: LocalJob, success: bool, now: int): Option<LocalJob> {
    if job.finalStatusPersistedAt.Some? then record
    else
      var status := if success then COMPLETED else if job.status.CANCEL_PENDING? then CANCELLED else job.status;
      Some(Current(record, job).(status := status, finalStatusPersistedAt := Some(now)))
  }

  function OrNow(time: Option<int>, now: int): Option<int> {
    if time.Some? then time else Some(now)
  }

  /** markRecoveryGiveUp */
  function GaveUp(record: Option<LocalJob>, job: LocalJob, now: int): Option<LocalJob> {
    var current := Current(record, job);
    Some(current.(lastRecoveryError := Some("Exceeded retry cap (3)"), cloudFinalizedAt := OrNow(current.cloudFinalizedAt, now)))
  }

  // ---------------------------------------------------------------------------------------------
  // A finalization run, segment by segment
  // ---------------------------------------------------------------------------------------------

  /** Nothing but the record, the token, the runs and the reports differs. */
  ghost predicate SameTotals(s: State, s': State) {
    s'.started == s.started && s'.posts == s.posts && s'.calls == s.calls
    && s'.uploadSaved == s.uploadSaved && s'.settled == s.settled && s.reports <= s'.reports
  }

  function Put(s: State, k: nat, r: Run): (s': State)
    ensures SameTotals(s, s') && s'.runs.Keys <= s.runs.Keys + {k}
  {
    s.(runs := s.runs[k := r])
  }

  /** A run returns to its caller, which for a dead job checks the cap. */
  function Return(s: State, k: nat, r: Run, cloudFinalized: bool, retryable: bool, now: int): (s': State)
    ensures SameTotals(s, s') && s'.runs.Keys <= s.runs.Keys + {k}
  {
    var s1 := s.(runs := s.runs - {k}, reports := s.reports + [Report(r.kind, cloudFinalized)]);
    if r.dead && !cloudFinalized && retryable && s1.record.Some? && s1.record.value.recoveryAttempts >= MAX_RECOVERY_ATTEMPTS then
      s1.(record := GaveUp(s1.record, r.job, now), token := false)
    else s1
  }

  /** From the outcome of the cloud calls to the return. */
  function Conclude(s: State, k: nat, r: Run, failed: bool, error: Option<string>, now: int): (s': State)
    ensures SameTotals(s, s') && s'.runs.Keys <= s.runs.Keys + {k}
  {
    var retryable := failed && IsRetryable(error);
    var current := Current(s.record, r.job);
    var saved := if failed then current.(lastRecoveryError := error)
                 else current.(cloudFinalizedAt := OrNow(current.cloudFinalizedAt, r.at), lastRecoveryError := None);
    var record := if r.reason.LiveExit? then FinalSaved(Some(saved), r.job, r.kind.SuccessKind?, now) else Some(saved);
    Return(s.(record := record, token := s.token && failed && retryable), k, r, !failed, retryable, now)
  }

  /** The cloud calls begin. */
  function CloudStage(s: State, k: nat, r: Run, now: int): (s': State)
    ensures SameTotals(s, s') && s'.runs.Keys <= s.runs.Keys + {k}
  {
    match r.kind
    case SuccessKind => Put(s, k, r.(stage := AwaitUpload))
    case ErrorKind => Put(s, k, r.(stage := AwaitSupport))
    case NoEvent => Conclude(s, k, r, false, None, now)
  }

  /** The event is sent unless the run's copy of the record says that it already was. */
  function SendEvent(s: State, k: nat, r: Run, stage: Stage): State {
    Put(s.(posts := if r.job.completedEventPostedAt.Some? then s.posts else s.posts + [k]), k, r.(stage := stage))
  }

  /** A completed EXECUTE run that used no tokens at all (`noWork`) has failed. */
  function WorkChecked(job: LocalJob, noWork: bool): LocalJob {
    if job.status in {COMPLETED, RUNNING} && job.execute && noWork then job.(status := FAILED) else job
  }

  function KindOf(status: Status): Kind {
    if status in {COMPLETED, RUNNING} then SuccessKind
    else if status in {FAILED, STOPPED, UNKNOWN} then ErrorKind
    else NoEvent
  }

  /** From the resolved status to the next await: unless the loop just exited, its status is persisted first. */
  function Resolve(s: State, k: nat, r: Run, noWork: bool, now: int): (s': State)
    ensures SameTotals(s, s') && s'.runs.Keys <= s.runs.Keys + {k}
  {
    var job := WorkChecked(r.job, noWork);
    var kind := KindOf(job.status);
    if r.reason.LiveExit? then Finalize(s, k, r.(job := job, kind := kind), now)
    else
      var record := FinalSaved(s.record, job, kind.SuccessKind?, now);
      Finalize(s.(record := record), k, r.(job := Current(record, job), kind := kind), now)
  }

  function Finalize(s: State, k: nat, r: Run, now: int): (s': State)
    ensures SameTotals(s, s') && s'.runs.Keys <= s.runs.Keys + {k}
  {
    if r.job.execute && r.kind.SuccessKind? && !r.job.executeFinalized then Put(s, k, r.(stage := AwaitExecute))
    else CloudStage(s, k, r, now)
  }

  /** finalizeLoopFromRuntime, up to its first await. `alive`: the job's process still runs. */
  function Enter(s: State, k: nat, r: Run, alive: bool, noWork: bool, now: int): (s': State)
    ensures SameTotals(s, s') && s'.runs.Keys <= s.runs.Keys + {k}
  {
    if (r.job.status.CANCEL_PENDING? && r.job.pid.Some? && alive) || !r.job.hasClaudeWorkDir then
      Return(s, k, r.(kind := NoEvent), false, false, now)
    else
      var job := if r.job.status.CANCEL_PENDING? then r.job.(status := CANCELLED) else r.job;
      if r.reason.BootRecovery? && job.status.RUNNING? then
        if job.hasStatePath then Put(s, k, r.(job := job, stage := AwaitState))
        else Resolve(s, k, r.(job := job.(status := FAILED)), noWork, now)
      else Resolve(s, k, r.(job := job), noWork, now)
  }

  // ---------------------------------------------------------------------------------------------
  // Steps
  // ---------------------------------------------------------------------------------------------

  /** The cloud's answer about a dead loop: ended by time-out, gone (401, 404, 410), or anything else. */
  datatype LoopStatus = LoopTimedOut | LoopGone | OtherStatus

  datatype Step =
    | Touch(job: LocalJob)
    | Evict
    | Crash
    | Boot
    | Start(reason: Reason, alive: bool, noWork: bool, now: int)
    | BeginDead(now: int)
    | StatusAnswered(k: nat, cloud: LoopStatus, alive: bool, noWork: bool, now: int)
    | StateRead(k: nat, status: Option<Status>, noWork: bool, now: int)
    | ExecuteDone(k: nat, now: int)
    | UploadAnswered(k: nat, answer: Http, now: int)
    | SupportAnswered(k: nat)
    | PostAnswered(k: nat, answer: Http, now: int)
    | Throws(k: nat, error: string)

  /** A write by other code, which spreads the current record: progress flags and attempts stay. */
  predicate SameProgress(a: LocalJob, b: LocalJob) {
    && a.artifactsUploadedAt == b.artifactsUploadedAt && a.completedEventPostedAt == b.completedEventPostedAt
    && a.finalStatusPersistedAt == b.finalStatusPersistedAt && a.cloudFinalizedAt == b.cloudFinalizedAt
    && a.recoveryAttempts == b.recoveryAttempts
  }

  /** buildRecoveryCandidates */
  predicate Eligible(job: LocalJob) {
    job.cloudFinalizedAt.None? && job.recoveryAttempts < MAX_RECOVERY_ATTEMPTS
  }

  predicate AtStage(s: State, k: nat) {
    k in s.runs
  }

  predicate DeadIn(runs: map<nat, Run>, k: nat) {
    k in runs && runs[k].dead
  }

  ghost predicate NoDead(runs: map<nat, Run>) {
    forall k :: !DeadIn(runs, k)
  }

  ghost predicate OneDead(runs: map<nat, Run>) {
    forall k, l | DeadIn(runs, k) && DeadIn(runs, l) :: k == l
  }

  ghost predicate Enabled(s: State, step: Step) {
    match step
    case Touch(job) => s.record.Some? && SameProgress(job, s.record.value)
    case Evict => s.record.Some? && IsTerminal(s.record.value.status)
    case Crash => true
    case Boot => s.candidate.None? && NoDead(s.runs) && s.record.Some? && Eligible(s.record.value)
    case Start(_, _, _, _) => s.record.Some?
    case BeginDead(_) => s.candidate.Some?
    case StatusAnswered(k, _, _, _, _) => AtStage(s, k) && s.runs[k].stage.AwaitStatus?
    case StateRead(k, _, _, _) => AtStage(s, k) && s.runs[k].stage.AwaitState?
    case ExecuteDone(k, _) => AtStage(s, k) && s.runs[k].stage.AwaitExecute?
    case UploadAnswered(k, _, _) => AtStage(s, k) && s.runs[k].stage.AwaitUpload?
    case SupportAnswered(k) => AtStage(s, k) && s.runs[k].stage.AwaitSupport?
    case PostAnswered(k, _, _) => AtStage(s, k) && (s.runs[k].stage.AwaitCompletedPost? || s.runs[k].stage.AwaitErrorPost?)
    case Throws(k, _) => AtStage(s, k)
  }

  /** One candidate of finalizeDeadJobs, up to the request for the loop's status. */
  function BeginDeadJob(s: State, now: int): State
    requires s.candidate.Some?
  {
    var job, s1 := Current(s.record, s.candidate.value), s.(candidate := None);
    if job.recoveryAttempts >= MAX_RECOVERY_ATTEMPTS then s1.(record := GaveUp(s.record, job, now), token := false)
    else if !s.token then s1
    else Put(s1.(started := s.started + 1), s.started, Run(AwaitStatus, BootRecovery, true, job, NoEvent, now))
  }

  /** finalizeAsTerminal */
  function Terminated(s: State, job: LocalJob, status: Status, now: int): State {
    s.(record := Some(Current(s.record, job).(status := status, cloudFinalizedAt := Some(now))), token := false)
  }

  /** The dead-job path after the status answer: counts the attempt and calls the finalizer with the job read before. */
  function Replay(s: State, k: nat, r: Run, alive: bool, noWork: bool, now: int): State {
    Enter(s.(record := Some(r.job.(recoveryAttempts := r.job.recoveryAttempts + 1)), calls := s.calls + 1),
          k, r.(at := now), alive, noWork, now)
  }

  function AfterStatus(s: State, k: nat, r: Run, answer: LoopStatus, alive: bool, noWork: bool, now: int): State {
    match answer
    case LoopTimedOut => Terminated(s, r.job, TIMED_OUT, now).(runs := s.runs - {k})
    case LoopGone => Replay(Terminated(s, r.job, UNKNOWN, now), k, r, alive, noWork, now)
    case OtherStatus => Replay(s, k, r, alive, noWork, now)
  }

  function AfterUpload(s: State, k: nat, r: Run, answer: Http, now: int): State {
    if r.job.artifactsUploadedAt.Some? then SendEvent(s, k, r, AwaitCompletedPost(Sent))
    else if answer.Sent? then
      var saved := Current(s.record, r.job).(artifactsUploadedAt := Some(now));
      SendEvent(s.(record := Some(saved), uploadSaved := true), k, r, AwaitCompletedPost(Sent))
    else SendEvent(s, k, r, AwaitCompletedPost(answer))
  }

  /** The error of the upload if there is one, else that of the event, else a fixed text. */
  function FirstError(upload: Http, post: Http): Option<string> {
    if upload.Failed? && upload.error.Some? then upload.error
    else if post.Failed? && post.error.Some? then post.error
    else Some("Cloud finalization failed")
  }

  function AfterPost(s: State, k: nat, r: Run, answer: Http, now: int): State {
    var skipped := r.job.completedEventPostedAt.Some?;
    var s1 := if skipped || answer.Failed? then s
              else s.(record := Some(Current(s.record, r.job).(completedEventPostedAt := Some(now))),
                       settled := if s.settled.Some? then s.settled else Some(s.started));
    var post := if skipped then Sent else answer;
    var upload := if r.stage.AwaitCompletedPost? then r.stage.upload else Sent;
    Conclude(s1, k, r, upload.Failed? || post.Failed?, FirstError(upload, post), now)
  }

  /** The status that a state file gives a dead running job. */
  function Derived(job: LocalJob, status: Option<Status>): LocalJob {
    job.(status := if status.Some? && IsTerminal(status.value) then status.value else FAILED)
  }

  ghost function Apply(s: State, step: Step): State
    requires Enabled(s, step)
  {
    match step
    case Touch(job) => s.(record := Some(job))
    case Evict => s.(record := None)
    case Crash => s.(candidate := None, runs := map[])
    case Boot => s.(candidate := s.record)
    case Start(reason, alive, noWork, now) =>
      Enter(s.(started := s.started + 1), s.started, Run(AwaitState, reason, false, s.record.value, NoEvent, now), alive, noWork, now)
    case BeginDead(now) => BeginDeadJob(s, now)
    case StatusAnswered(k, answer, alive, noWork, now) => AfterStatus(s, k, s.runs[k], answer, alive, noWork, now)
    case StateRead(k, status, noWork, now) =>
      Resolve(s, k, s.runs[k].(job := Derived(s.runs[k].job, status)), noWork, now)
    case ExecuteDone(k, now) => CloudStage(s, k, s.runs[k].(job := Current(s.record, s.runs[k].job)), now)
    case UploadAnswered(k, answer, now) => AfterUpload(s, k, s.runs[k], answer, now)
    case SupportAnswered(k) => SendEvent(s, k, s.runs[k], AwaitErrorPost)
    case PostAnswered(k, answer, now) => AfterPost(s, k, s.runs[k], answer, now)
    case Throws(k, error) =>
      var r := s.runs[k];
      s.(runs := s.runs - {k},
         record := if r.dead then Some(Current(s.record, r.job).(lastRecoveryError := Some(error))) else s.record)
  }

  /** A record no finalization has touched yet. */
  predicate Untouched(job: LocalJob) {
    job.artifactsUploadedAt.None? && job.completedEventPostedAt.None? && job.finalStatusPersistedAt.None?
    && job.cloudFinalizedAt.None? && job.recoveryAttempts == 0
  }

  function Init(job: LocalJob, token: bool): State {
    State(Some(job), token, None, map[], 0, [], 0, false, None, [])
  }

  // ---------------------------------------------------------------------------------------------
  // The invariant
  // ---------------------------------------------------------------------------------------------

  /** A copy of the record claims no more than was persisted. */
  predicate Claims(s: State, job: LocalJob) {
    (job.artifactsUploadedAt.Some? ==> s.uploadSaved) && (job.completedEventPostedAt.Some? ==> s.settled.Some?)
  }

  /** It has every flag that was persisted, and counts the finalizations of the dead-job path. */
  predicate Full(s: State, job: LocalJob) {
    (s.uploadSaved ==> job.artifactsUploadedAt.Some?) && (s.settled.Some? ==> job.completedEventPostedAt.Some?)
    && job.recoveryAttempts == s.calls
  }

  /** The record, while the store holds one, says exactly what was persisted and counted. */
  predicate RecordOk(s: State) {
    && s.calls <= MAX_RECOVERY_ATTEMPTS
    && (s.record.Some? ==> Claims(s, s.record.value) && Full(s, s.record.value))
  }

  /** A run that started after the event was persisted knows that it was. */
  predicate Informed(s: State, k: nat, job: LocalJob) {
    s.settled.Some? && k >= s.settled.value ==> job.completedEventPostedAt.Some?
  }

  predicate RunOk(s: State, k: nat, r: Run) {
    && k < s.started && Claims(s, r.job) && (!r.stage.AwaitStatus? ==> Informed(s, k, r.job))
    && (r.stage.AwaitStatus? ==> r.dead && r.job.recoveryAttempts == s.calls < MAX_RECOVERY_ATTEMPTS)
    && (r.stage.AwaitState? ==> r.reason.BootRecovery?) && (r.stage.AwaitExecute? ==> r.kind.SuccessKind?)
    && (r.stage.AwaitUpload? ==> r.kind.SuccessKind?) && (r.stage.AwaitCompletedPost? ==> r.kind.SuccessKind?)
    && (r.stage.AwaitSupport? ==> r.kind.ErrorKind?) && (r.stage.AwaitErrorPost? ==> r.kind.ErrorKind?)
    && (r.stage.AwaitCompletedPost? && r.stage.upload.Sent? ==> s.uploadSaved)
  }

  ghost predicate RunsOk(s: State) {
    && (forall k | k in s.runs :: RunOk(s, k, s.runs[k]))
    && OneDead(s.runs) && (s.candidate.Some? ==> NoDead(s.runs))
  }

  /** The captured record of a dead loop may lack flags persisted since, but no attempt. */
  predicate CandidateOk(s: State) {
    s.candidate.Some? ==> Claims(s, s.candidate.value) && s.candidate.value.recoveryAttempts == s.calls < MAX_RECOVERY_ATTEMPTS
  }

  /** A reported success is backed by the flags. */
  predicate ReportOk(s: State, report: Report) {
    report.cloudFinalized ==>
      && (report.kind.SuccessKind? ==> s.uploadSaved && s.settled.Some?)
      && (report.kind.ErrorKind? ==> s.settled.Some?)
  }

  ghost predicate ReportsOk(s: State) {
    && (forall i | 0 <= i < |s.reports| :: ReportOk(s, s.reports[i]))
    && (s.settled.Some? ==> s.settled.value <= s.started)
    && (forall i | 0 <= i < |s.posts| :: s.posts[i] < if s.settled.Some? then s.settled.value else s.started)
  }

  ghost predicate Inv(s: State) {
    RecordOk(s) && CandidateOk(s) && RunsOk(s) && ReportsOk(s)
  }

  /** What a run writes is based on the record, or else on its own copy, which then must lack nothing. */
  predicate Writable(s: State, job: LocalJob) {
    s.record.Some? || Full(s, job)
  }

  /** The status of this copy leads to a write before the next await. */
  predicate ResolveWrites(job: LocalJob, noWork: bool) {
    job.finalStatusPersistedAt.None? || KindOf(WorkChecked(job, noWork).status).NoEvent?
  }

  /** The copy with the event flag, if the answer is what persists it. */
  function WithPost(job: LocalJob, answer: Http, now: int): LocalJob {
    if job.completedEventPostedAt.None? && answer.Sent? then job.(completedEventPostedAt := Some(now)) else job
  }

  /**
   * A step is unclean when it makes a stale copy the record: the dead-job path writing back a copy that
   * lacks a flag persisted while it waited for the loop's status; or, after the store has dropped the
   * record, a run writing its own copy that lacks a persisted flag or a counted attempt, other than
   * the flag that the step itself persists.
   */
  predicate Clean(s: State, step: Step) {
    match step
    case StatusAnswered(k, answer, _, _, _) => AtStage(s, k) ==>
      var job := s.runs[k].job;
      if answer.LoopTimedOut? then Writable(s, job)
      else (s.uploadSaved ==> job.artifactsUploadedAt.Some?) && (s.settled.Some? ==> job.completedEventPostedAt.Some?)
    case StateRead(k, status, noWork, _) => AtStage(s, k) ==>
      ResolveWrites(Derived(s.runs[k].job, status), noWork) ==> Writable(s, s.runs[k].job)
    case UploadAnswered(k, answer, now) => AtStage(s, k) && s.runs[k].job.artifactsUploadedAt.None? && answer.Sent? ==>
      Writable(s, s.runs[k].job.(artifactsUploadedAt := Some(now)))
    case PostAnswered(k, answer, now) => AtStage(s, k) ==> Writable(s, WithPost(s.runs[k].job, answer, now))
    case Throws(k, _) => AtStage(s, k) && s.runs[k].dead ==> Writable(s, s.runs[k].job)
    case _ => true
  }

  // ---------------------------------------------------------------------------------------------
  // The segments keep it
  // ---------------------------------------------------------------------------------------------

  /** At most one dead run, none while a candidate waits. */
  ghost predicate OthersDead(others: map<nat, Run>, r: Run, candidate: Option<LocalJob>) {
    OneDead(others) && (r.dead ==> NoDead(others)) && (candidate.Some? ==> !r.dead && NoDead(others))
  }

  /** What a segment of run `k` assumes: the invariant of everything but the run itself, and of the copy it holds. */
  ghost predicate Held(s: State, k: nat, r: Run) {
    && RecordOk(s) && CandidateOk(s) && ReportsOk(s)
    && k < s.started && Claims(s, r.job) && Informed(s, k, r.job)
    && (forall l | l in s.runs && l != k :: RunOk(s, l, s.runs[l]))
    && OthersDead(s.runs - {k}, r, s.candidate)
  }

  lemma PutKeeps(s: State, k: nat, r: Run)
    requires Held(s, k, r) && RunOk(s, k, r)
    ensures Inv(Put(s, k, r))
  {
    var s' := Put(s, k, r);
    assert k in s'.runs;
    forall l | l in s'.runs ensures RunOk(s', l, s'.runs[l]) {
      assert l == k || (l in s.runs && s'.runs[l] == s.runs[l]);
    }
    PutDead(s.runs, k, r, s.candidate);
  }

  lemma PutDead(runs: map<nat, Run>, k: nat, r: Run, candidate: Option<LocalJob>)
    requires OthersDead(runs - {k}, r, candidate)
    ensures OneDead(runs[k := r]) && (candidate.Some? ==> NoDead(runs[k := r]))
  {
    var put, others := runs[k := r], runs - {k};
    assert !DeadIn(others, k);
    forall l: nat ensures DeadIn(put, l) == (if l == k then r.dead else DeadIn(others, l)) {
      if l != k {
        assert l in put <==> l in others;
      }
    }
  }

  lemma HeldDead(runs: map<nat, Run>, k: nat, candidate: Option<LocalJob>)
    requires k in runs && OneDead(runs) && (candidate.Some? ==> NoDead(runs))
    ensures OthersDead(runs - {k}, runs[k], candidate)
  {
    forall l ensures DeadIn(runs - {k}, l) <==> l != k && DeadIn(runs, l) {
    }
    assert runs[k].dead ==> DeadIn(runs, k);
  }

  lemma ReturnKeeps(s: State, k: nat, r: Run, cloudFinalized: bool, retryable: bool, now: int)
    requires Held(s, k, r) && ReportOk(s, Report(r.kind, cloudFinalized))
    ensures Inv(Return(s, k, r, cloudFinalized, retryable, now))
  {
    var s' := Return(s, k, r, cloudFinalized, retryable, now);
    forall l | l in s'.runs ensures RunOk(s', l, s'.runs[l]) {
      assert l in s.runs && l != k && s'.runs[l] == s.runs[l];
    }
    forall i | 0 <= i < |s'.reports| ensures ReportOk(s', s'.reports[i]) {
      assert i < |s.reports| ==> s'.reports[i] == s.reports[i];
    }
  }

  predicate SameFlags(a: LocalJob, b: LocalJob) {
    a.artifactsUploadedAt.Some? == b.artifactsUploadedAt.Some? && a.completedEventPostedAt.Some? == b.completedEventPostedAt.Some?
    && a.recoveryAttempts == b.recoveryAttempts
  }

  /** A write that keeps flags and attempts of what it is based on. */
  lemma HeldFrame(s: State, s1: State, k: nat, r: Run, job: LocalJob)
    requires Held(s, k, r) && s1 == s.(record := s1.record, token := s1.token) && s1.record.Some?
    requires Claims(s, job) && Writable(s, job) && SameFlags(s1.record.value, Current(s.record, job))
    ensures Held(s1, k, r)
  {
    forall l | l in s1.runs && l != k ensures RunOk(s1, l, s1.runs[l]) {
      assert RunOk(s, l, s.runs[l]);
    }
  }

  lemma ConcludeKeeps(s: State, k: nat, r: Run, failed: bool, error: Option<string>, now: int)
    requires Held(s, k, r) && Writable(s, r.job) && ReportOk(s, Report(r.kind, !failed))
    ensures Inv(Conclude(s, k, r, failed, error, now))
  {
    hide IsRetryable, Return;
    var retryable := failed && IsRetryable(error);
    var current := Current(s.record, r.job);
    var saved := if failed then current.(lastRecoveryError := error)
                 else current.(cloudFinalizedAt := OrNow(current.cloudFinalizedAt, r.at), lastRecoveryError := None);
    var record := if r.reason.LiveExit? then FinalSaved(Some(saved), r.job, r.kind.SuccessKind?, now) else Some(saved);
    var s1 := s.(record := record, token := s.token && failed && retryable);
    HeldFrame(s, s1, k, r, r.job);
    ReturnKeeps(s1, k, r, !failed, retryable, now);
  }

  lemma CloudStageKeeps(s: State, k: nat, r: Run, now: int)
    requires Held(s, k, r) && (r.kind.NoEvent? ==> Writable(s, r.job))
    ensures Inv(CloudStage(s, k, r, now))
  {
    hide Held, Conclude, Put, Inv;
    match r.kind
    case SuccessKind =>
      HeldStage(s, k, r, AwaitUpload);
      PutKeeps(s, k, r.(stage := AwaitUpload));
    case ErrorKind =>
      HeldStage(s, k, r, AwaitSupport);
      PutKeeps(s, k, r.(stage := AwaitSupport));
    case NoEvent => ConcludeKeeps(s, k, r, false, None, now);
  }

  /** The run may go on with any copy that claims no more. */
  lemma HeldCopy(s: State, k: nat, r: Run, r1: Run)
    requires Held(s, k, r) && r1.dead == r.dead && Claims(s, r1.job) && Informed(s, k, r1.job)
    ensures Held(s, k, r1)
  {
  }

  lemma HeldStage(s: State, k: nat, r: Run, stage: Stage)
    requires Held(s, k, r)
    ensures Held(s, k, r.(stage := stage)) && k < s.started && Claims(s, r.job) && Informed(s, k, r.job)
  {
  }

  lemma SendEventKeeps(s: State, k: nat, r: Run, stage: Stage)
    requires Held(s, k, r)
    requires (stage.AwaitErrorPost? && r.kind.ErrorKind?)
          || (stage.AwaitCompletedPost? && r.kind.SuccessKind? && (stage.upload.Sent? ==> s.uploadSaved))
    ensures Inv(SendEvent(s, k, r, stage))
  {
    var s1 := s.(posts := if r.job.completedEventPostedAt.Some? then s.posts else s.posts + [k]);
    forall l | l in s1.runs && l != k ensures RunOk(s1, l, s1.runs[l]) {
      assert RunOk(s, l, s.runs[l]);
    }
    forall i | 0 <= i < |s1.posts| ensures s1.posts[i] < if s1.settled.Some? then s1.settled.value else s1.started {
      assert i < |s.posts| ==> s1.posts[i] == s.posts[i];
    }
    forall i | 0 <= i < |s1.reports| ensures ReportOk(s1, s1.reports[i]) {
      assert ReportOk(s, s.reports[i]);
    }
    assert Held(s1, k, r.(stage := stage));
    PutKeeps(s1, k, r.(stage := stage));
  }

  lemma HeldGives(s: State, k: nat, r: Run)
    requires Held(s, k, r)
    ensures RecordOk(s) && Claims(s, r.job) && Informed(s, k, r.job)
  {
  }

  /** Persisting the final status, or finding it persisted; the run goes on with what the record then says. */
  lemma FinalSavedKeeps(s: State, k: nat, r: Run, success: bool, now: int)
    requires Held(s, k, r) && (r.job.finalStatusPersistedAt.None? ==> Writable(s, r.job))
    ensures var record := FinalSaved(s.record, r.job, success, now);
      var s1, r1 := s.(record := record), r.(job := Current(record, r.job));
      Held(s1, k, r1) && (Writable(s, r.job) ==> Writable(s1, r1.job))
  {
    var record := FinalSaved(s.record, r.job, success, now);
    var s1, r1 := s.(record := record), r.(job := Current(record, r.job));
    if r.job.finalStatusPersistedAt.None? {
      HeldFrame(s, s1, k, r, r.job);
    }
    assert Held(s1, k, r);
    HeldGives(s1, k, r);
    RecordIsInformed(s1, k);
    hide Held;
    HeldCopy(s1, k, r, r1);
  }

  lemma FinalizeKeeps(s: State, k: nat, r: Run, now: int)
    requires Held(s, k, r) && (r.kind.NoEvent? ==> Writable(s, r.job))
    ensures Inv(Finalize(s, k, r, now))
  {
    hide Held, CloudStage, Inv, Put;
    HeldStage(s, k, r, AwaitExecute);
    if r.job.execute && r.kind.SuccessKind? && !r.job.executeFinalized {
      PutKeeps(s, k, r.(stage := AwaitExecute));
    } else {
      CloudStageKeeps(s, k, r, now);
    }
  }

  lemma ResolveKeeps(s: State, k: nat, r: Run, noWork: bool, now: int)
    requires Held(s, k, r) && (ResolveWrites(r.job, noWork) ==> Writable(s, r.job))
    ensures Inv(Resolve(s, k, r, noWork, now))
  {
    var job := WorkChecked(r.job, noWork);
    var kind := KindOf(job.status);
    HeldGives(s, k, r);
    assert Claims(s, job) && Informed(s, k, job) && (Writable(s, r.job) <==> Writable(s, job));
    assert job.finalStatusPersistedAt == r.job.finalStatusPersistedAt;
    var r1 := r.(job := job, kind := kind);
    hide FinalSaved, Finalize, Inv, Held, RecordOk, KindOf, WorkChecked, Writable;
    HeldCopy(s, k, r, r1);
    if r.reason.LiveExit? {
      FinalizeKeeps(s, k, r1, now);
    } else {
      FinalSavedKeeps(s, k, r1, kind.SuccessKind?, now);
      var s1 := s.(record := FinalSaved(s.record, job, kind.SuccessKind?, now));
      FinalizeKeeps(s1, k, r1.(job := Current(s1.record, job)), now);
    }
  }

  lemma EnterKeeps(s: State, k: nat, r: Run, alive: bool, noWork: bool, now: int)
    requires Held(s, k, r) && s.record.Some?
    ensures Inv(Enter(s, k, r, alive, noWork, now))
  {
    var none := r.(kind := NoEvent);
    var job := if r.job.status.CANCEL_PENDING? then r.job.(status := CANCELLED) else r.job;
    var r1, r2, r3 := r.(job := job, stage := AwaitState), r.(job := job.(status := FAILED)), r.(job := job);
    HeldGives(s, k, r);
    hide Held, Resolve, Return, Put, Inv, RecordOk;
    HeldCopy(s, k, r, none);
    HeldCopy(s, k, r, r1);
    HeldCopy(s, k, r, r2);
    HeldCopy(s, k, r, r3);
    HeldStage(s, k, r1, AwaitState);
    if (r.job.status.CANCEL_PENDING? && r.job.pid.Some? && alive) || !r.job.hasClaudeWorkDir {
      ReturnKeeps(s, k, none, false, false, now);
    } else if r.reason.BootRecovery? && job.status.RUNNING? {
      if job.hasStatePath {
        PutKeeps(s, k, r1);
      } else {
        ResolveKeeps(s, k, r2, noWork, now);
      }
    } else {
      ResolveKeeps(s, k, r3, noWork, now);
    }
  }

  lemma InvHolds(s: State, k: nat)
    requires Inv(s) && AtStage(s, k)
    ensures RunOk(s, k, s.runs[k]) && OthersDead(s.runs - {k}, s.runs[k], s.candidate)
    ensures !s.runs[k].stage.AwaitStatus? ==> Held(s, k, s.runs[k])
  {
    HeldDead(s.runs, k, s.candidate);
  }

  // ---------------------------------------------------------------------------------------------
  // A record that lacks something is not repaired before the next await
  // ---------------------------------------------------------------------------------------------

  /** The record lacks a flag that was persisted, or an attempt. */
  predicate Lie(s: State) {
    s.record.Some? && !Full(s, s.record.value)
  }

  /** What would be written now lacks one. */
  predicate WouldLie(s: State, job: LocalJob) {
    !Full(s, Current(s.record, job))
  }

  lemma LieBreaksInv(s: State)
    requires Lie(s)
    ensures !Inv(s)
  {
  }

  lemma EnterKeepsLie(s: State, k: nat, r: Run, alive: bool, noWork: bool, now: int)
    requires Lie(s)
    ensures Lie(Enter(s, k, r, alive, noWork, now))
  {
    var job := if r.job.status.CANCEL_PENDING? then r.job.(status := CANCELLED) else r.job;
    hide Resolve;
    ResolveKeepsLie(s, k, r.(job := job.(status := FAILED)), noWork, now);
    ResolveKeepsLie(s, k, r.(job := job), noWork, now);
  }

  lemma ResolveKeepsLie(s: State, k: nat, r: Run, noWork: bool, now: int)
    requires Lie(s) || (s.record.None? && !Full(s, r.job) && !r.reason.LiveExit? && ResolveWrites(r.job, noWork))
    ensures Lie(Resolve(s, k, r, noWork, now))
  {
    hide Conclude;
    var job := WorkChecked(r.job, noWork);
    var kind := KindOf(job.status);
    var record := FinalSaved(s.record, job, kind.SuccessKind?, now);
    if Lie(s) || kind.NoEvent? {
      ConcludeLies(s, k, r.(job := job, kind := kind), false, None, now);
    }
    if record.Some? || kind.NoEvent? {
      ConcludeLies(s.(record := record), k, r.(job := Current(record, job), kind := kind), false, None, now);
    }
  }

  lemma ConcludeLies(s: State, k: nat, r: Run, failed: bool, error: Option<string>, now: int)
    requires WouldLie(s, r.job)
    ensures Lie(Conclude(s, k, r, failed, error, now))
  {
    hide IsRetryable;
  }

  // ---------------------------------------------------------------------------------------------
  // The steps keep it exactly when they are clean
  // ---------------------------------------------------------------------------------------------

  lemma PlainStepKeepsInv(s: State, step: Step)
    requires Inv(s) && Enabled(s, step)
    requires step.Touch? || step.Evict? || step.Crash? || step.Boot?
    ensures Inv(Apply(s, step))
  {
    var s' := Apply(s, step);
    forall l | l in s'.runs ensures RunOk(s', l, s'.runs[l]) {
      assert RunOk(s, l, s.runs[l]);
    }
    forall i | 0 <= i < |s'.reports| ensures ReportOk(s', s'.reports[i]) {
      assert ReportOk(s, s.reports[i]);
    }
  }

  lemma ThrowsKeepsInv(s: State, step: Step)
    requires Inv(s) && Enabled(s, step) && step.Throws?
    ensures Inv(Apply(s, step)) <==> Clean(s, step)
    ensures !Clean(s, step) ==> Lie(Apply(s, step))
  {
    hide ReportsOk, ReportOk, IsTerminal, Derived, WithPost, ResolveWrites, KindOf, RecordOk, Lie, Writable, Claims, CandidateOk;
    var s', r := Apply(s, step), s.runs[step.k];
    RunsLeft(s, s', step.k);
    assert RunOk(s, step.k, r);
    hide RunsOk, RunOk;
    if r.dead {
      WrittenIff(s, s', r.job);
    } else {
      SameRecordOk(s, s');
    }
  }

  /** What is written over a truthful record, or over none, is truthful exactly when it may be written. */
  lemma WrittenIff(s: State, s': State, job: LocalJob)
    requires RecordOk(s) && Claims(s, job) && s'.record.Some? && SameFlags(s'.record.value, Current(s.record, job))
    requires s'.uploadSaved == s.uploadSaved && s'.settled == s.settled && s'.calls == s.calls
    ensures (RecordOk(s') <==> Writable(s, job)) && (!Writable(s, job) ==> Lie(s'))
  {
  }

  lemma SameRecordOk(s: State, s': State)
    requires RecordOk(s) && s'.record == s.record
    requires s'.uploadSaved == s.uploadSaved && s'.settled == s.settled && s'.calls == s.calls
    ensures RecordOk(s')
  {
  }

  /** Without one of its runs, the rest of the invariant stays. */
  lemma RunsLeft(s: State, s': State, k: nat)
    requires RunsOk(s) && ReportsOk(s) && CandidateOk(s) && s' == s.(runs := s.runs - {k}, record := s'.record)
    ensures RunsOk(s') && ReportsOk(s') && CandidateOk(s')
  {
    assert forall l :: DeadIn(s'.runs, l) ==> DeadIn(s.runs, l);
    forall l | l in s'.runs ensures RunOk(s', l, s'.runs[l]) {
      assert RunOk(s, l, s.runs[l]);
    }
    forall i | 0 <= i < |s'.reports| ensures ReportOk(s', s'.reports[i]) {
      assert ReportOk(s, s.reports[i]);
    }
  }

  lemma StartedIsHeld(s: State, r: Run)
    requires Inv(s) && s.record.Some? && r.job == s.record.value && !r.dead
    ensures Held(s.(started := s.started + 1), s.started, r)
  {
    var s1 := s.(started := s.started + 1);
    assert s.started !in s.runs by {
      assert forall k | k in s.runs :: RunOk(s, k, s.runs[k]);
    }
    assert s.runs - {s.started} == s.runs;
    forall l | l in s1.runs && l != s.started ensures RunOk(s1, l, s1.runs[l]) {
      assert RunOk(s, l, s.runs[l]);
    }
    forall i | 0 <= i < |s1.reports| ensures ReportOk(s1, s1.reports[i]) {
      assert ReportOk(s, s.reports[i]);
    }
  }

  lemma StartKeepsInv(s: State, step: Step)
    requires Inv(s) && Enabled(s, step) && step.Start?
    ensures Inv(Apply(s, step))
  {
    hide Held, Enter, Inv;
    var s1, r := s.(started := s.started + 1), Run(AwaitState, step.reason, false, s.record.value, NoEvent, step.now);
    StartedIsHeld(s, r);
    EnterKeeps(s1, s.started, r, step.alive, step.noWork, step.now);
  }

  lemma BeginDeadKeepsInv(s: State, step: Step)
    requires Inv(s) && Enabled(s, step) && step.BeginDead?
    ensures Inv(Apply(s, step))
  {
    var job := Current(s.record, s.candidate.value);
    assert Claims(s, job) && job.recoveryAttempts == s.calls < MAX_RECOVERY_ATTEMPTS;
    CandidateGone(s);
    if s.token {
      BegunDead(s, Run(AwaitStatus, BootRecovery, true, job, NoEvent, step.now));
    }
  }

  lemma CandidateGone(s: State)
    requires Inv(s)
    ensures Inv(s.(candidate := None))
  {
    assert forall k | k in s.runs :: RunOk(s.(candidate := None), k, s.runs[k]) by {
      assert forall k | k in s.runs :: RunOk(s, k, s.runs[k]);
    }
    assert forall i | 0 <= i < |s.reports| :: ReportOk(s.(candidate := None), s.reports[i]) by {
      assert forall i | 0 <= i < |s.reports| :: ReportOk(s, s.reports[i]);
    }
  }

  lemma BegunDead(s: State, r: Run)
    requires Inv(s) && s.candidate.Some? && r.stage.AwaitStatus? && r.dead
    requires Claims(s, r.job) && r.job.recoveryAttempts == s.calls < MAX_RECOVERY_ATTEMPTS
    ensures Inv(Put(s.(candidate := None, started := s.started + 1), s.started, r))
  {
    var s' := Put(s.(candidate := None, started := s.started + 1), s.started, r);
    forall l | l in s'.runs && l != s.started ensures RunOk(s', l, s'.runs[l]) && !DeadIn(s'.runs, l) {
      assert RunOk(s, l, s.runs[l]) && !DeadIn(s.runs, l);
    }
    forall i | 0 <= i < |s'.reports| ensures ReportOk(s', s'.reports[i]) {
      assert ReportOk(s, s.reports[i]);
    }
  }

  lemma StatusKeepsInv(s: State, step: Step)
    requires Inv(s) && Enabled(s, step) && step.StatusAnswered?
    ensures Inv(Apply(s, step)) <==> Clean(s, step)
    ensures !Clean(s, step) ==> Lie(Apply(s, step))
  {
    var k, r := step.k, s.runs[step.k];
    hide Held, Enter, Inv;
    match step.cloud
    case LoopTimedOut => TimedOutKeeps(s, k, r, step.now);
    case LoopGone => ReplayKeepsInv(s, Terminated(s, r.job, UNKNOWN, step.now), step);
    case OtherStatus => ReplayKeepsInv(s, s, step);
  }

  lemma ReplayKeepsInv(s: State, base: State, step: Step)
    requires Inv(s) && Enabled(s, step) && step.StatusAnswered? && !step.cloud.LoopTimedOut?
    requires base == s.(record := base.record, token := base.token)
    ensures var s' := Replay(base, step.k, s.runs[step.k], step.alive, step.noWork, step.now);
      (Inv(s') <==> Clean(s, step)) && (!Clean(s, step) ==> Lie(s'))
  {
    var k, r := step.k, s.runs[step.k];
    var s' := Replay(base, k, r, step.alive, step.noWork, step.now);
    ReplayIs(s, base, k, r, step.alive, step.noWork, step.now);
    hide Replay, Inv, Lie, Writable, WithPost, Derived, ResolveWrites;
    if Lie(s') {
      LieBreaksInv(s');
    }
  }

  /** Replaying writes a copy: the record is truthful exactly when the copy has every persisted flag. */
  lemma ReplayIs(s: State, base: State, k: nat, r: Run, alive: bool, noWork: bool, now: int)
    requires Inv(s) && AtStage(s, k) && r == s.runs[k] && r.stage.AwaitStatus?
    requires base == s.(record := base.record, token := base.token)
    ensures var s' := Replay(base, k, r, alive, noWork, now);
      if (s.uploadSaved ==> r.job.artifactsUploadedAt.Some?) && (s.settled.Some? ==> r.job.completedEventPostedAt.Some?)
      then Inv(s') else Lie(s')
  {
    hide Held, Enter, Inv, Lie, Current;
    var s1 := base.(record := Some(r.job.(recoveryAttempts := r.job.recoveryAttempts + 1)), calls := s.calls + 1);
    var r1 := r.(at := now);
    CountedFrame(s, s1, k, r1);
    if (s.uploadSaved ==> r.job.artifactsUploadedAt.Some?) && (s.settled.Some? ==> r.job.completedEventPostedAt.Some?) {
      EnterKeeps(s1, k, r1, alive, noWork, now);
    } else {
      EnterKeepsLie(s1, k, r1, alive, noWork, now);
    }
  }

  lemma TimedOutKeeps(s: State, k: nat, r: Run, now: int)
    requires Inv(s) && AtStage(s, k) && r == s.runs[k]
    ensures var s' := Terminated(s, r.job, TIMED_OUT, now).(runs := s.runs - {k});
      (Inv(s') <==> Writable(s, r.job)) && (!Writable(s, r.job) ==> Lie(s'))
  {
    var s' := Terminated(s, r.job, TIMED_OUT, now).(runs := s.runs - {k});
    InvHolds(s, k);
    forall l | l in s'.runs ensures RunOk(s', l, s'.runs[l]) {
      assert RunOk(s, l, s.runs[l]);
    }
    forall i | 0 <= i < |s'.reports| ensures ReportOk(s', s'.reports[i]) {
      assert ReportOk(s, s.reports[i]);
    }
  }

  /** What counting the attempt does: the copy is written back, one attempt higher. */
  lemma CountedFrame(s: State, s1: State, k: nat, r: Run)
    requires Inv(s) && AtStage(s, k) && s.runs[k].stage.AwaitStatus? && r == s.runs[k].(at := r.at)
    requires s1 == s.(record := Some(r.job.(recoveryAttempts := r.job.recoveryAttempts + 1)), calls := s.calls + 1, token := s1.token)
    ensures (s.uploadSaved ==> r.job.artifactsUploadedAt.Some?) && (s.settled.Some? ==> r.job.completedEventPostedAt.Some?) ==>
      Held(s1, k, r)
    ensures (s.uploadSaved && r.job.artifactsUploadedAt.None?) || (s.settled.Some? && r.job.completedEventPostedAt.None?) ==> Lie(s1)
  {
    InvHolds(s, k);
    forall l | l in s1.runs && l != k ensures RunOk(s1, l, s1.runs[l]) {
      assert RunOk(s, l, s.runs[l]);
      assert !DeadIn(s.runs - {k}, l);
    }
    forall i | 0 <= i < |s1.reports| ensures ReportOk(s1, s1.reports[i]) {
      assert ReportOk(s, s.reports[i]);
    }
  }

  lemma RecordIsInformed(s: State, k: nat)
    requires RecordOk(s)
    ensures s.record.Some? ==> Claims(s, s.record.value) && Informed(s, k, s.record.value)
  {
  }

  lemma StateReadKeepsInv(s: State, step: Step)
    requires Inv(s) && Enabled(s, step) && step.StateRead?
    ensures Inv(Apply(s, step)) <==> Clean(s, step)
    ensures !Clean(s, step) ==> Lie(Apply(s, step))
  {
    var k, r := step.k, s.runs[step.k];
    var r1 := r.(job := Derived(r.job, step.status));
    InvHolds(s, k);
    HeldGives(s, k, r);
    assert Writable(s, r.job) <==> Writable(s, r1.job);
    hide Held, Resolve, Inv, RecordOk;
    HeldCopy(s, k, r, r1);
    if Clean(s, step) {
      ResolveKeeps(s, k, r1, step.noWork, step.now);
    } else {
      ResolveKeepsLie(s, k, r1, step.noWork, step.now);
      LieBreaksInv(Resolve(s, k, r1, step.noWork, step.now));
    }
  }

  lemma ExecuteDoneKeepsInv(s: State, step: Step)
    requires Inv(s) && Enabled(s, step) && step.ExecuteDone?
    ensures Inv(Apply(s, step))
  {
    var k, r := step.k, s.runs[step.k];
    var r1 := r.(job := Current(s.record, r.job));
    InvHolds(s, k);
    HeldGives(s, k, r);
    RecordIsInformed(s, k);
    hide Held, CloudStage, Inv, RecordOk;
    HeldCopy(s, k, r, r1);
    CloudStageKeeps(s, k, r1, step.now);
  }

  lemma RunStepKeepsInv(s: State, step: Step)
    requires Inv(s) && Enabled(s, step)
    requires step.StateRead? || step.ExecuteDone? || step.UploadAnswered? || step.SupportAnswered? || step.PostAnswered?
    ensures Inv(Apply(s, step)) <==> Clean(s, step)
    ensures !Clean(s, step) ==> Lie(Apply(s, step))
  {
    var k, r := step.k, s.runs[step.k];
    InvHolds(s, k);
    HeldGives(s, k, r);
    match step
    case StateRead(_, _, _, _) => StateReadKeepsInv(s, step);
    case ExecuteDone(_, _) => ExecuteDoneKeepsInv(s, step);
    case UploadAnswered(_, answer, now) => {
      hide Held, Inv, AfterUpload;
      UploadKeeps(s, k, r, answer, now);
    }
    case SupportAnswered(_) => {
      hide Held, Inv, SendEvent;
      SendEventKeeps(s, k, r, AwaitErrorPost);
    }
    case PostAnswered(_, answer, now) => {
      hide Held, Inv, AfterPost;
      PostKeeps(s, k, r, answer, now);
    }
  }

  /** Persisting a flag: the record and the claim change together. */
  lemma SavedFrame(s: State, s1: State, k: nat, r: Run)
    requires Held(s, k, r) && RecordOk(s1) && s1.record.Some?
    requires s1 == s.(record := s1.record, uploadSaved := s1.uploadSaved, settled := s1.settled)
    requires s.uploadSaved ==> s1.uploadSaved
    requires if s.settled.Some? then s1.settled == s.settled else s1.settled in {None, Some(s.started)}
    ensures Held(s1, k, r)
  {
    forall l | l in s1.runs && l != k ensures RunOk(s1, l, s1.runs[l]) {
      assert RunOk(s, l, s.runs[l]);
    }
    forall i | 0 <= i < |s1.reports| ensures ReportOk(s1, s1.reports[i]) {
      assert ReportOk(s, s.reports[i]);
    }
  }

  lemma UploadKeeps(s: State, k: nat, r: Run, answer: Http, now: int)
    requires Held(s, k, r) && r.kind.SuccessKind?
    ensures Inv(AfterUpload(s, k, r, answer, now))
            <==> (r.job.artifactsUploadedAt.None? && answer.Sent? ==> Writable(s, r.job.(artifactsUploadedAt := Some(now))))
    ensures !Inv(AfterUpload(s, k, r, answer, now)) ==> Lie(AfterUpload(s, k, r, answer, now))
  {
    var s1 := s.(record := Some(Current(s.record, r.job).(artifactsUploadedAt := Some(now))), uploadSaved := true);
    assert r.job.artifactsUploadedAt.Some? ==> s.uploadSaved;
    if r.job.artifactsUploadedAt.Some? {
      SendEventKeeps(s, k, r, AwaitCompletedPost(Sent));
    } else if answer.Failed? {
      SendEventKeeps(s, k, r, AwaitCompletedPost(answer));
    } else if Writable(s, r.job.(artifactsUploadedAt := Some(now))) {
      SavedFrame(s, s1, k, r);
      hide Held;
      SendEventKeeps(s1, k, r, AwaitCompletedPost(Sent));
    } else {
      hide Inv;
      LieBreaksInv(SendEvent(s1, k, r, AwaitCompletedPost(Sent)));
    }
  }

  lemma PostKeeps(s: State, k: nat, r: Run, answer: Http, now: int)
    requires Held(s, k, r) && RunOk(s, k, r) && (r.stage.AwaitCompletedPost? || r.stage.AwaitErrorPost?)
    ensures Inv(AfterPost(s, k, r, answer, now)) <==> Writable(s, WithPost(r.job, answer, now))
    ensures !Inv(AfterPost(s, k, r, answer, now)) ==> Lie(AfterPost(s, k, r, answer, now))
  {
    if Writable(s, WithPost(r.job, answer, now)) {
      PostIsTruthful(s, k, r, answer, now);
    } else {
      PostLies(s, k, r, answer, now);
      hide *;
      LieBreaksInv(AfterPost(s, k, r, answer, now));
    }
  }

  lemma PostIsTruthful(s: State, k: nat, r: Run, answer: Http, now: int)
    requires Held(s, k, r) && RunOk(s, k, r) && (r.stage.AwaitCompletedPost? || r.stage.AwaitErrorPost?)
    requires Writable(s, WithPost(r.job, answer, now))
    ensures Inv(AfterPost(s, k, r, answer, now))
  {
    var skipped := r.job.completedEventPostedAt.Some?;
    var saved := s.(record := Some(Current(s.record, r.job).(completedEventPostedAt := Some(now))),
                       settled := if s.settled.Some? then s.settled else Some(s.started));
    var s1 := if skipped || answer.Failed? then s else saved;
    var post := if skipped then Sent else answer;
    var upload := if r.stage.AwaitCompletedPost? then r.stage.upload else Sent;
    if s1 == saved {
      SavedFrame(s, saved, k, r);
    }
    assert Held(s1, k, r);
    assert skipped ==> s.settled.Some?;
    hide Held, Conclude, Inv, FirstError;
    ConcludeKeeps(s1, k, r, upload.Failed? || post.Failed?, FirstError(upload, post), now);
  }

  lemma PostLies(s: State, k: nat, r: Run, answer: Http, now: int)
    requires !Writable(s, WithPost(r.job, answer, now))
    ensures Lie(AfterPost(s, k, r, answer, now))
  {
    var skipped := r.job.completedEventPostedAt.Some?;
    var saved := s.(record := Some(Current(s.record, r.job).(completedEventPostedAt := Some(now))),
                       settled := if s.settled.Some? then s.settled else Some(s.started));
    var s1 := if skipped || answer.Failed? then s else saved;
    var post := if skipped then Sent else answer;
    var upload := if r.stage.AwaitCompletedPost? then r.stage.upload else Sent;
    hide Conclude, FirstError;
    ConcludeLies(s1, k, r, upload.Failed? || post.Failed?, FirstError(upload, post), now);
  }
}
