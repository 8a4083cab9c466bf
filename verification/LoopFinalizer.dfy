/**
 * The finalizer and the dead-job path of boot recovery as code that updates a job store, for one
 * loop: the code between two awaits is one method, and its effect is the segment of that name.
 */
module LoopFinalizers {
  import opened Prelude
  import opened Jobs
  import opened Finalization
  import FinalizationStatus

  class LoopFinalizer {
    const jobStore: JobStore
    const loopId: Id
    const id: Id
    /** Whether the loop's runner token is stored. */
    var hasToken: bool

    constructor (jobStore: JobStore, loopId: Id, id: Id, hasToken: bool)
      ensures this.jobStore == jobStore && this.loopId == loopId && this.id == id && this.hasToken == hasToken
    {
      this.jobStore, this.loopId, this.id, this.hasToken := jobStore, loopId, id, hasToken;
    }

    /** The store and the token are those of this state of the model. */
    ghost predicate Sees(s: State)
      reads this, jobStore
    {
      && OneJob(jobStore.Contents(), loopId, id)
      && GetByLoop(jobStore.Contents(), loopId) == s.record
      && (s.record.Some? ==> Mine(s.record.value))
      && hasToken == s.token
    }

    predicate Mine(job: LocalJob) {
      job.id == id && job.loopId == loopId
    }

    static ghost function NextOf(s: State, k: nat): Option<Run> {
      if k in s.runs then Some(s.runs[k]) else None
    }

    method Save(job: LocalJob, ghost s: State)
      requires Sees(s) && Mine(job)
      modifies jobStore
      ensures Sees(s.(record := Some(job)))
    {
      UpsertThenGetByLoop(jobStore.Contents(), job);
      jobStore.Upsert(job);
    }

    /** jobStore.getByLoopId(job.loopId) ?? job */
    method Reread(job: LocalJob, ghost s: State) returns (current: LocalJob)
      requires Sees(s) && Mine(job)
      ensures current == Current(s.record, job) && Mine(current)
    {
      var found := jobStore.GetByLoopId(loopId);
      current := if found.Some? then found.value else job;
    }

    /** runnerTokenStore.delete */
    method DropToken(ghost s: State)
      requires Sees(s)
      modifies this
      ensures Sees(s.(token := false))
    {
      hide OneJob, GetByLoop;
      hasToken := false;
    }

    method PersistFinalJobStatus(job: LocalJob, isSuccess: bool, now: int, ghost s: State)
      requires Sees(s) && Mine(job)
      modifies jobStore
      ensures Sees(s.(record := FinalSaved(s.record, job, isSuccess, now)))
    {
      if job.finalStatusPersistedAt.Some? {
        return;
      }
      hide Sees, OneJob, GetByLoop;
      var current := Reread(job, s);
      var status := if isSuccess then COMPLETED else if job.status.CANCEL_PENDING? then CANCELLED else job.status;
      Save(current.(status := status, finalStatusPersistedAt := Some(now)), s);
    }

    method MarkRecoveryGiveUp(job: LocalJob, now: int, ghost s: State)
      requires Sees(s) && Mine(job)
      modifies jobStore
      ensures Sees(s.(record := GaveUp(s.record, job, now)))
    {
      var current := Reread(job, s);
      Save(current.(lastRecoveryError := Some("Exceeded retry cap (3)"), cloudFinalizedAt := OrNow(current.cloudFinalizedAt, now)), s);
    }

    method MarkRecoveryFailure(k: nat, r: Run, error: string, ghost s: State)
      requires Sees(s) && Mine(r.job) && AtStage(s, k) && s.runs[k] == r && r.dead
      modifies jobStore
      ensures Sees(Apply(s, Throws(k, error)))
    {
      var current := Reread(r.job, s);
      Save(current.(lastRecoveryError := Some(error)), s);
    }

    /** The end of a run and, for a dead job, the check of the retry cap. */
    method Finish(k: nat, r: Run, cloudFinalized: bool, retryable: bool, now: int, ghost s: State)
      requires Sees(s) && Mine(r.job)
      modifies this, jobStore
      ensures Sees(Finalization.Return(s, k, r, cloudFinalized, retryable, now))
    {
      if r.dead && !cloudFinalized && retryable {
        var latest := jobStore.GetByLoopId(loopId);
        if latest.Some? && latest.value.recoveryAttempts >= MAX_RECOVERY_ATTEMPTS {
          MarkRecoveryGiveUp(r.job, now, s);
          DropToken(s.(record := GaveUp(s.record, r.job, now)));
        }
      }
    }

    /** From the outcome of the cloud calls to the return. */
    method ConcludeRun(k: nat, r: Run, failed: bool, error: Option<string>, now: int, ghost s: State)
      requires Sees(s) && Mine(r.job)
      modifies this, jobStore
      ensures Sees(Conclude(s, k, r, failed, error, now))
    {
      hide Sees, IsRetryable, FinalSaved, Finalization.Return;
      var retryable := failed && IsRetryable(error);
      var current := Reread(r.job, s);
      var saved := if failed then current.(lastRecoveryError := error)
                   else current.(cloudFinalizedAt := OrNow(current.cloudFinalizedAt, r.at), lastRecoveryError := None);
      Save(saved, s);
      ghost var s1 := s.(record := Some(saved));
      if r.reason.LiveExit? {
        PersistFinalJobStatus(r.job, r.kind.SuccessKind?, now, s1);
        s1 := s1.(record := FinalSaved(Some(saved), r.job, r.kind.SuccessKind?, now));
      }
      if !failed || !retryable {
        DropToken(s1);
        s1 := s1.(token := false);
      }
      Finish(k, r, !failed, retryable, now, s1);
    }

    method BeginCloudStage(k: nat, r: Run, now: int, ghost s: State) returns (next: Option<Run>)
      requires Sees(s) && Mine(r.job)
      modifies this, jobStore
      ensures Sees(CloudStage(s, k, r, now)) && next == NextOf(CloudStage(s, k, r, now), k)
    {
      match r.kind
      case SuccessKind => next := Some(r.(stage := AwaitUpload));
      case ErrorKind => next := Some(r.(stage := AwaitSupport));
      case NoEvent =>
        ConcludeRun(k, r, false, None, now, s);
        next := None;
    }

    /** An EXECUTE run whose git work is not finalized yet does that first. */
    method BeginFinalize(k: nat, r: Run, now: int, ghost s: State) returns (next: Option<Run>)
      requires Sees(s) && Mine(r.job)
      modifies this, jobStore
      ensures Sees(Finalize(s, k, r, now)) && next == NextOf(Finalize(s, k, r, now), k)
    {
      if r.job.execute && r.kind.SuccessKind? && !r.job.executeFinalized {
        return Some(r.(stage := AwaitExecute));
      }
      next := BeginCloudStage(k, r, now, s);
    }

    static lemma NextByStatus(s: State, k: nat, r: Run, noWork: bool, now: int)
      ensures var next, status := NextOf(Resolve(s, k, r, noWork, now), k), FinalizationStatus.Checked(r.job.status, r.job.execute, noWork);
        && (next.Some? && (next.value.stage.AwaitExecute? || next.value.stage.AwaitUpload?) <==> status in {COMPLETED, RUNNING})
        && (next.Some? && next.value.stage.AwaitSupport? <==> status in {FAILED, STOPPED, UNKNOWN})
        && (next.None? <==> status !in {COMPLETED, RUNNING, FAILED, STOPPED, UNKNOWN})
    {
      hide Resolve, FinalizationStatus.Checked;
      FinalizationStatus.ResolveBegins(s, k, r, noWork, now, FinalizationStatus.Checked(r.job.status, r.job.execute, noWork));
    }

    /** From the resolved status to the next await. */
    method ResolveStatus(k: nat, r: Run, noWork: bool, now: int, ghost s: State) returns (next: Option<Run>)
      requires Sees(s) && Mine(r.job)
      modifies this, jobStore
      ensures Sees(Resolve(s, k, r, noWork, now)) && next == NextOf(Resolve(s, k, r, noWork, now), k)
      ensures var status := FinalizationStatus.Checked(r.job.status, r.job.execute, noWork);
        && (next.Some? && (next.value.stage.AwaitExecute? || next.value.stage.AwaitUpload?) <==> status in {COMPLETED, RUNNING})
        && (next.Some? && next.value.stage.AwaitSupport? <==> status in {FAILED, STOPPED, UNKNOWN})
        && (next.None? <==> status !in {COMPLETED, RUNNING, FAILED, STOPPED, UNKNOWN})
    {
      NextByStatus(s, k, r, noWork, now);
      hide Sees, FinalSaved, Finalize, KindOf, NextOf, Current;
      var resolved := r.job;
      if resolved.status in {COMPLETED, RUNNING} && resolved.execute && noWork {
        resolved := resolved.(status := FAILED);
      }
      assert resolved == WorkChecked(r.job, noWork);
      hide WorkChecked;
      var kind := KindOf(resolved.status);
      if r.reason == LiveExit {
        next := BeginFinalize(k, r.(job := resolved, kind := kind), now, s);
        return;
      }
      PersistFinalJobStatus(resolved, kind.SuccessKind?, now, s);
      ghost var s1 := s.(record := FinalSaved(s.record, resolved, kind.SuccessKind?, now));
      resolved := Reread(resolved, s1);
      next := BeginFinalize(k, r.(job := resolved, kind := kind), now, s1);
    }

    /** finalizeLoopFromRuntime, up to its first await. */
    method FinalizeLoopFromRuntime(k: nat, r: Run, alive: bool, noWork: bool, now: int, ghost s: State)
      returns (next: Option<Run>)
      requires Sees(s) && Mine(r.job)
      modifies this, jobStore
      ensures Sees(Enter(s, k, r, alive, noWork, now)) && next == NextOf(Enter(s, k, r, alive, noWork, now), k)
    {
      hide OneJob, GetByLoop, Resolve;
      if r.job.status.CANCEL_PENDING? && r.job.pid.Some? && alive {
        Finish(k, r.(kind := NoEvent), false, false, now, s);
        return None;
      }
      if !r.job.hasClaudeWorkDir {
        Finish(k, r.(kind := NoEvent), false, false, now, s);
        return None;
      }
      var job := if r.job.status.CANCEL_PENDING? then r.job.(status := CANCELLED) else r.job;
      if r.reason == BootRecovery && job.status == RUNNING {
        if job.hasStatePath {
          return Some(r.(job := job, stage := AwaitState));
        }
        job := job.(status := FAILED);
      }
      next := ResolveStatus(k, r.(job := job), noWork, now, s);
    }

    /** tryUploadArtifacts after its request, then up to the request that sends the completed event. */
    method RecordUpload(k: nat, r: Run, answer: Http, now: int, ghost s: State) returns (next: Run, sends: bool)
      requires Sees(s) && Mine(r.job)
      modifies jobStore
      ensures Sees(AfterUpload(s, k, r, answer, now)) && Some(next) == NextOf(AfterUpload(s, k, r, answer, now), k)
      ensures sends == (AfterUpload(s, k, r, answer, now).posts == s.posts + [k])
    {
      var upload := answer;
      if r.job.artifactsUploadedAt.Some? {
        upload := Sent;
      } else if answer.Sent? {
        var current := Reread(r.job, s);
        Save(current.(artifactsUploadedAt := Some(now)), s);
      }
      next := r.(stage := AwaitCompletedPost(upload));
      sends := r.job.completedEventPostedAt.None?;
      assert s.posts != s.posts + [k];
    }

    /** tryPostCompletedEvent or tryPostErrorEvent after its request, and the rest of the run. */
    method RecordPost(k: nat, r: Run, answer: Http, now: int, ghost s: State)
      requires Sees(s) && Mine(r.job) && (r.stage.AwaitCompletedPost? || r.stage.AwaitErrorPost?)
      modifies this, jobStore
      ensures Sees(AfterPost(s, k, r, answer, now))
    {
      hide OneJob, GetByLoop, Conclude;
      var upload := if r.stage.AwaitCompletedPost? then r.stage.upload else Sent;
      var post := answer;
      ghost var s1 := s;
      if r.job.completedEventPostedAt.Some? {
        post := Sent;
      } else if answer.Sent? {
        var current := Reread(r.job, s);
        Save(current.(completedEventPostedAt := Some(now)), s);
        s1 := s.(record := Some(Current(s.record, r.job).(completedEventPostedAt := Some(now))),
                 settled := if s.settled.Some? then s.settled else Some(s.started));
      }
      ConcludeRun(k, r, upload.Failed? || post.Failed?, FirstError(upload, post), now, s1);
    }

    // -------------------------------------------------------------------------------------------
    // The dead-job path of boot recovery
    // -------------------------------------------------------------------------------------------

    /** One candidate, up to the request for the loop's status. */
    method BeginDeadJobFinalization(candidate: LocalJob, now: int, ghost s: State) returns (next: Option<Run>)
      requires Sees(s) && Mine(candidate) && s.candidate == Some(candidate) && s.started !in s.runs
      modifies this, jobStore
      ensures Sees(BeginDeadJob(s, now)) && next == NextOf(BeginDeadJob(s, now), s.started)
    {
      var job := Reread(candidate, s);
      if job.recoveryAttempts >= MAX_RECOVERY_ATTEMPTS {
        MarkRecoveryGiveUp(job, now, s);
        DropToken(s.(record := GaveUp(s.record, job, now)));
        return None;
      }
      if !hasToken {
        return None;
      }
      next := Some(Run(AwaitStatus, BootRecovery, true, job, NoEvent, now));
    }

    method FinalizeAsTerminal(job: LocalJob, status: Status, now: int, ghost s: State)
      requires Sees(s) && Mine(job)
      modifies this, jobStore
      ensures Sees(Terminated(s, job, status, now))
    {
      var current := Reread(job, s);
      var terminal := current.(status := status, cloudFinalizedAt := Some(now));
      Save(terminal, s);
      DropToken(s.(record := Some(terminal)));
    }

    /** From the answer about the loop's status: counts the attempt and finalizes. */
    method ReplayFinalization(k: nat, r: Run, cloud: LoopStatus, alive: bool, noWork: bool, now: int, ghost s: State)
      returns (next: Option<Run>)
      requires Sees(s) && Mine(r.job)
      modifies this, jobStore
      ensures Sees(AfterStatus(s, k, r, cloud, alive, noWork, now))
      ensures next == NextOf(AfterStatus(s, k, r, cloud, alive, noWork, now), k)
    {
      hide OneJob, GetByLoop, Enter;
      ghost var s1 := s;
      if cloud.LoopTimedOut? {
        FinalizeAsTerminal(r.job, TIMED_OUT, now, s);
        return None;
      }
      if cloud.LoopGone? {
        FinalizeAsTerminal(r.job, UNKNOWN, now, s);
        s1 := Terminated(s, r.job, UNKNOWN, now);
      }
      var counted := r.job.(recoveryAttempts := r.job.recoveryAttempts + 1);
      Save(counted, s1);
      next := FinalizeLoopFromRuntime(k, r.(at := now), alive, noWork, now, s1.(record := Some(counted), calls := s.calls + 1));
    }
  }
}
