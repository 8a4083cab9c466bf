/** What holds over every sequence of crashes, boots, concurrent runs and answers from the cloud. */
module FinalizationRuns {
  import opened Prelude
  import opened Decimal
  import opened Jobs
  import opened Finalization

  /**
   * A step keeps the invariant exactly when it is clean; otherwise the record then lacks a flag that
   * was persisted or an attempt that was counted. Dropping the record from the store is always clean.
   */
  lemma StepKeepsInvExactly(s: State, step: Step)
    requires Inv(s) && Enabled(s, step)
    ensures Inv(Apply(s, step)) <==> Clean(s, step)
    ensures Lie(Apply(s, step)) <==> !Clean(s, step)
  {
    if Inv(Apply(s, step)) {
      LieNot(Apply(s, step));
    }
    hide Inv, Lie, Apply, Enabled, Clean;
    if step.Touch? || step.Evict? || step.Crash? || step.Boot? {
      PlainStepKeepsInv(s, step);
      PlainIsClean(s, step);
    } else if step.Throws? {
      ThrowsKeepsInv(s, step);
    } else if step.Start? {
      StartKeepsInv(s, step);
    } else if step.BeginDead? {
      BeginDeadKeepsInv(s, step);
    } else if step.StatusAnswered? {
      StatusKeepsInv(s, step);
    } else {
      RunStepKeepsInv(s, step);
    }
  }

  lemma PlainIsClean(s: State, step: Step)
    requires step.Touch? || step.Evict? || step.Crash? || step.Boot? || step.Start? || step.BeginDead?
    ensures Clean(s, step)
  {
  }

  lemma LieNot(s: State)
    requires Inv(s)
    ensures !Lie(s)
  {
  }

  ghost predicate IsRun(states: seq<State>, steps: seq<Step>) {
    && |states| == |steps| + 1
    && states[0].record.Some? && Untouched(states[0].record.value) && states[0] == Init(states[0].record.value, states[0].token)
    && forall i | 0 <= i < |steps| :: Enabled(states[i], steps[i]) && states[i + 1] == Apply(states[i], steps[i])
  }

  ghost predicate AllClean(states: seq<State>, steps: seq<Step>)
    requires |states| == |steps| + 1
  {
    forall i | 0 <= i < |steps| :: Clean(states[i], steps[i])
  }

  lemma {:induction false} RunKeepsInv(states: seq<State>, steps: seq<Step>, j: nat)
    requires IsRun(states, steps) && AllClean(states, steps) && j < |states|
    ensures Inv(states[j])
  {
    if j > 0 {
      RunKeepsInv(states, steps, j - 1);
      hide Inv, Apply, Clean;
      StepKeepsInvExactly(states[j - 1], steps[j - 1]);
    }
  }

  /** What no step takes back. */
  ghost predicate Grows(s: State, s': State) {
    && s.started <= s'.started && s.posts <= s'.posts && s.calls <= s'.calls
    && (s.settled.Some? ==> s'.settled == s.settled) && (s.uploadSaved ==> s'.uploadSaved) && s.reports <= s'.reports
  }

  lemma StepGrows(s: State, step: Step)
    requires Enabled(s, step)
    ensures Grows(s, Apply(s, step))
  {
    if step.UploadAnswered? || step.SupportAnswered? || step.PostAnswered? {
      CloudAnswerGrows(s, step);
    } else if step.StatusAnswered? {
      StatusAnswerGrows(s, step);
    } else {
      hide Enter, Resolve, CloudStage, GaveUp, AfterStatus, AfterUpload, AfterPost, SendEvent;
    }
  }

  lemma CloudAnswerGrows(s: State, step: Step)
    requires Enabled(s, step) && (step.UploadAnswered? || step.SupportAnswered? || step.PostAnswered?)
    ensures Grows(s, Apply(s, step))
  {
    hide Conclude, FirstError, Current;
    var k, r := step.k, s.runs[step.k];
    if step.UploadAnswered? {
      SendingGrows(s, s, k, r, AwaitCompletedPost(step.answer));
      hide SendEvent;
      SendingGrows(s, s, k, r, AwaitCompletedPost(Sent));
      var saved := s.(record := Some(Current(s.record, r.job).(artifactsUploadedAt := Some(step.now))), uploadSaved := true);
      SendingGrows(s, saved, k, r, AwaitCompletedPost(Sent));
    } else if step.SupportAnswered? {
      SendingGrows(s, s, k, r, AwaitErrorPost);
    } else {
      hide Put, SendEvent;
    }
  }

  lemma SendingGrows(s: State, s1: State, k: nat, r: Run, stage: Stage)
    requires s1 == s.(record := s1.record, uploadSaved := s1.uploadSaved) && (s.uploadSaved ==> s1.uploadSaved)
    ensures Grows(s, SendEvent(s1, k, r, stage))
  {
    hide Put;
  }

  lemma StatusAnswerGrows(s: State, step: Step)
    requires Enabled(s, step) && step.StatusAnswered?
    ensures Grows(s, Apply(s, step))
  {
    hide Enter, IsTerminal;
    var base := if step.cloud.LoopGone? then Terminated(s, s.runs[step.k].job, UNKNOWN, step.now) else s;
    SameTotalsGrow(s.(calls := s.calls + 1), Replay(base, step.k, s.runs[step.k], step.alive, step.noWork, step.now));
  }

  lemma SameTotalsGrow(s: State, s': State)
    requires SameTotals(s, s')
    ensures Grows(s, s')
  {
  }

  lemma GrowsOn(a: State, b: State, c: State)
    requires Grows(a, b) && Grows(b, c)
    ensures Grows(a, c)
  {
  }

  lemma GrowsNot(s: State)
    ensures Grows(s, s)
  {
  }

  lemma IsRunLengths(states: seq<State>, steps: seq<Step>)
    requires IsRun(states, steps)
    ensures |states| == |steps| + 1
  {
  }

  lemma StepAt(states: seq<State>, steps: seq<Step>, i: nat)
    requires IsRun(states, steps) && i < |steps|
    ensures Enabled(states[i], steps[i]) && states[i + 1] == Apply(states[i], steps[i])
  {
  }

  lemma {:induction false} RunGrows(states: seq<State>, steps: seq<Step>, i: nat, j: nat)
    requires IsRun(states, steps) && i <= j < |states|
    ensures Grows(states[i], states[j])
  {
    hide Grows, Apply, Enabled, IsRun;
    GrowsNot(states[i]);
    if i < j {
      IsRunLengths(states, steps);
      StepAt(states, steps, j - 1);
      RunGrows(states, steps, i, j - 1);
      StepGrows(states[j - 1], steps[j - 1]);
      GrowsOn(states[i], states[j - 1], states[j]);
    }
  }

  /**
   * Once `completedEventPostedAt` has been persisted, no run that starts later ever sends a completed
   * or error event, whatever crashes, boots and answers follow.
   */
  lemma NoLatePost(states: seq<State>, steps: seq<Step>, i: nat, j: nat, p: nat)
    requires IsRun(states, steps) && AllClean(states, steps) && i <= j < |states|
    requires states[i].record.Some? && states[i].record.value.completedEventPostedAt.Some?
    requires p < |states[j].posts|
    ensures states[j].posts[p] < states[i].started
    ensures states[j].record.Some? ==> states[j].record.value.completedEventPostedAt.Some?
  {
    RunKeepsInv(states, steps, i);
    RunKeepsInv(states, steps, j);
    RunGrows(states, steps, i, j);
  }

  /** If moreover no run was in flight at that point, nothing at all is sent afterwards. */
  lemma {:induction false} NothingSentAfterSettling(states: seq<State>, steps: seq<Step>, i: nat, j: nat)
    requires IsRun(states, steps) && AllClean(states, steps) && i <= j < |states|
    requires states[i].record.Some? && states[i].record.value.completedEventPostedAt.Some? && states[i].runs == map[]
    ensures states[j].posts == states[i].posts
    ensures forall k | k in states[j].runs :: k >= states[i].started
  {
    hide Apply, Inv, Enabled, IsRun, AllClean;
    IsRunLengths(states, steps);
    if i < j {
      NothingSentAfterSettling(states, steps, i, j - 1);
      StepAt(states, steps, j - 1);
      RunKeepsInv(states, steps, j - 1);
      RunKeepsInv(states, steps, i);
      RunGrows(states, steps, i, j - 1);
      SettledIsStarted(states[i]);
      LateRunsStaySilent(states[j - 1], steps[j - 1], states[i].started);
    }
  }

  lemma SettledIsStarted(s: State)
    requires Inv(s) && s.record.Some? && s.record.value.completedEventPostedAt.Some?
    ensures s.settled.Some? && s.settled.value <= s.started
  {
  }

  lemma LateRunsStaySilent(s: State, step: Step, n: nat)
    requires Inv(s) && Enabled(s, step) && s.settled.Some? && s.settled.value <= n <= s.started
    requires forall k | k in s.runs :: k >= n
    ensures Apply(s, step).posts == s.posts
    ensures forall k | k in Apply(s, step).runs :: k >= n
  {
    if step.StatusAnswered? || step.StateRead? || step.ExecuteDone? || step.UploadAnswered? || step.SupportAnswered? || step.PostAnswered? {
      assert RunOk(s, step.k, s.runs[step.k]);
    }
    SegmentsTouchOwnRun(s, step);
  }

  /** Only the stepping run changes among the runs, and only a run without the flag sends. */
  lemma SegmentsTouchOwnRun(s: State, step: Step)
    requires Enabled(s, step)
    ensures forall k | k in Apply(s, step).runs :: k in s.runs || k == s.started
    ensures Apply(s, step).posts != s.posts ==>
      (step.UploadAnswered? || step.SupportAnswered?) && s.runs[step.k].job.completedEventPostedAt.None?
  {
    if step.UploadAnswered? || step.SupportAnswered? {
      SendersTouchOwnRun(s, step);
    } else if step.PostAnswered? || step.StatusAnswered? {
      AnswersTouchOwnRun(s, step);
    } else {
      hide Enter, Resolve, CloudStage, Put, GaveUp, IsTerminal, Derived;
    }
  }

  lemma SendersTouchOwnRun(s: State, step: Step)
    requires Enabled(s, step) && (step.UploadAnswered? || step.SupportAnswered?)
    ensures Apply(s, step).runs.Keys <= s.runs.Keys
    ensures Apply(s, step).posts != s.posts ==> s.runs[step.k].job.completedEventPostedAt.None?
  {
    hide Put, Current;
  }

  lemma AnswersTouchOwnRun(s: State, step: Step)
    requires Enabled(s, step) && (step.PostAnswered? || step.StatusAnswered?)
    ensures Apply(s, step).runs.Keys <= s.runs.Keys && Apply(s, step).posts == s.posts
  {
    var k, r := step.k, s.runs[step.k];
    if step.PostAnswered? {
      hide Conclude, Current, FirstError;
    } else {
      StatusTouchesOwnRun(s, k, r, step.cloud, step.alive, step.noWork, step.now);
    }
  }

  lemma StatusTouchesOwnRun(s: State, k: nat, r: Run, cloud: LoopStatus, alive: bool, noWork: bool, now: int)
    requires k in s.runs
    ensures AfterStatus(s, k, r, cloud, alive, noWork, now).runs.Keys <= s.runs.Keys
    ensures AfterStatus(s, k, r, cloud, alive, noWork, now).posts == s.posts
  {
    hide Enter, Current;
  }

  /** Whatever a run reported as finalized in the cloud is backed by the record's flags, from then on. */
  lemma CloudFinalizedIsBacked(states: seq<State>, steps: seq<Step>, j: nat, m: nat)
    requires IsRun(states, steps) && AllClean(states, steps) && j < |states|
    requires m < |states[j].reports| && states[j].reports[m].cloudFinalized && states[j].record.Some?
    ensures states[j].reports[m].kind.SuccessKind? ==>
      states[j].record.value.artifactsUploadedAt.Some? && states[j].record.value.completedEventPostedAt.Some?
    ensures states[j].reports[m].kind.ErrorKind? ==> states[j].record.value.completedEventPostedAt.Some?
  {
    RunKeepsInv(states, steps, j);
    assert ReportOk(states[j], states[j].reports[m]);
  }

  /** Across all boots, the dead-job path starts at most three finalizations, and the record counts them. */
  lemma ReplayBound(states: seq<State>, steps: seq<Step>, i: nat, j: nat)
    requires IsRun(states, steps) && AllClean(states, steps) && i <= j < |states|
    ensures states[i].calls <= states[j].calls <= 3
    ensures states[i].record.Some? && states[j].record.Some? ==>
      states[i].record.value.recoveryAttempts <= states[j].record.value.recoveryAttempts == states[j].calls
  {
    RunKeepsInv(states, steps, i);
    RunKeepsInv(states, steps, j);
    RunGrows(states, steps, i, j);
  }

  /**
   * The answer that a dead loop is gone leaves no trace but the deleted token: the record that was
   * just made terminal is overwritten with the copy read before, and finalized as any other.
   */
  lemma GoneIsReplayedAsAnyOther(s: State, k: nat, r: Run, alive: bool, noWork: bool, now: int)
    ensures AfterStatus(s, k, r, LoopGone, alive, noWork, now)
         == AfterStatus(s.(token := false), k, r, OtherStatus, alive, noWork, now)
  {
    hide Replay, Terminated;
    TerminatedIs(s, r.job, UNKNOWN, now);
    ReplayOverwrites(Terminated(s, r.job, UNKNOWN, now), s.(token := false), k, r, alive, noWork, now);
  }

  lemma TerminatedIs(s: State, job: LocalJob, status: Status, now: int)
    ensures Terminated(s, job, status, now) == s.(token := false).(record := Terminated(s, job, status, now).record)
  {
    hide Current;
  }

  /** Whatever record the replay finds, it overwrites. */
  lemma ReplayOverwrites(a: State, b: State, k: nat, r: Run, alive: bool, noWork: bool, now: int)
    requires a == b.(record := a.record)
    ensures Replay(a, k, r, alive, noWork, now) == Replay(b, k, r, alive, noWork, now)
  {
    hide Enter;
    var counted := Some(r.job.(recoveryAttempts := r.job.recoveryAttempts + 1));
    assert a.(record := counted, calls := a.calls + 1) == b.(record := counted, calls := b.calls + 1);
  }

  // ---------------------------------------------------------------------------------------------
  // Retryable errors
  // ---------------------------------------------------------------------------------------------

  lemma {:induction false} NoStatusBefore(pre: string, rest: string)
    requires 'H' !in pre
    ensures FirstStatus(pre + rest) == FirstStatus(rest)
  {
    if pre == "" {
      assert pre + rest == rest;
    } else {
      assert (pre + rest)[0] == pre[0] && (pre + rest)[1..] == pre[1..] + rest;
      NoStatusBefore(pre[1..], rest);
    }
  }

  /** For the error texts of the HTTP client: retryable exactly for 429 and the server errors. */
  lemma RetryableStatuses(pre: string, digits: string, rest: string)
    requires 'H' !in pre && |digits| == 3 && AllDigits(digits) && (rest == "" || !IsWordChar(rest[0]))
    ensures IsRetryable(Some(pre + "HTTP " + digits + rest)) <==> Value(digits) == 429 || Value(digits) >= 500
  {
    FirstStatusIs(pre, digits, rest);
    hide FirstStatus, Value, AllDigits, IsWordChar;
    assert pre + "HTTP " + digits + rest != "";
  }

  lemma FirstStatusIs(pre: string, digits: string, rest: string)
    requires 'H' !in pre && |digits| == 3 && AllDigits(digits) && (rest == "" || !IsWordChar(rest[0]))
    ensures FirstStatus(pre + "HTTP " + digits + rest) == Some(Value(digits))
  {
    hide StatusHere, FirstStatus, Value, AllDigits, IsWordChar;
    var text := "HTTP " + (digits + rest);
    NoStatusBefore(pre, text);
    StatusAtStart(digits, rest);
    StatusFirst(text);
    Regroup(pre, "HTTP ", digits, rest);
  }

  lemma Regroup(a: string, b: string, c: string, d: string)
    ensures a + b + c + d == a + (b + (c + d))
  {
  }

  lemma StatusFirst(text: string)
    requires text != "" && StatusHere(text).Some?
    ensures FirstStatus(text) == StatusHere(text)
  {
    hide StatusHere;
  }

  lemma StatusAtStart(digits: string, rest: string)
    requires |digits| == 3 && AllDigits(digits) && (rest == "" || !IsWordChar(rest[0]))
    ensures StatusHere("HTTP " + (digits + rest)) == Some(Value(digits))
  {
    var text, after := "HTTP " + (digits + rest), digits + rest;
    assert text[4..] == " " + after && text[4] == ' ';
    OneSpace(digits, rest);
    assert IsSpace(' ');
    hide Value, IsWordChar, TrimStart, IsSpace, AllDigits;
    assert after[..3] == digits && (rest != "" ==> after[3] == rest[0]);
  }

  lemma OneSpace(digits: string, rest: string)
    requires |digits| == 3 && AllDigits(digits)
    ensures TrimStart(" " + (digits + rest)) == digits + rest
  {
    var after := digits + rest;
    assert (" " + after)[1..] == after;
    assert !IsSpace(digits[0]) by {
      assert IsDigit(digits[0]);
    }
    assert TrimStart(after) == after;
  }

  // ---------------------------------------------------------------------------------------------
  // The unclean steps really break it
  // ---------------------------------------------------------------------------------------------

  function Job(status: Status): LocalJob {
    LocalJob("j", "l", status, false, true, None, true, false, None, None, None, None, 0, None)
  }

  /**
   * The record is dropped from the store while the completed event is being sent. The run then writes
   * back its own copy, older than the upload, and reports success for a record that does not say that
   * the artifacts were uploaded.
   */
  lemma EvictionLosesFlag() returns (states: seq<State>, steps: seq<Step>)
    ensures IsRun(states, steps) && |steps| == 4 && steps[2] == Evict && !Clean(states[3], steps[3])
    ensures states[4].reports == [Report(SuccessKind, true)]
    ensures states[4].record.Some? && states[4].record.value.artifactsUploadedAt.None?
  {
    var s0 := Init(Job(COMPLETED), true);
    steps := [Start(ManualRepair, false, false, 1), UploadAnswered(0, Sent, 2), Evict, PostAnswered(0, Sent, 3)];
    var saved := Job(COMPLETED).(finalStatusPersistedAt := Some(1));
    var s1 := RepairUploads(s0, saved);
    var s2, s3 := UploadedThenEvicted(s1, saved);
    var s4 := StaleCopyWritten(s3, saved);
    hide *;
    states := [s0, s1, s2, s3, s4];
    FourStepRun(Job(COMPLETED), true, states, steps) by {
      JobIsUntouched(COMPLETED);
    }
  }

  lemma JobIsUntouched(status: Status)
    ensures Untouched(Job(status))
  {
  }

  lemma FourStepRun(job: LocalJob, token: bool, states: seq<State>, steps: seq<Step>)
    requires |states| == 5 && |steps| == 4 && Untouched(job) && states[0] == Init(job, token)
    requires Enabled(states[0], steps[0]) && states[1] == Apply(states[0], steps[0])
    requires Enabled(states[1], steps[1]) && states[2] == Apply(states[1], steps[1])
    requires Enabled(states[2], steps[2]) && states[3] == Apply(states[2], steps[2])
    requires Enabled(states[3], steps[3]) && states[4] == Apply(states[3], steps[3])
    ensures IsRun(states, steps)
  {
    hide Enabled, Apply, Untouched;
  }

  lemma RepairUploads(s0: State, saved: LocalJob) returns (s1: State)
    requires s0 == Init(Job(COMPLETED), true) && saved == Job(COMPLETED).(finalStatusPersistedAt := Some(1))
    ensures Enabled(s0, Start(ManualRepair, false, false, 1)) && s1 == Apply(s0, Start(ManualRepair, false, false, 1))
    ensures s1 == s0.(record := Some(saved), started := 1, runs := map[0 := Run(AwaitUpload, ManualRepair, false, saved, SuccessKind, 1)])
  {
    hide Conclude, Return, IsTerminal;
    s1 := Apply(s0, Start(ManualRepair, false, false, 1));
  }

  lemma UploadedThenEvicted(s1: State, saved: LocalJob) returns (s2: State, s3: State)
    requires s1.runs == map[0 := Run(AwaitUpload, ManualRepair, false, saved, SuccessKind, 1)] && s1.record == Some(saved)
    requires saved == Job(COMPLETED).(finalStatusPersistedAt := Some(1)) && s1.reports == []
    ensures Enabled(s1, UploadAnswered(0, Sent, 2)) && s2 == Apply(s1, UploadAnswered(0, Sent, 2))
    ensures Enabled(s2, Evict) && s3 == Apply(s2, Evict)
    ensures s3.record.None? && s3.uploadSaved && s3.reports == []
    ensures s3.runs == map[0 := Run(AwaitCompletedPost(Sent), ManualRepair, false, saved, SuccessKind, 1)]
  {
    s2 := Apply(s1, UploadAnswered(0, Sent, 2));
    s3 := Apply(s2, Evict);
  }

  lemma StaleCopyWritten(s3: State, saved: LocalJob) returns (s4: State)
    requires s3.runs == map[0 := Run(AwaitCompletedPost(Sent), ManualRepair, false, saved, SuccessKind, 1)]
    requires s3.record.None? && s3.uploadSaved && s3.reports == []
    requires saved.artifactsUploadedAt.None? && saved.completedEventPostedAt.None?
    ensures Enabled(s3, PostAnswered(0, Sent, 3)) && !Clean(s3, PostAnswered(0, Sent, 3)) && s4 == Apply(s3, PostAnswered(0, Sent, 3))
    ensures s4.reports == [Report(SuccessKind, true)]
    ensures s4.record.Some? && s4.record.value.artifactsUploadedAt.None?
  {
    hide IsRetryable, IsTerminal;
    s4 := Apply(s3, PostAnswered(0, Sent, 3));
    assert [] + [Report(SuccessKind, true)] == [Report(SuccessKind, true)];
  }

  /** The job FAILED, its final status persisted, and finalized in the cloud by run 1. */
  function Settled(): LocalJob {
    Job(FAILED).(finalStatusPersistedAt := Some(2), completedEventPostedAt := Some(3), cloudFinalizedAt := Some(2))
  }

  /**
   * Boot recovery waits for the loop's status while another run sends the error event and persists
   * that. Its stale copy is then written back, and a run started later sends the event again.
   */
  lemma StaleWriteRepeatsPost() returns (states: seq<State>, steps: seq<Step>)
    ensures IsRun(states, steps) && |steps| == 9 && steps[5].StatusAnswered? && !Clean(states[5], steps[5])
    ensures states[5].record.Some? && states[5].record.value.completedEventPostedAt.Some? && states[5].started == 2
    ensures states[9].posts == [1, 2]
  {
    hide Apply, AtStage;
    var s0, s1, s2, s3, s4, s5 := FiveSteps();
    var waiting := Run(AwaitStatus, BootRecovery, true, Job(FAILED), NoEvent, 1);
    var answered, again := StatusAnswered(0, OtherStatus, false, false, 4), Start(ManualRepair, false, false, 5);
    var s6 := StaleWrite(s5, waiting);
    var s7 := AfterCrash(s6);
    var s8, s9 := SendsAgain(s7);
    states := [s0, s1, s2, s3, s4, s5, s6, s7, s8, s9];
    steps := [Boot, BeginDead(1), Start(ManualRepair, false, false, 2), SupportAnswered(1), PostAnswered(1, Sent, 3),
              answered, Crash, again, SupportAnswered(2)];
  }

  lemma AfterCrash(s6: State) returns (s7: State)
    ensures Enabled(s6, Crash) && s7 == Apply(s6, Crash) == s6.(candidate := None, runs := map[])
  {
    s7 := Apply(s6, Crash);
  }

  lemma FiveSteps() returns (s0: State, s1: State, s2: State, s3: State, s4: State, s5: State)
    ensures s0 == Init(Job(FAILED), true)
    ensures Enabled(s0, Boot) && s1 == Apply(s0, Boot) && Enabled(s1, BeginDead(1)) && s2 == Apply(s1, BeginDead(1))
    ensures Enabled(s2, Start(ManualRepair, false, false, 2)) && s3 == Apply(s2, Start(ManualRepair, false, false, 2))
    ensures Enabled(s3, SupportAnswered(1)) && s4 == Apply(s3, SupportAnswered(1))
    ensures Enabled(s4, PostAnswered(1, Sent, 3)) && s5 == Apply(s4, PostAnswered(1, Sent, 3))
    ensures s5.record == Some(Settled()) && s5.started == 2 && s5.posts == [1] && s5.settled.Some?
    ensures s5.runs == map[0 := Run(AwaitStatus, BootRecovery, true, Job(FAILED), NoEvent, 1)]
  {
    s0 := Init(Job(FAILED), true);
    s1 := Apply(s0, Boot);
    s2 := Apply(s1, BeginDead(1));
    assert s2 == s0.(started := 1, runs := map[0 := Run(AwaitStatus, BootRecovery, true, Job(FAILED), NoEvent, 1)]);
    s5 := RunOneSettles(s2);
    hide Enter, AfterPost, SendEvent;
    s3 := Apply(s2, Start(ManualRepair, false, false, 2));
    s4 := Apply(s3, SupportAnswered(1));
  }

  lemma StaleWrite(s5: State, waiting: Run) returns (s6: State)
    requires s5.record == Some(Settled()) && s5.started == 2 && s5.posts == [1] && s5.settled.Some? && s5.runs == map[0 := waiting]
    requires waiting == Run(AwaitStatus, BootRecovery, true, Job(FAILED), NoEvent, 1)
    ensures Enabled(s5, StatusAnswered(0, OtherStatus, false, false, 4))
    ensures !Clean(s5, StatusAnswered(0, OtherStatus, false, false, 4))
    ensures s6 == Apply(s5, StatusAnswered(0, OtherStatus, false, false, 4))
    ensures s6.record == Some(Job(FAILED).(finalStatusPersistedAt := Some(4), recoveryAttempts := 1))
    ensures s6.posts == [1] && s6.started == 2
  {
    s6 := Apply(s5, StatusAnswered(0, OtherStatus, false, false, 4));
    assert s6.record == Some(Job(FAILED).(finalStatusPersistedAt := Some(4), recoveryAttempts := 1));
  }

  lemma SendsAgain(s7: State) returns (s8: State, s9: State)
    requires s7.record == Some(Job(FAILED).(finalStatusPersistedAt := Some(4), recoveryAttempts := 1))
    requires s7.posts == [1] && s7.started == 2 && s7.runs == map[]
    ensures Enabled(s7, Start(ManualRepair, false, false, 5)) && s8 == Apply(s7, Start(ManualRepair, false, false, 5))
    ensures Enabled(s8, SupportAnswered(2)) && s9 == Apply(s8, SupportAnswered(2)) && s9.posts == [1, 2]
  {
    s8 := Apply(s7, Start(ManualRepair, false, false, 5));
    assert s8.runs == map[2 := Run(AwaitSupport, ManualRepair, false, s7.record.value, ErrorKind, 5)];
    s9 := Apply(s8, SupportAnswered(2));
    assert [1] + [2] == [1, 2];
  }

  lemma RunOneSettles(s2: State) returns (s5: State)
    requires s2 == Init(Job(FAILED), true).(started := 1, runs := map[0 := Run(AwaitStatus, BootRecovery, true, Job(FAILED), NoEvent, 1)])
    ensures Enabled(s2, Start(ManualRepair, false, false, 2))
    ensures var s3 := Apply(s2, Start(ManualRepair, false, false, 2));
      && Enabled(s3, SupportAnswered(1))
      && var s4 := Apply(s3, SupportAnswered(1));
      && Enabled(s4, PostAnswered(1, Sent, 3)) && s5 == Apply(s4, PostAnswered(1, Sent, 3))
    ensures s5.record == Some(Settled()) && s5.started == 2 && s5.posts == [1] && s5.runs == s2.runs && s5.candidate.None?
    ensures s5.settled.Some?
  {
    var s3 := RunOneStarts(s2);
    var s4 := RunOneSends(s3);
    s5 := RunOneIsAnswered(s4, s2.runs);
  }

  /** The record of run 1, whose status it has persisted. */
  function Saved(): LocalJob {
    Job(FAILED).(finalStatusPersistedAt := Some(2))
  }

  lemma RunOneStarts(s2: State) returns (s3: State)
    requires s2.record == Some(Job(FAILED)) && s2.started == 1 && 1 !in s2.runs
    ensures Enabled(s2, Start(ManualRepair, false, false, 2)) && s3 == Apply(s2, Start(ManualRepair, false, false, 2))
    ensures s3 == s2.(record := Some(Saved()), started := 2,
                      runs := s2.runs[1 := Run(AwaitSupport, ManualRepair, false, Saved(), ErrorKind, 2)])
  {
    hide Conclude, Return, IsTerminal;
    s3 := Apply(s2, Start(ManualRepair, false, false, 2));
  }

  lemma RunOneSends(s3: State) returns (s4: State)
    requires 1 in s3.runs && s3.runs[1] == Run(AwaitSupport, ManualRepair, false, Saved(), ErrorKind, 2) && s3.posts == []
    ensures Enabled(s3, SupportAnswered(1)) && s4 == Apply(s3, SupportAnswered(1))
    ensures s4 == s3.(posts := [1], runs := s3.runs[1 := Run(AwaitErrorPost, ManualRepair, false, Saved(), ErrorKind, 2)])
  {
    s4 := Apply(s3, SupportAnswered(1));
    assert [] + [1] == [1];
  }

  lemma RunOneIsAnswered(s4: State, others: map<nat, Run>) returns (s5: State)
    requires 1 !in others && s4.runs == others[1 := Run(AwaitErrorPost, ManualRepair, false, Saved(), ErrorKind, 2)]
    requires s4.record == Some(Saved()) && s4.settled.None?
    ensures Enabled(s4, PostAnswered(1, Sent, 3)) && s5 == Apply(s4, PostAnswered(1, Sent, 3))
    ensures s5.record == Some(Settled()) && s5.started == s4.started && s5.posts == s4.posts && s5.runs == others
    ensures s5.candidate == s4.candidate && s5.settled.Some?
  {
    hide IsRetryable, IsTerminal;
    s5 := Apply(s4, PostAnswered(1, Sent, 3));
    assert s4.runs - {1} == others;
  }
}
