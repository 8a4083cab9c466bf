/** What a record that lost the event flag leads to: the event is sent again. */
module FinalizationHarm {
  import opened Prelude
  import opened Jobs
  import opened Finalization
  import opened FinalizationRuns

  /** Steps taken from any state, without writes by other code. */
  ghost predicate Continues(states: seq<State>, steps: seq<Step>) {
    && |states| == |steps| + 1
    && forall i | 0 <= i < |steps| :: !steps[i].Touch? && Enabled(states[i], steps[i]) && states[i + 1] == Apply(states[i], steps[i])
  }

  /** A repair of this record has a completed or an error event to send. */
  predicate Owes(job: LocalJob) {
    job.hasClaudeWorkDir && job.status in {COMPLETED, RUNNING, FAILED, STOPPED, UNKNOWN}
  }

  /** The state in which a repair runs alone: after a crash, up to its first await. */
  ghost function Repaired(s: State, now: int): State
    requires s.record.Some?
  {
    Apply(Apply(s, Crash), Start(ManualRepair, false, false, now))
  }

  /** Where a run waits that goes on to the cloud calls for this record. */
  function FirstStage(job: LocalJob): Stage {
    if job.status in {FAILED, STOPPED, UNKNOWN} then AwaitSupport
    else if job.execute && !job.executeFinalized then AwaitExecute else AwaitUpload
  }

  /** The run waits there with the flag that the record has, or it is over; it has sent nothing yet. */
  ghost predicate GoesOn(s: State, s': State, k: nat, job: LocalJob) {
    && s'.record.Some? && s'.posts == s.posts
    && (k in s'.runs <==> Owes(job))
    && (k in s'.runs ==>
          && s'.runs[k].kind == KindOf(job.status) && s'.runs[k].stage == FirstStage(job)
          && s'.runs[k].job.completedEventPostedAt == s'.record.value.completedEventPostedAt == job.completedEventPostedAt)
  }

  lemma FinalizeGoesOn(s: State, k: nat, r: Run, job: LocalJob, now: int)
    requires s.record.Some? && !r.dead && r.kind == KindOf(job.status) && job.hasClaudeWorkDir
    requires r.job.execute == job.execute && r.job.executeFinalized == job.executeFinalized
    requires r.job.completedEventPostedAt == s.record.value.completedEventPostedAt == job.completedEventPostedAt
    ensures GoesOn(s, Finalize(s, k, r, now), k, job)
  {
    hide Conclude;
    RepairConcludes(s, k, r, now);
  }

  lemma ResolveGoesOn(s: State, k: nat, r: Run, now: int)
    requires s.record == Some(r.job) && !r.dead && r.reason.ManualRepair? && r.job.hasClaudeWorkDir
    ensures GoesOn(s, Resolve(s, k, r, false, now), k, r.job)
  {
    hide Finalize, KindOf, GoesOn;
    var kind := KindOf(r.job.status);
    var record := FinalSaved(s.record, r.job, kind.SuccessKind?, now);
    FinalizeGoesOn(s.(record := record), k, r.(job := record.value, kind := kind), r.job, now);
    SameGoesOn(s, s.(record := record), Resolve(s, k, r, false, now), k, r.job);
  }

  lemma SameGoesOn(s: State, s1: State, s': State, k: nat, job: LocalJob)
    requires s1.posts == s.posts && GoesOn(s1, s', k, job)
    ensures GoesOn(s, s', k, job)
  {
  }

  /** A cancellation that is still pending is carried out, and owes nothing. */
  lemma CancelledIsOver(s: State, k: nat, r: Run, now: int)
    requires s.record == Some(r.job) && !r.dead && r.reason.ManualRepair? && r.job.hasClaudeWorkDir && r.job.status.CANCEL_PENDING?
    ensures GoesOn(s, Resolve(s, k, r.(job := r.job.(status := CANCELLED)), false, now), k, r.job)
  {
    hide Conclude;
    var job := r.job.(status := CANCELLED);
    var record := FinalSaved(s.record, job, false, now);
    RepairConcludes(s.(record := record), k, r.(job := record.value, kind := NoEvent), now);
  }

  /** A repair goes on to the cloud calls exactly when the record owes an event. */
  lemma RepairIs(s: State, now: int)
    requires s.record.Some?
    ensures GoesOn(s, Repaired(s, now), s.started, s.record.value)
  {
    hide Resolve, GoesOn;
    var job, k := s.record.value, s.started;
    var s1 := Apply(s, Crash).(started := s.started + 1);
    var r := Run(AwaitState, ManualRepair, false, job, NoEvent, now);
    assert Repaired(s, now) == Enter(s1, k, r, false, false, now);
    if !job.hasClaudeWorkDir {
      NothingToDo(s1, k, r, now);
    } else if job.status.CANCEL_PENDING? {
      CancelledIsOver(s1, k, r, now);
    } else {
      ResolveGoesOn(s1, k, r, now);
    }
    SameGoesOn(s, s1, Repaired(s, now), k, job);
  }

  lemma NothingToDo(s: State, k: nat, r: Run, now: int)
    requires s.record == Some(r.job) && !r.dead && !r.job.hasClaudeWorkDir
    ensures GoesOn(s, Return(s, k, r.(kind := NoEvent), false, false, now), k, r.job)
  {
  }

  /** A run that is not from the dead-job path and concludes is over; it has sent nothing. */
  lemma RepairConcludes(s: State, k: nat, r: Run, now: int)
    requires s.record.Some? && !r.dead
    ensures var s' := Conclude(s, k, r, false, None, now);
      s'.record.Some? && s'.posts == s.posts && k !in s'.runs
  {
  }

  lemma SupportSends(s: State, k: nat)
    requires AtStage(s, k) && s.runs[k].stage.AwaitSupport? && s.runs[k].job.completedEventPostedAt.None?
    ensures Enabled(s, SupportAnswered(k)) && Apply(s, SupportAnswered(k)).posts == s.posts + [k]
  {
  }

  lemma UploadSends(s: State, k: nat, now: int)
    requires AtStage(s, k) && s.runs[k].stage.AwaitUpload? && s.runs[k].job.completedEventPostedAt.None?
    ensures var step := UploadAnswered(k, Failed(None), now); Enabled(s, step) && Apply(s, step).posts == s.posts + [k]
  {
  }

  lemma ExecuteGoesOn(s: State, k: nat, now: int)
    requires AtStage(s, k) && s.runs[k].stage.AwaitExecute? && s.runs[k].kind.SuccessKind?
    requires s.record.Some? && s.record.value.completedEventPostedAt.None?
    ensures Enabled(s, ExecuteDone(k, now))
    ensures var s' := Apply(s, ExecuteDone(k, now));
      && s'.posts == s.posts && AtStage(s', k) && s'.runs[k].stage.AwaitUpload? && s'.runs[k].job.completedEventPostedAt.None?
  {
  }

  lemma OneMore(before: seq<State>, taken: seq<Step>, step: Step) returns (states: seq<State>, steps: seq<Step>)
    requires Continues(before, taken) && Enabled(before[|taken|], step) && !step.Touch?
    ensures Continues(states, steps) && states == before + [Apply(before[|taken|], step)] && steps == taken + [step]
  {
    hide Enabled, Apply;
    states, steps := before + [Apply(before[|taken|], step)], taken + [step];
  }

  /** A run that waits there, on a record without the flag, can send the event. */
  lemma SendsFrom(before: seq<State>, taken: seq<Step>, k: nat, job: LocalJob, now: int) returns (states: seq<State>, steps: seq<Step>)
    requires Continues(before, taken)
    requires var s := before[|taken|];
      && GoesOn(s, s, k, job) && Owes(job) && job.completedEventPostedAt.None?
    ensures Continues(states, steps) && before <= states && states[|steps|].posts == before[|taken|].posts + [k]
  {
    hide Apply;
    var s := before[|taken|];
    if s.runs[k].stage.AwaitSupport? {
      SupportSends(s, k);
      states, steps := OneMore(before, taken, SupportAnswered(k));
    } else if s.runs[k].stage.AwaitExecute? {
      ExecuteGoesOn(s, k, now);
      states, steps := OneMore(before, taken, ExecuteDone(k, now));
      UploadSends(states[|steps|], k, now);
      states, steps := OneMore(states, steps, UploadAnswered(k, Failed(None), now));
    } else {
      UploadSends(s, k, now);
      states, steps := OneMore(before, taken, UploadAnswered(k, Failed(None), now));
    }
  }

  /**
   * From every state whose record owes an event and lacks the flag some continuation sends the event,
   * again if it was sent before: a crash, then a repair, whose run starts after all that sent it.
   */
  lemma LostFlagRepeatsPost(s: State, now: int) returns (states: seq<State>, steps: seq<Step>)
    requires s.record.Some? && Owes(s.record.value) && s.record.value.completedEventPostedAt.None?
    ensures Continues(states, steps) && states[0] == s
    ensures states[|steps|].posts == s.posts + [s.started]
  {
    RepairIs(s, now);
    CrashKeepsRecord(s);
    hide Apply, Owes, GoesOn;
    var begin := Start(ManualRepair, false, false, now);
    states, steps := OneMore([s], [], Crash);
    states, steps := OneMore(states, steps, begin);
    GoesOnKeepsPosts(s, states[2], s.started, s.record.value);
    SameGoesOn(states[2], s, states[2], s.started, s.record.value);
    states, steps := SendsFrom(states, steps, s.started, s.record.value, now);
  }

  lemma GoesOnKeepsPosts(s: State, s': State, k: nat, job: LocalJob)
    requires GoesOn(s, s', k, job)
    ensures s'.posts == s.posts
  {
  }

  lemma CrashKeepsRecord(s: State)
    ensures Apply(s, Crash).record == s.record
  {
  }

  /**
   * A repair sends nothing exactly when the record owes nothing or has the flag; what it asks the cloud for
   * first follows from the record's status.
   */
  lemma RepairSendsIff(s: State, now: int)
    requires s.record.Some?
    ensures var s2, k, job := Repaired(s, now), s.started, s.record.value;
      && (k in s2.runs && s2.runs[k].job.completedEventPostedAt.None? <==> Owes(job) && job.completedEventPostedAt.None?)
      && (k in s2.runs && s2.runs[k].stage.AwaitSupport? <==> job.hasClaudeWorkDir && job.status in {FAILED, STOPPED, UNKNOWN})
      && (k in s2.runs && (s2.runs[k].stage.AwaitUpload? || s2.runs[k].stage.AwaitExecute?)
          <==> job.hasClaudeWorkDir && job.status in {COMPLETED, RUNNING})
  {
    hide Repaired;
    RepairIs(s, now);
  }

  /**
   * So an unclean step that loses the event flag of a record that owes an event makes the guarantee of
   * `NoLatePost` fail: the event was settled, and a run that starts later sends it.
   */
  lemma UncleanStepRepeatsPost(s: State, step: Step, now: int) returns (states: seq<State>, steps: seq<Step>)
    requires Inv(s) && Enabled(s, step) && !Clean(s, step)
    requires var s' := Apply(s, step);
      s'.settled.Some? && (s'.record.Some? ==> s'.record.value.completedEventPostedAt.None? && Owes(s'.record.value))
    ensures Continues(states, steps) && states[0] == Apply(s, step)
    ensures var s' := Apply(s, step); s'.settled.value <= s'.started && states[|steps|].posts == s'.posts + [s'.started]
  {
    var s' := Apply(s, step);
    StepKeepsInvExactly(s, step);
    SettledByNow(s, step);
    hide Apply, Inv, Clean, Owes;
    states, steps := LostFlagRepeatsPost(s', now);
  }

  lemma SettledByNow(s: State, step: Step)
    requires Inv(s) && Enabled(s, step)
    ensures var s' := Apply(s, step); s'.settled.Some? ==> s'.settled.value <= s'.started
  {
    StepGrows(s, step);
    if step.PostAnswered? {
      hide Conclude, FirstError;
    } else {
      SettlesOnlyByPost(s, step);
    }
  }

  lemma SettlesOnlyByPost(s: State, step: Step)
    requires Enabled(s, step) && !step.PostAnswered?
    ensures Apply(s, step).settled == s.settled
  {
    hide Enter, Resolve, CloudStage, Put, GaveUp, IsTerminal;
  }
}
