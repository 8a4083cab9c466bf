/**
 * What becomes of a command: whether it is accepted, what cancelling, a time-out and the answer of the
 * gateway put at the end of its history, and what is kept of it afterwards. Events are spelled out.
 */
module ExecutorOutcomes {
  import opened Prelude
  import opened CommandTypes
  import opened ExecutorModel
  import opened ExecutorSafety
  import opened ExecutorRuns
  import opened ExecutorHistory

  // ---------------------------------------------------------------------------------------------
  // Accepting commands
  // ---------------------------------------------------------------------------------------------

  /** The text is this capital name, in capitals or not. */
  predicate SpelledAs(text: string, name: string) {
    |text| == |name| && forall i | 0 <= i < |name| :: text[i] == name[i] || text[i] as int == name[i] as int + 32
  }

  predicate IsMethod(verb: string) {
    SpelledAs(verb, "GET") || SpelledAs(verb, "POST") || SpelledAs(verb, "PUT") || SpelledAs(verb, "PATCH") || SpelledAs(verb, "DELETE")
  }

  lemma UpperIs(text: string, name: string)
    requires forall i | 0 <= i < |name| :: 'A' <= name[i] <= 'Z'
    ensures Upper(text) == name <==> SpelledAs(text, name)
  {
    if |text| == |name| {
      assert forall i | 0 <= i < |name| :: UpperChar(text[i]) == name[i] <==> text[i] == name[i] || text[i] as int == name[i] as int + 32;
      assert forall i | 0 <= i < |name| :: Upper(text)[i] == UpperChar(text[i]);
    }
  }

  lemma UpperIsMethod(verb: string)
    ensures Upper(verb) in {"GET", "POST", "PUT", "PATCH", "DELETE"} <==> IsMethod(verb)
  {
    UpperIs(verb, "GET");
    UpperIs(verb, "POST");
    UpperIs(verb, "PUT");
    UpperIs(verb, "PATCH");
    UpperIs(verb, "DELETE");
    hide Upper, SpelledAs;
  }

  /** Why a command is refused: the verdict on its signature first, then its id, its method and its path. */
  ghost predicate Refused(c: Command, rejection: Option<string>, reason: string) {
    if rejection.Some? then reason == rejection.value
    else if Trimmed(c.id, "") then reason == "commandId is required"
    else if !IsMethod(c.verb) then reason == "unsupported method"
    else !("/api/gateway/" <= c.path) && reason == "path must start with /api/gateway/"
  }

  lemma RefusedIs(c: Command, rejection: Option<string>, reason: string)
    ensures Refused(c, rejection, reason) <==> reason == if rejection.Some? then rejection.value
      else if ValidateCommand(c).Some? then ValidateCommand(c).value else reason + "!"
  {
    TrimIs(c.id, "");
    UpperIsMethod(c.verb);
    hide Trimmed, Trim, Upper, IsMethod;
  }

  /** The command is acknowledged, tracked, and last in the queue, with an empty history. */
  ghost predicate Queues(s: State, s': State, c: Command) {
    && s' == s.(tracked := s'.tracked, queue := s.queue + [c], log := s.log + [Entry(c, [])], sent := s.sent + [AckSent(c.id, true, None)])
    && s'.tracked == s.tracked[c.id := Tracked(c, Queued, 0, 0, [], |s.log|)]
  }

  /**
   * A command that is not tracked is accepted exactly when its signature passes, its id is not blank, its
   * method is one of five and its path is a gateway path. Otherwise it leaves nothing but the answer why.
   */
  lemma AcceptedIff(s: State, c: Command, rejection: Option<string>, removed: set<Id>)
    requires c.id !in s.tracked - removed
    ensures var s0, s' := s.(tracked := s.tracked - removed), Enqueue(s, c, rejection, removed);
      && ((forall reason :: !Refused(c, rejection, reason)) ==>
            exists s1 :: Queues(s0, s1, c) && s' == Schedule(s1))
      && (forall reason | Refused(c, rejection, reason) :: s' == s0.(sent := s.sent + [AckSent(c.id, false, Some(reason))]))
  {
    hide Schedule, ValidateCommand, Refused;
    forall reason ensures Refused(c, rejection, reason) <==> reason == if rejection.Some? then rejection.value
      else if ValidateCommand(c).Some? then ValidateCommand(c).value else reason + "!"
    {
      RefusedIs(c, rejection, reason);
    }
    if rejection.None? && ValidateCommand(c).None? {
      forall reason ensures !Refused(c, rejection, reason) {
        assert |reason + "!"| == |reason| + 1;
      }
      assert Queues(s.(tracked := s.tracked - removed), AddCommand(s.(tracked := s.tracked - removed), c), c);
    } else {
      var reason := if rejection.Some? then rejection.value else ValidateCommand(c).value;
      assert Refused(c, rejection, reason);
    }
  }

  /** The terminal commands that expired ten minutes after their completion. */
  ghost predicate Old(t: Tracked, now: int) {
    t.phase.Terminal? && t.phase.completedAt != 0 && now - t.phase.completedAt > 600000
  }

  /** Pruning forgets all that expired; of the others none unless more than 200 are terminal. */
  lemma PruneForgets(tracked: map<Id, Tracked>, removed: set<Id>, now: int, id: Id)
    requires PruneAllows(tracked, removed, now) && id in tracked
    ensures Old(tracked[id], now) ==> id in removed
    ensures id in removed ==> tracked[id].phase.Terminal?
    ensures id in removed && !Old(tracked[id], now) ==>
      |set x | x in tracked && tracked[x].phase.Terminal? && !Old(tracked[x], now)| > 200
  {
    var expired := ExpiredIds(tracked, now);
    var rest := tracked - expired;
    var kept := set x | x in tracked && tracked[x].phase.Terminal? && !Old(tracked[x], now);
    assert TerminalIds(rest) == kept;
    if id in removed && !Old(tracked[id], now) {
      assert id in removed - expired && id in kept;
      assert kept - (removed - expired) < kept;
      Smaller(kept - (removed - expired), kept);
    }
  }

  lemma Smaller(a: set<Id>, b: set<Id>)
    requires a < b
    ensures |a| < |b|
  {
    var x :| x in b && x !in a;
    assert x in b - a && b == a + (b - a);
  }

  /**
   * Enqueueing an id that is queued, running, or finished within the last ten minutes (and among at most
   * 200) runs nothing: it is acknowledged again, and sent its whole buffer if it is finished.
   */
  lemma KnownIsNotRerun(s: State, c: Command, rejection: Option<string>, removed: set<Id>, now: int)
    requires PruneAllows(s.tracked, removed, now) && c.id in s.tracked && !Old(s.tracked[c.id], now)
    requires |set x | x in s.tracked && s.tracked[x].phase.Terminal? && !Old(s.tracked[x], now)| <= 200
    ensures var s', t := Enqueue(s, c, rejection, removed), s.tracked[c.id];
      && s' == s.(tracked := s.tracked - removed, sent := s'.sent) && c.id in s'.tracked
      && s'.sent == s.sent + [AckSent(c.id, true, None)] + (if t.phase.Terminal? then Resend(c.id, t.buffer, 0) else [])
  {
    PruneForgets(s.tracked, removed, now, c.id);
    hide PruneAllows, Schedule, ValidateCommand, Resend;
    var s0 := s.(tracked := s.tracked - removed);
    assert c.id in s0.tracked && s0.tracked[c.id] == s.tracked[c.id];
    assert s.sent + [AckSent(c.id, true, None)] + [] == s.sent + [AckSent(c.id, true, None)];
  }

  // ---------------------------------------------------------------------------------------------
  // Acknowledgements
  // ---------------------------------------------------------------------------------------------

  /** An acknowledgement drops exactly the covered events of a command that is not finished. */
  lemma AckDropsExactly(s: State, id: Id, sequence: nat, rec: Rec)
    requires id in s.tracked
    ensures var t, t' := s.tracked[id], Acknowledge(s, id, sequence).tracked[id];
      && t'.lastAcked >= t.lastAcked && t'.lastAcked >= sequence && t'.lastAcked in {t.lastAcked, sequence}
      && (rec in t'.buffer <==> rec in t.buffer && (t.phase.Terminal? || rec.sequence > t'.lastAcked))
  {
    KeepAfterMembers(s.tracked[id].buffer, Max(s.tracked[id].lastAcked, sequence), rec);
  }

  lemma {:induction false} KeepAfterMembers(buffer: seq<Rec>, acked: nat, rec: Rec)
    ensures rec in KeepAfter(buffer, acked) <==> rec in buffer && rec.sequence > acked
  {
    if buffer != [] {
      KeepAfterMembers(buffer[1..], acked, rec);
      assert buffer == [buffer[0]] + buffer[1..];
    }
  }

  // ---------------------------------------------------------------------------------------------
  // Cancelling and timing out
  // ---------------------------------------------------------------------------------------------

  /** The step asks to cancel the command of this execution. */
  predicate Cancels(s: State, step: Step, n: nat) {
    step.CancelStep? && n in s.runs && s.runs[n].id == step.id
  }

  predicate TimesOut(step: Step, n: nat) {
    step.TimeoutStep? && step.ticket == n
  }

  predicate Ends(step: Step, n: nat) {
    step.FinishStep? && step.ticket == n
  }

  /** What an execution in flight knows after the step. */
  function Noted(s: State, step: Step, n: nat): Run
    requires n in s.runs
  {
    if Cancels(s, step, n) then s.runs[n].(cancelReason := Some(step.reason))
    else if TimesOut(step, n) then s.runs[n].(timedOut := true)
    else s.runs[n]
  }

  /** What is in flight has started, and starting adds executions that nobody has noted anything about. */
  ghost predicate RunsKept(s: State, s': State) {
    && s.starts <= s'.starts
    && (forall n | n in s.runs :: n in s'.runs && s'.runs[n] == s.runs[n])
    && (forall n | n in s'.runs && n !in s.runs ::
          n !in s.starts && n in s'.starts && s'.runs[n].cancelReason.None? && !s'.runs[n].timedOut)
  }

  ghost predicate RunsStarted(s: State) {
    forall n | n in s.runs :: n in s.starts
  }

  lemma {:induction false} FillKeepsRuns(s: State)
    requires Core(s) && RunsStarted(s)
    ensures RunsKept(s, Fill(s))
    decreases |s.queue|
  {
    hide FlightOk, TrackedOk, LocksOk, FifoOk, AccountedOk, HistoryOk, EndsOk, Execute, Dequeues, RunsKept, RunsStarted;
    if CanStart(s) {
      var i := FirstFree(s.queue, s.lockOwners);
      ExecuteKeepsQueue(s.(queue := RemoveAt(s.queue, i)), s.queue[i]);
      StartIs(s, i);
      QueuedIsFresh(s, i);
      StartKeepsCore(s);
      OneMoreStart(s, StartAt(s, i), s.tracked[s.queue[i].id].ticket);
      FillKeepsRuns(StartAt(s, i));
      KeptOn(s, StartAt(s, i), Fill(StartAt(s, i)));
    } else {
      KeptAlike(s, s);
    }
  }

  lemma OneMoreStart(s: State, s': State, n: nat)
    requires RunsStarted(s) && n !in s.starts && s'.starts == s.starts + [n]
    requires n in s'.runs && s'.runs == s.runs[n := s'.runs[n]] && s'.runs[n].cancelReason.None? && !s'.runs[n].timedOut
    ensures RunsKept(s, s') && RunsStarted(s')
  {
    assert n in s'.starts by { assert s'.starts[|s.starts|] == n; }
  }

  lemma KeptOn(a: State, b: State, c: State)
    requires RunsKept(a, b) && RunsKept(b, c)
    ensures RunsKept(a, c)
  {
  }

  lemma KeptAlike(s: State, s': State)
    requires s'.runs == s.runs && s'.starts == s.starts
    ensures RunsKept(s, s')
  {
  }

  /** What a step leaves of the executions in flight before it, and what is new. */
  ghost predicate RunsNoted(s: State, step: Step, s': State) {
    && s.starts <= s'.starts
    && (forall n | n in s.runs && !Ends(step, n) :: n in s'.runs && s'.runs[n] == Noted(s, step, n))
    && (forall n | n in s.runs && Ends(step, n) :: n !in s'.runs)
    && (forall n | n in s'.runs && n !in s.runs ::
          n !in s.starts && n in s'.starts && s'.runs[n].cancelReason.None? && !s'.runs[n].timedOut)
  }

  /** A step that schedules in the end. */
  lemma SchedulesNotes(s: State, step: Step, s1: State)
    requires RunsStarted(s) && Core(s1) && s1.starts == s.starts
    requires s1.runs == (if step.FinishStep? then s.runs - {step.ticket} else s.runs)
    requires !step.CancelStep? && !step.TimeoutStep? && (step.FinishStep? ==> step.ticket in s.runs)
    ensures RunsNoted(s, step, Schedule(s1))
  {
    hide Core, Fill;
    assert RunsStarted(s1);
    if s1.connected {
      FillKeepsRuns(s1);
      KeptNotes(s, step, s1, Fill(s1));
    } else {
      KeptAlike(s1, s1);
      KeptNotes(s, step, s1, s1);
    }
  }

  lemma KeptNotes(s: State, step: Step, s1: State, s': State)
    requires RunsStarted(s) && s1.starts == s.starts && RunsKept(s1, s')
    requires s1.runs == (if step.FinishStep? then s.runs - {step.ticket} else s.runs)
    requires !step.CancelStep? && !step.TimeoutStep? && (step.FinishStep? ==> step.ticket in s.runs)
    ensures RunsNoted(s, step, s')
  {
  }

  /** A step that schedules nothing and neither starts nor ends an execution. */
  lemma QuietNotes(s: State, step: Step, s': State)
    requires RunsStarted(s) && s'.starts == s.starts && s'.runs.Keys == s.runs.Keys && !step.FinishStep?
    requires forall n | n in s.runs :: s'.runs[n] == Noted(s, step, n)
    ensures RunsNoted(s, step, s')
  {
  }

  lemma StepNotes(s: State, step: Step)
    requires Inv(s) && Enabled(s, step) && Clean(s, step) && RunsStarted(s)
    ensures RunsNoted(s, step, Apply(s, step))
  {
    hide QueueOk, FlightOk, TrackedOk, LocksOk, FifoOk, AccountedOk, HistoryOk, EndsOk, Fill, RunsNoted, RunsStarted, EmitAndMark, Noted;
    match step
    case SetConnected(on) =>
      SameViewKeepsCore(s, s.(connected := on));
      SchedulesNotes(s, step, s.(connected := on));
    case EnqueueStep(_, _, _, _) => EnqueueNotes(s, step);
    case CancelStep(_, _, _) => CancelNotes(s, step);
    case FinishStep(n, ending, now) =>
      FinishNotes(s, step);
    case ReplyStep(n, status, ok, data, now) =>
      EmitFrame(s, s.runs[n].id, ReplyEvent(status, ok, data), now);
      EmitFrame(EmitAndMark(s, s.runs[n].id, ReplyEvent(status, ok, data), now), s.runs[n].id, PLAIN_DONE, now);
      PlainNotes(s, step, Apply(s, step));
    case LineStep(n, e, now) =>
      EmitFrame(s, s.runs[n].id, e, now);
      PlainNotes(s, step, Apply(s, step));
    case CloseStep(n, _, now) =>
      EmitFrame(s, s.runs[n].id, PLAIN_DONE, now);
      PlainNotes(s, step, Apply(s, step));
    case TimeoutStep(n) => TimeoutNotes(s, step);
    case _ => PlainNotes(s, step, Apply(s, step));
  }

  lemma PlainNotes(s: State, step: Step, s': State)
    requires RunsStarted(s) && s'.starts == s.starts && s'.runs == s.runs
    requires !step.FinishStep? && !step.CancelStep? && !step.TimeoutStep?
    ensures RunsNoted(s, step, s')
  {
  }

  lemma TimeoutNotes(s: State, step: Step)
    requires Enabled(s, step) && step.TimeoutStep? && RunsStarted(s)
    ensures RunsNoted(s, step, Apply(s, step))
  {
    QuietNotes(s, step, Apply(s, step));
  }

  lemma EnqueueNotes(s: State, step: Step)
    requires Inv(s) && Enabled(s, step) && step.EnqueueStep? && Clean(s, step) && RunsStarted(s)
    ensures RunsNoted(s, step, Apply(s, step))
  {
    hide Inv, Core, RunsNoted, RunsStarted, Schedule, Enqueue, Clean, PruneAllows, ValidateCommand;
    var s0 := s.(tracked := s.tracked - step.removed);
    EnqueueIs(s, step.command, step.rejection, step.removed);
    if Accepts(s, step) {
      hide Accepts;
      AcceptKeepsCore(s, step);
      SchedulesNotes(s, step, AddCommand(s0, step.command));
    } else {
      PlainNotes(s, step, Apply(s, step));
    }
  }

  lemma AcceptKeepsCore(s: State, step: Step)
    requires Inv(s) && Enabled(s, step) && Clean(s, step) && Accepts(s, step)
    ensures Core(AddCommand(s.(tracked := s.tracked - step.removed), step.command))
  {
    hide QueueOk, FlightOk, TrackedOk, LocksOk, FifoOk, AccountedOk, HistoryOk, EndsOk, AddCommand;
    PruneKeepsInv(s, step.removed);
    AddKeepsCore(s.(tracked := s.tracked - step.removed), step.command);
  }

  lemma CancelNotes(s: State, step: Step)
    requires Inv(s) && step.CancelStep? && RunsStarted(s)
    ensures RunsNoted(s, step, Apply(s, step))
  {
    hide QueueOk, FlightOk, TrackedOk, LocksOk, FifoOk, AccountedOk, HistoryOk, EndsOk, RunsNoted, RunsStarted, EmitAndMark, Apply;
    if IndexOf(s.queue, step.id) < |s.queue| {
      CancelQueuedNotes(s, step);
    } else {
      CancelRunningNotes(s, step);
    }
  }

  lemma CancelQueuedNotes(s: State, step: Step)
    requires Core(s) && step.CancelStep? && RunsStarted(s) && IndexOf(s.queue, step.id) < |s.queue|
    ensures RunsNoted(s, step, Apply(s, step))
  {
    hide FlightOk, LocksOk, FifoOk, EndsOk, RunsNoted, RunsStarted, EmitAndMark;
    var i := IndexOf(s.queue, step.id);
    QueuedIsFresh(s, i);
    EmitFrame(s.(queue := RemoveAt(s.queue, i)), step.id, CancelledDone(step.reason), step.now);
    NotInFlight(s, step);
    hide QueueOk, TrackedOk, AccountedOk, HistoryOk;
    QuietNotes(s, step, Apply(s, step));
  }

  lemma CancelRunningNotes(s: State, step: Step)
    requires FlightOk(s) && step.CancelStep? && RunsStarted(s) && IndexOf(s.queue, step.id) == |s.queue|
    ensures RunsNoted(s, step, Apply(s, step))
  {
    hide FlightOk, RunsStarted, RunsNoted, IndexOf;
    CancelFlags(s, step);
    hide *;
    QuietNotes(s, step, Apply(s, step));
  }

  lemma CancelFlags(s: State, step: Step)
    requires FlightOk(s) && step.CancelStep? && IndexOf(s.queue, step.id) == |s.queue|
    ensures var s' := Apply(s, step);
      s'.runs.Keys == s.runs.Keys && s'.starts == s.starts && forall n | n in s.runs :: s'.runs[n] == Noted(s, step, n)
  {
    hide *;
    OnlyRunOf(s, step.id);
    CancelIs(s, step.id, step.reason, step.now);
    ApplyCancel(s, step);
    NotedIs(s, step);
  }

  lemma OnlyRunOf(s: State, id: Id)
    requires FlightOk(s)
    ensures forall n | n in s.runs :: s.runs[n].id == id <==> id in s.inFlight && s.inFlight[id] == n
    ensures id in s.inFlight ==> s.inFlight[id] in s.runs
  {
  }

  lemma CancelIs(s: State, id: Id, reason: string, now: int)
    requires IndexOf(s.queue, id) == |s.queue|
    ensures Cancel(s, id, reason, now) ==
      if id in s.inFlight && s.inFlight[id] in s.runs
      then s.(runs := s.runs[s.inFlight[id] := s.runs[s.inFlight[id]].(cancelReason := Some(reason))]) else s
  {
    hide EmitAndMark, IndexOf;
  }

  lemma ApplyCancel(s: State, step: Step)
    requires step.CancelStep?
    ensures Enabled(s, step) && Apply(s, step) == Cancel(s, step.id, step.reason, step.now)
  {
    hide Cancel;
  }

  lemma NotedIs(s: State, step: Step)
    requires step.CancelStep?
    ensures forall n | n in s.runs ::
      Noted(s, step, n) == if s.runs[n].id == step.id then s.runs[n].(cancelReason := Some(step.reason)) else s.runs[n]
  {
  }

  lemma NotInFlight(s: State, step: Step)
    requires FlightOk(s) && step.CancelStep? && step.id !in s.inFlight
    ensures forall n | n in s.runs :: !Cancels(s, step, n)
  {
  }

  lemma FinishNotes(s: State, step: Step)
    requires Inv(s) && Enabled(s, step) && step.FinishStep? && RunsStarted(s)
    ensures RunsNoted(s, step, Apply(s, step))
  {
    hide QueueOk, FlightOk, TrackedOk, LocksOk, FifoOk, AccountedOk, HistoryOk, EndsOk, Fill, RunsNoted, RunsStarted, EmitAndMark;
    var n := step.ticket;
    var s1 := Closed(s, n, step.ending, step.now);
    EmitFrame(s, s.runs[n].id, ClosingEvent(s.runs[n], step.ending), step.now);
    ClosedKeepsOthers(s, n, step.ending, step.now);
    ReleaseKeepsCore(s1, n);
    SchedulesNotes(s, step, Release(s1, n));
  }

  // ---------------------------------------------------------------------------------------------
  // Over every run
  // ---------------------------------------------------------------------------------------------

  /** Some step before the `k`-th state asked to cancel the command while this execution was in flight. */
  ghost predicate CancelledBefore(states: seq<State>, steps: seq<Step>, n: nat, k: nat)
    requires |states| == |steps| + 1 && k <= |steps|
  {
    exists i :: 0 <= i < k && Cancels(states[i], steps[i], n)
  }

  ghost predicate TimedOutBefore(states: seq<State>, steps: seq<Step>, n: nat, k: nat)
    requires |states| == |steps| + 1 && k <= |steps|
  {
    exists i :: 0 <= i < k && n in states[i].runs && TimesOut(steps[i], n)
  }

  /** The last request to cancel it gave this reason. */
  ghost predicate CancelledFor(states: seq<State>, steps: seq<Step>, n: nat, k: nat, reason: string)
    requires |states| == |steps| + 1 && k <= |steps|
  {
    exists i :: LastCancel(states, steps, n, k, reason, i)
  }

  ghost predicate LastCancel(states: seq<State>, steps: seq<Step>, n: nat, k: nat, reason: string, i: int)
    requires |states| == |steps| + 1 && k <= |steps|
  {
    && 0 <= i < k && Cancels(states[i], steps[i], n) && steps[i].reason == reason
    && forall l | i < l < k :: !Cancels(states[l], steps[l], n)
  }

  ghost predicate Knows(states: seq<State>, steps: seq<Step>, n: nat, k: nat)
    requires |states| == |steps| + 1 && k <= |steps| && n in states[k].runs
  {
    var run := states[k].runs[n];
    && (run.cancelReason.Some? <==> CancelledBefore(states, steps, n, k))
    && (run.cancelReason.Some? ==> CancelledFor(states, steps, n, k, run.cancelReason.value))
    && (run.timedOut <==> TimedOutBefore(states, steps, n, k))
  }

  lemma {:induction false} RunsAreStarted(states: seq<State>, steps: seq<Step>, k: nat)
    requires CleanRun(states, steps) && k < |states|
    ensures RunsStarted(states[k])
  {
    NoneAtFirst(states, steps);
    if k > 0 {
      hide Inv, CleanRun, Apply, Enabled, Clean, RunsStarted, RunsNoted;
      RunsAreStarted(states, steps, k - 1);
      RunKeepsInv(states, steps, k - 1);
      RunStep(states, steps, k - 1);
      StepNotes(states[k - 1], steps[k - 1]);
      NotedAreStarted(states[k - 1], steps[k - 1], states[k]);
    }
  }

  lemma NotedAreStarted(s: State, step: Step, s': State)
    requires RunsStarted(s) && RunsNoted(s, step, s')
    ensures RunsStarted(s')
  {
    MembersOfPrefix(s.starts, s'.starts);
  }

  lemma MembersOfPrefix(a: seq<nat>, b: seq<nat>)
    requires a <= b
    ensures forall n | n in a :: n in b
  {
    forall n | n in a ensures n in b {
      var x :| 0 <= x < |a| && a[x] == n;
      assert b[x] == n;
    }
  }

  /** Every step obeys this; so does what an execution has started since. */
  lemma StepAt(states: seq<State>, steps: seq<Step>, k: nat)
    requires CleanRun(states, steps) && k < |steps|
    ensures |states| == |steps| + 1 && RunsStarted(states[k]) && RunsNoted(states[k], steps[k], states[k + 1])
  {
    NoneAtFirst(states, steps);
    hide Inv, CleanRun, Apply, Enabled, Clean, RunsStarted, RunsNoted;
    RunsAreStarted(states, steps, k);
    RunKeepsInv(states, steps, k);
    RunStep(states, steps, k);
    StepNotes(states[k], steps[k]);
  }

  lemma {:induction false} StartsGrow(states: seq<State>, steps: seq<Step>, i: nat, k: nat)
    requires CleanRun(states, steps) && i <= k < |states|
    ensures states[i].starts <= states[k].starts
  {
    if i < k {
      StartsGrow(states, steps, i, k - 1);
      StepAt(states, steps, k - 1);
    }
  }

  /** What an execution in flight knows of cancellations and time-outs is what the steps so far were. */
  lemma {:induction false} FlightKnows(states: seq<State>, steps: seq<Step>, n: nat, k: nat)
    requires CleanRun(states, steps) && k < |states| && n in states[k].runs
    ensures |states| == |steps| + 1 && Knows(states, steps, n, k)
  {
    hide Knows, CleanRun, RunsNoted, RunsStarted;
    NoneAtFirst(states, steps);
    StepAt(states, steps, k - 1);
    if n in states[k - 1].runs {
      FlightKnows(states, steps, n, k - 1);
      KnowsMore(states, steps, n, k);
    } else {
      forall i | 0 <= i < k ensures n !in states[i].runs {
        StartsGrow(states, steps, i, k - 1);
        if i < k - 1 {
          StepAt(states, steps, i);
        }
        NotInFlightBefore(states[i], states[k - 1], steps[k - 1], states[k], n);
      }
      KnowsNothing(states, steps, n, k);
    }
  }

  lemma NoneAtFirst(states: seq<State>, steps: seq<Step>)
    requires CleanRun(states, steps)
    ensures |states| == |steps| + 1 && states[0].runs == map[]
  {
  }

  lemma NotInFlightBefore(a: State, s: State, step: Step, s': State, n: nat)
    requires RunsStarted(a) && a.starts <= s.starts && RunsNoted(s, step, s') && n in s'.runs && n !in s.runs
    ensures n !in a.runs
  {
    MembersOfPrefix(a.starts, s.starts);
  }

  lemma KnowsNothing(states: seq<State>, steps: seq<Step>, n: nat, k: nat)
    requires |states| == |steps| + 1 && 0 < k <= |steps| && RunsNoted(states[k - 1], steps[k - 1], states[k])
    requires n in states[k].runs && forall i | 0 <= i < k :: n !in states[i].runs
    ensures Knows(states, steps, n, k)
  {
  }

  lemma KnowsMore(states: seq<State>, steps: seq<Step>, n: nat, k: nat)
    requires |states| == |steps| + 1 && 0 < k <= |steps| && n in states[k - 1].runs && n in states[k].runs
    requires RunsNoted(states[k - 1], steps[k - 1], states[k]) && Knows(states, steps, n, k - 1)
    ensures Knows(states, steps, n, k)
  {
    var s, step := states[k - 1], steps[k - 1];
    assert states[k].runs[n] == Noted(s, step, n);
    hide RunsNoted;
    var before := k - 1;
    var reason := if s.runs[n].cancelReason.Some? then s.runs[n].cancelReason.value else "";
    if Cancels(s, step, n) {
      assert LastCancel(states, steps, n, k, step.reason, k - 1);
    } else if i :| LastCancel(states, steps, n, before, reason, i) {
      assert LastCancel(states, steps, n, k, reason, i);
    }
    hide Cancels, TimesOut;
  }

  // ---------------------------------------------------------------------------------------------
  // The end of a history
  // ---------------------------------------------------------------------------------------------

  /** The command's history has these events more, and the command is as they left it. */
  ghost predicate Appends(s: State, s': State, n: nat, events: seq<Event>) {
    n < |s.log| && n < |s'.log| && s'.log[n].command == s.log[n].command && s'.log[n].history == s.log[n].history + events
  }

  lemma EmitAppends(s: State, n: nat, e: Event, now: int)
    requires Core(s) && n in s.runs
    ensures var id := s.runs[n].id; Appends(s, EmitAndMark(s, id, e, now), n, if Live(s, id) then [e] else [])
  {
    hide QueueOk, LocksOk, FifoOk, AccountedOk, HistoryOk, EndsOk, EmitAndMark;
    var id := s.runs[n].id;
    RunningIsNotQueued(s, n);
    if Live(s, id) {
      EmitTouches(s, id, e, now);
    } else {
      NotLive(s, id, e, now);
    }
  }

  lemma NotLive(s: State, id: Id, e: Event, now: int)
    requires !Live(s, id)
    ensures EmitAndMark(s, id, e, now) == s
  {
  }

  lemma FinishAppends(s: State, n: nat, ending: Ending, now: int)
    requires Inv(s) && n in s.runs
    ensures Appends(s, Finish(s, n, ending, now), n, if Live(s, s.runs[n].id) then [ClosingEvent(s.runs[n], ending)] else [])
  {
    hide QueueOk, FlightOk, TrackedOk, LocksOk, FifoOk, AccountedOk, HistoryOk, EndsOk, EmitAndMark, ClosingEvent, Fill, Waiting;
    var s1 := Closed(s, n, ending, now);
    EmitAppends(s, n, ClosingEvent(s.runs[n], ending), now);
    if !OwnCommandOpen(s, n) {
      NotOpenIsNotLive(s, n);
    }
    ClosedKeepsOthers(s, n, ending, now);
    ReleaseKeepsCore(s1, n);
    EndedIsNotWaiting(s1, n);
    FillLeaves(Release(s1, n), n);
  }

  lemma EndedIsNotWaiting(s: State, n: nat)
    requires Core(s) && n in s.runs && n < |s.log|
    ensures !Waiting(Release(s, n), n)
  {
    hide QueueOk, LocksOk, FifoOk, AccountedOk, HistoryOk, EndsOk;
    RunningIsNotQueued(s, n);
  }

  /** What a failing execution leaves: the cancellation asked for last, or else the time-out, or else the failure. */
  ghost predicate FailsWith(states: seq<State>, steps: seq<Step>, n: nat, k: nat, message: string, e: Event)
    requires |states| == |steps| + 1 && k <= |steps|
  {
    if CancelledBefore(states, steps, n, k) then
      exists reason :: CancelledFor(states, steps, n, k, reason)
        && e == Event(Done, JObj(map["type" := JStr("done"), "cancelled" := JBool(true), "reason" := JStr(reason)]))
    else if TimedOutBefore(states, steps, n, k) then
      e == Event(Error, JObj(map["type" := JStr("error"), "terminal" := JBool(true), "code" := JStr("timeout"),
                                 "error" := JStr("command timed out")]))
    else e == Event(Error, JObj(map["type" := JStr("error"), "terminal" := JBool(true), "error" := JStr(message)]))
  }

  /**
   * Over every run: when the gateway call of a command throws and the command has not ended yet, its
   * history ends with its cancellation if one was asked for while it was in flight, with the time-out if
   * its timer had fired, and with the failure otherwise. If it has ended, nothing is added.
   */
  lemma ThrownEnds(states: seq<State>, steps: seq<Step>, k: nat, n: nat, message: string, now: int) returns (e: Event)
    requires CleanRun(states, steps) && k < |steps| && steps[k] == FinishStep(n, Threw(message), now)
    ensures |states| == |steps| + 1 && n in states[k].runs && FailsWith(states, steps, n, k, message, e)
    ensures Appends(states[k], states[k + 1], n, if Live(states[k], states[k].runs[n].id) then [e] else [])
  {
    NoneAtFirst(states, steps);
    RunStep(states, steps, k);
    RunKeepsInv(states, steps, k);
    hide CleanRun, Inv, Live, Appends, FailsWith, Clean;
    FlightKnows(states, steps, n, k);
    e := ClosingEvent(states[k].runs[n], Threw(message));
    ClosingIs(states, steps, n, k, message);
    FinishAppends(states[k], n, Threw(message), now);
  }

  lemma ClosingIs(states: seq<State>, steps: seq<Step>, n: nat, k: nat, message: string)
    requires |states| == |steps| + 1 && k <= |steps| && n in states[k].runs && Knows(states, steps, n, k)
    ensures FailsWith(states, steps, n, k, message, ClosingEvent(states[k].runs[n], Threw(message)))
  {
    hide CancelledBefore, TimedOutBefore, CancelledFor;
  }

  /** A returning execution whose command has not ended adds a plain done. */
  lemma ReturnedEnds(states: seq<State>, steps: seq<Step>, k: nat, n: nat, now: int)
    requires CleanRun(states, steps) && k < |steps| && steps[k] == FinishStep(n, Returned, now)
    ensures n in states[k].runs
    ensures Appends(states[k], states[k + 1], n,
                    if Live(states[k], states[k].runs[n].id) then [Event(Done, JObj(map["type" := JStr("done")]))] else [])
  {
    RunStep(states, steps, k);
    RunKeepsInv(states, steps, k);
    hide CleanRun, Inv, Live, Appends, Clean;
    FinishAppends(states[k], n, Returned, now);
  }

  /** An answer that is no stream adds its result and a done. */
  lemma ReplyEnds(states: seq<State>, steps: seq<Step>, k: nat, n: nat, status: int, ok: bool, data: Json, now: int)
    requires CleanRun(states, steps) && k < |steps| && steps[k] == ReplyStep(n, status, ok, data, now)
    ensures n in states[k].runs
    ensures Appends(states[k], states[k + 1], n,
                    if Live(states[k], states[k].runs[n].id)
                    then [Event(Reply, JObj(map["type" := JStr("result"), "statusCode" := JNum(status as real),
                                                "success" := JBool(ok), "data" := data])),
                          Event(Done, JObj(map["type" := JStr("done")]))] else [])
  {
    RunStep(states, steps, k);
    RunKeepsInv(states, steps, k);
    OwnEvents(Command("", "", "", "", None, JNull), "", "", status, ok, data);
    hide CleanRun, Inv, Live, Appends, Clean, PlainReply, IsTerminalEvent;
    ReplyAppends(states[k], n, ReplyEvent(status, ok, data), now);
  }

  lemma ReplyAppends(s: State, n: nat, reply: Event, now: int)
    requires Inv(s) && n in s.runs && !IsTerminalEvent(reply)
    ensures Appends(s, PlainReply(s, n, reply, now), n, if Live(s, s.runs[n].id) then [reply, PLAIN_DONE] else [])
  {
    hide *;
    InvCore(s);
    var id := s.runs[n].id;
    var s1 := EmitAndMark(s, id, reply, now);
    ReplyIsTwo(s, n, reply, now);
    RunEmitsCore(s, n, reply, now);
    EmitFrame(s, id, reply, now);
    EmitAppends(s, n, reply, now);
    EmitAppends(s1, n, PLAIN_DONE, now);
    StaysLive(s, id, reply, now);
    var first, second := if Live(s, id) then [reply] else [], if Live(s, id) then [PLAIN_DONE] else [];
    AppendTwice(s, s1, EmitAndMark(s1, id, PLAIN_DONE, now), n, first, second);
    assert first + second == if Live(s, id) then [reply, PLAIN_DONE] else [];
  }

  lemma InvCore(s: State)
    requires Inv(s)
    ensures Core(s)
  {
  }

  lemma ReplyIsTwo(s: State, n: nat, reply: Event, now: int)
    requires n in s.runs
    ensures PlainReply(s, n, reply, now) == EmitAndMark(EmitAndMark(s, s.runs[n].id, reply, now), s.runs[n].id, PLAIN_DONE, now)
  {
    hide EmitAndMark;
  }

  lemma AppendTwice(a: State, b: State, c: State, n: nat, first: seq<Event>, second: seq<Event>)
    requires Appends(a, b, n, first) && Appends(b, c, n, second)
    ensures Appends(a, c, n, first + second)
  {
  }

  lemma StaysLive(s: State, id: Id, e: Event, now: int)
    requires !IsTerminalEvent(e)
    ensures Live(EmitAndMark(s, id, e, now), id) <==> Live(s, id)
  {
    hide IsTerminalEvent;
  }
}
