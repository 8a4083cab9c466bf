/** What a command's event history looks like, and how acknowledgements and replay deliver it. */
module ExecutorHistory {
  import opened Prelude
  import opened CommandTypes
  import opened ExecutorModel
  import opened ExecutorSafety
  import opened ExecutorRuns

  // ---------------------------------------------------------------------------------------------
  // Who may add to a history
  // ---------------------------------------------------------------------------------------------

  /** The step continues the execution of the `a`-th accepted command. */
  predicate Addresses(step: Step, a: nat) {
    match step
    case LineStep(n, _, _) => n == a
    case ReplyStep(n, _, _, _, _) => n == a
    case CloseStep(n, _, _) => n == a
    case FinishStep(n, _, _) => n == a
    case _ => false
  }

  ghost predicate Waiting(s: State, a: nat)
    requires a < |s.log|
  {
    Present(s, a) && s.tracked[s.log[a].command.id].phase.Queued?
  }

  /** The `a`-th entry is untouched and its command is still not waiting. */
  ghost predicate Leaves(s: State, s': State, a: nat)
    requires a < |s.log|
  {
    && |s.log| <= |s'.log|
    && s'.log[a] == s.log[a]
    && !Waiting(s', a)
  }

  lemma EmitLeaves(s: State, id: Id, e: Event, now: int, a: nat)
    requires a < |s.log| && !Waiting(s, a) && TrackedOk(s)
    requires Live(s, id) ==> s.tracked[id].ticket != a
    ensures Leaves(s, EmitAndMark(s, id, e, now), a)
  {
    if Live(s, id) { EmitAndMarkIs(s, id, e, now); }
  }

  lemma StartLeaves(s: State, a: nat)
    requires QueueOk(s) && TrackedOk(s) && AccountedOk(s) && HistoryOk(s)
    requires CanStart(s) && a < |s.log| && !Waiting(s, a)
    ensures Leaves(s, StartAt(s, FirstFree(s.queue, s.lockOwners)), a)
  {
    hide QueueOk, TrackedOk, AccountedOk, HistoryOk, StartAt, FirstFree, Waiting, Leaves, Dequeues;
    var i := FirstFree(s.queue, s.lockOwners);
    StartIs(s, i);
    DequeueLeaves(s, StartAt(s, i), i, RunningStatus(s.queue[i]), a);
  }

  lemma {:induction false} FillLeaves(s: State, a: nat)
    requires Core(s) && a < |s.log| && !Waiting(s, a)
    ensures Leaves(s, Fill(s), a)
    decreases |s.queue|
  {
    hide QueueOk, FlightOk, TrackedOk, LocksOk, FifoOk, AccountedOk, HistoryOk, EndsOk, Execute;
    if CanStart(s) {
      var i := FirstFree(s.queue, s.lockOwners);
      ExecuteKeepsQueue(s.(queue := RemoveAt(s.queue, i)), s.queue[i]);
      StartKeepsCore(s);
      StartLeaves(s, a);
      FillLeaves(StartAt(s, i), a);
    }
  }

  lemma EnqueueLeaves(s: State, c: Command, rejection: Option<string>, removed: set<Id>, now: int, a: nat)
    requires Inv(s) && PruneAllows(s.tracked, removed, now) && Clean(s, EnqueueStep(c, rejection, removed, now))
    requires a < |s.log| && !Waiting(s, a)
    ensures Leaves(s, Enqueue(s, c, rejection, removed), a)
  {
    hide QueueOk, FlightOk, TrackedOk, LocksOk, FifoOk, AccountedOk, HistoryOk, EndsOk;
    hide Fill, Enqueue, ValidateCommand, AddCommand;
    var s0 := s.(tracked := s.tracked - removed);
    EnqueueIs(s, c, rejection, removed);
    if Accepts(s, EnqueueStep(c, rejection, removed, now)) {
      PruneKeepsInv(s, removed);
      AddKeepsCore(s0, c);
      AddLeaves(s0, c, a);
      FillLeaves(AddCommand(s0, c), a);
    }
  }

  lemma AddLeaves(s: State, c: Command, a: nat)
    requires a < |s.log| && !Waiting(s, a) && c.id !in s.tracked
    ensures Leaves(s, AddCommand(s, c), a)
  {
  }

  lemma AckLeaves(s: State, id: Id, sequence: nat, a: nat)
    requires a < |s.log| && !Waiting(s, a)
    ensures Leaves(s, Acknowledge(s, id, sequence), a)
  {
  }

  lemma LineLeaves(s: State, n: nat, e: Event, now: int, a: nat)
    requires Inv(s) && n in s.runs && a < |s.log| && !Waiting(s, a) && (a != n || Ended(s.log[a].history))
    ensures Leaves(s, Line(s, n, e, now), a)
  {
    hide QueueOk, LocksOk, FifoOk, AccountedOk, EndsOk, EmitAndMark;
    NotLiveWhenEnded(s, n);
    EmitLeaves(s, s.runs[n].id, e, now, a);
  }

  lemma CancelLeaves(s: State, id: Id, reason: string, now: int, a: nat)
    requires TrackedOk(s) && QueueOk(s) && AccountedOk(s) && HistoryOk(s) && a < |s.log| && !Waiting(s, a)
    ensures Leaves(s, Cancel(s, id, reason, now), a)
  {
    hide AccountedOk, HistoryOk, EmitAndMark;
    var i := IndexOf(s.queue, id);
    if i < |s.queue| {
      CancelQueuedIs(s, i, reason, now);
      hide TrackedOk;
      DequeueLeaves(s, Cancel(s, id, reason, now), i, CancelledDone(reason), a);
    }
  }

  lemma DequeueLeaves(s: State, s': State, i: nat, e: Event, a: nat)
    requires QueueOk(s) && Dequeues(s, s', i, e) && a < |s.log| && !Waiting(s, a)
    ensures Leaves(s, s', a)
  {
    hide BufferOk, PhaseOk, IndexOf;
  }

  lemma NotLiveWhenEnded(s: State, n: nat)
    requires TrackedOk(s) && FlightOk(s) && HistoryOk(s) && n in s.runs
    ensures n < |s.log|
    ensures Live(s, s.runs[n].id) ==> s.tracked[s.runs[n].id].ticket == n && !Ended(s.log[n].history)
  {
    RunningIsNotQueued(s, n);
  }

  lemma FinishLeaves(s: State, n: nat, ending: Ending, now: int, a: nat)
    requires Inv(s) && n in s.runs && a < |s.log| && !Waiting(s, a) && (a != n || Ended(s.log[a].history))
    ensures Leaves(s, Finish(s, n, ending, now), a)
  {
    hide QueueOk, FlightOk, TrackedOk, LocksOk, FifoOk, AccountedOk, HistoryOk, EndsOk, EmitAndMark, Fill;
    var s1 := Closed(s, n, ending, now);
    ClosedKeepsOthers(s, n, ending, now);
    NotLiveWhenEnded(s, n);
    EmitLeaves(s, s.runs[n].id, ClosingEvent(s.runs[n], ending), now, a);
    ReleaseKeepsCore(s1, n);
    FillLeaves(Release(s1, n), a);
  }

  /**
   * Once a command is out of the queue, only its own execution adds to its history, and nobody does
   * after its terminal event.
   */
  lemma StepLeaves(s: State, step: Step, a: nat)
    requires Inv(s) && Enabled(s, step) && Clean(s, step)
    requires a < |s.log| && !Waiting(s, a) && (Addresses(step, a) ==> Ended(s.log[a].history))
    ensures Leaves(s, Apply(s, step), a)
  {
    hide QueueOk, FlightOk, TrackedOk, LocksOk, FifoOk, AccountedOk, HistoryOk, EndsOk;
    hide Fill, Enqueue, Cancel, Acknowledge, ReplayBuffered, EmitAndMark, PlainReply, Finish;
    match step
    case SetConnected(on) =>
      SameViewKeepsCore(s, s.(connected := on));
      FillLeaves(s.(connected := on), a);
    case EnqueueStep(c, rejection, removed, now) => EnqueueLeaves(s, c, rejection, removed, now, a);
    case CancelStep(id, reason, now) => CancelLeaves(s, id, reason, now, a);
    case AckStep(id, sequence) => AckLeaves(s, id, sequence, a);
    case ReplayStep(id, after) => ReplayLeaves(s, id, after, a);
    case TimeoutStep(n) =>
    case LineStep(n, e, now) => LineLeaves(s, n, e, now, a);
    case ReplyStep(n, status, ok, data, now) => PlainReplyLeaves(s, n, ReplyEvent(status, ok, data), now, a);
    case CloseStep(n, emittedTerminal, now) => LineLeaves(s, n, PLAIN_DONE, now, a);
    case FinishStep(n, ending, now) => FinishLeaves(s, n, ending, now, a);
  }

  lemma ReplayLeaves(s: State, id: Id, after: int, a: nat)
    requires a < |s.log| && !Waiting(s, a)
    ensures Leaves(s, ReplayBuffered(s, id, after), a)
  {
  }

  lemma PlainReplyLeaves(s: State, n: nat, reply: Event, now: int, a: nat)
    requires Inv(s) && n in s.runs && a < |s.log| && !Waiting(s, a) && (a != n || Ended(s.log[a].history))
    ensures Leaves(s, PlainReply(s, n, reply, now), a)
  {
    hide QueueOk, LocksOk, FifoOk, AccountedOk, EndsOk, EmitAndMark;
    var id := s.runs[n].id;
    var s1 := EmitAndMark(s, id, reply, now);
    NotLiveWhenEnded(s, n);
    RunningIsNotQueued(s, n);
    EmitLeaves(s, id, reply, now, a);
    EmitKeepsCore(s, id, reply, now);
    EmitFrame(s, id, reply, now);
    NotLiveWhenEnded(s1, n);
    EmitLeaves(s1, id, PLAIN_DONE, now, a);
  }

  // ---------------------------------------------------------------------------------------------
  // One terminal event, at the end
  // ---------------------------------------------------------------------------------------------

  /**
   * In every reachable state a history has at most one terminal event, in last place; a tracked
   * command is terminal exactly when its history has one, with the outcome that event names; a
   * forgotten command has one.
   */
  lemma OneTerminalEvent(states: seq<State>, steps: seq<Step>, k: nat, a: nat)
    requires CleanRun(states, steps) && k < |states| && a < |states[k].log|
    ensures var s, h := states[k], states[k].log[a].history;
      && (forall j | 0 <= j < |h| - 1 :: !IsTerminalEvent(h[j]))
      && (Present(s, a) ==>
            var t := s.tracked[s.log[a].command.id];
            && (t.phase.Terminal? <==> h != [] && IsTerminalEvent(h[|h| - 1]))
            && (t.phase.Terminal? ==> t.phase.outcome == ResolveTerminalState(h[|h| - 1])))
      && (!Present(s, a) ==> h != [] && IsTerminalEvent(h[|h| - 1]))
  {
    RunKeepsInv(states, steps, k);
    assert OneEnd(states[k].log[a].history);
  }

  /** A terminal event is the last word: the history never changes after it. */
  lemma {:induction false} TerminalIsFinal(states: seq<State>, steps: seq<Step>, k: nat, m: nat, a: nat)
    requires CleanRun(states, steps) && k <= m < |states|
    requires a < |states[k].log| && Ended(states[k].log[a].history)
    ensures a < |states[m].log| && states[m].log[a] == states[k].log[a] && !Waiting(states[m], a)
    decreases m
  {
    hide QueueOk, FlightOk, TrackedOk, LocksOk, FifoOk, AccountedOk, EndsOk, Apply;
    if m == k {
      RunKeepsInv(states, steps, k);
    } else {
      TerminalIsFinal(states, steps, k, m - 1, a);
      RunKeepsInv(states, steps, m - 1);
      StepLeaves(states[m - 1], steps[m - 1], a);
    }
  }

  // ---------------------------------------------------------------------------------------------
  // Streamed commands
  // ---------------------------------------------------------------------------------------------

  /** `events` up to and including the first terminal one. */
  function UpToTerminal(events: seq<Event>): seq<Event> {
    if events == [] then []
    else if IsTerminalEvent(events[0]) then [events[0]]
    else [events[0]] + UpToTerminal(events[1..])
  }

  /** The events of the lines that the stream of execution `n` yields during `steps`. */
  function LinesOf(steps: seq<Step>, n: nat): seq<Event> {
    if steps == [] then []
    else
      var front, last := steps[..|steps| - 1], steps[|steps| - 1];
      LinesOf(front, n) + (if last.LineStep? && last.ticket == n then [last.event] else [])
  }

  lemma {:induction false} UpToTerminalSnoc(events: seq<Event>, e: Event)
    ensures UpToTerminal(events + [e]) == if Ended(UpToTerminal(events)) then UpToTerminal(events) else UpToTerminal(events) + [e]
    ensures !Ended(UpToTerminal(events)) ==> UpToTerminal(events) == events
  {
    if events == [] {
      assert [e][1..] == [];
    } else {
      assert (events + [e])[1..] == events[1..] + [e];
      UpToTerminalSnoc(events[1..], e);
      assert UpToTerminal(events) != [];
      if !IsTerminalEvent(events[0]) {
        var r := UpToTerminal(events[1..]);
        assert UpToTerminal(events) == [events[0]] + r;
        assert Ended([events[0]] + r) <==> Ended(r);
        assert events == [events[0]] + events[1..];
      }
    }
  }

  lemma EmitAppends(s: State, n: nat, e: Event, now: int)
    requires Inv(s) && n in s.runs && n < |s.log|
    ensures var s' := EmitAndMark(s, s.runs[n].id, e, now);
      && n in s'.runs && n < |s'.log|
      && s'.log[n].history == if Ended(s.log[n].history) then s.log[n].history else s.log[n].history + [e]
  {
    hide QueueOk, FlightOk, TrackedOk, LocksOk, FifoOk, HistoryOk, EndsOk, AccountedOk, Ended, EmitAndMark, CanStart, Live;
    var id := s.runs[n].id;
    NotLiveWhenEnded(s, n);
    LiveOrEnded(s, n);
    if Live(s, id) {
      TrackedHasLog(s, id);
      EmitAndMarkIs(s, id, e, now);
    } else {
      NotLiveSame(s, id, e, now);
    }
  }

  lemma TrackedHasLog(s: State, id: Id)
    requires TrackedOk(s) && Live(s, id)
    ensures id in s.tracked && s.tracked[id].ticket < |s.log|
  {
  }

  lemma NotLiveSame(s: State, id: Id, e: Event, now: int)
    requires !Live(s, id)
    ensures EmitAndMark(s, id, e, now) == s
  {
  }

  lemma LiveOrEnded(s: State, n: nat)
    requires FlightOk(s) && TrackedOk(s) && HistoryOk(s) && EndsOk(s) && n in s.runs && n < |s.log|
    ensures Live(s, s.runs[n].id) || Ended(s.log[n].history)
  {
    RunningIsNotQueued(s, n);
  }

  lemma EnqueueKeepsRuns(s: State, c: Command, rejection: Option<string>, removed: set<Id>)
    ensures s.runs.Keys <= Enqueue(s, c, rejection, removed).runs.Keys
  {
    hide Fill, Enqueue;
    EnqueueIs(s, c, rejection, removed);
    FillKeepsRuns(AddCommand(s.(tracked := s.tracked - removed), c));
  }

  lemma FinishKeepsRuns(s: State, n: nat, ending: Ending, now: int)
    requires n in s.runs
    ensures s.runs.Keys - {n} <= Finish(s, n, ending, now).runs.Keys
  {
    hide EmitAndMark, Fill;
    EmitFrame(s, s.runs[n].id, ClosingEvent(s.runs[n], ending), now);
    var s1 := Release(Closed(s, n, ending, now), n);
    assert s1.runs.Keys == s.runs.Keys - {n};
    FillKeepsRuns(s1);
  }

  lemma SmallStepKeepsRuns(s: State, step: Step)
    requires Enabled(s, step) && !step.SetConnected? && !step.EnqueueStep? && !step.FinishStep?
    ensures Apply(s, step).runs.Keys == s.runs.Keys
  {
    hide EmitAndMark, Resend, KeepAfter;
    match step
    case CancelStep(id, reason, now) =>
      var i := IndexOf(s.queue, id);
      if i < |s.queue| { EmitFrame(s.(queue := RemoveAt(s.queue, i)), id, CancelledDone(reason), now); }
    case LineStep(n, e, now) =>
      EmitFrame(s, s.runs[n].id, e, now);
    case ReplyStep(n, status, ok, data, now) =>
      EmitFrame(s, s.runs[n].id, ReplyEvent(status, ok, data), now);
      EmitFrame(EmitAndMark(s, s.runs[n].id, ReplyEvent(status, ok, data), now), s.runs[n].id, PLAIN_DONE, now);
    case CloseStep(n, _, now) => EmitFrame(s, s.runs[n].id, PLAIN_DONE, now);
    case _ =>
  }

  /** A step that does not finish execution `n` keeps it running. */
  lemma StepKeepsRun(s: State, step: Step, n: nat)
    requires Enabled(s, step) && n in s.runs
    requires !step.FinishStep? || step.ticket != n
    ensures n in Apply(s, step).runs
  {
    hide Fill, Enqueue, Finish;
    match step
    case SetConnected(on) => FillKeepsRuns(s.(connected := on));
    case EnqueueStep(c, rejection, removed, _) => EnqueueKeepsRuns(s, c, rejection, removed);
    case FinishStep(m, ending, now) => FinishKeepsRuns(s, m, ending, now);
    case _ => SmallStepKeepsRuns(s, step);
  }

  lemma {:induction false} FillKeepsRuns(s: State)
    ensures s.runs.Keys <= Fill(s).runs.Keys
    decreases |s.queue|
  {
    if CanStart(s) {
      var i := FirstFree(s.queue, s.lockOwners);
      var s1 := s.(queue := RemoveAt(s.queue, i));
      ExecuteKeepsQueue(s1, s.queue[i]);
      ExecuteKeepsRuns(s1, s.queue[i]);
      FillKeepsRuns(StartAt(s, i));
    }
  }

  lemma ExecuteKeepsRuns(s: State, c: Command)
    ensures s.runs.Keys <= Execute(s, c).runs.Keys
  {
  }

  /** Between `lo` and `hi`, execution `n` only reads its stream. */
  predicate OnlyStreams(steps: seq<Step>, lo: nat, hi: nat, n: nat)
    requires lo <= hi <= |steps|
  {
    forall i | lo <= i < hi :: Addresses(steps[i], n) ==> steps[i].LineStep?
  }

  /**
   * Whatever happens to the other commands in between, and however acknowledgements, replays and
   * cancellations are interleaved, a command that reads its stream has as history its start-up
   * history followed by the mapped lines up to the first terminal one.
   */
  lemma {:induction false} StreamHistory(states: seq<State>, steps: seq<Step>, lo: nat, hi: nat, n: nat)
    requires CleanRun(states, steps) && lo <= hi < |states| == |steps| + 1
    requires n in states[lo].runs && n < |states[lo].log| && !Ended(states[lo].log[n].history)
    requires OnlyStreams(steps, lo, hi, n)
    ensures n in states[hi].runs && n < |states[hi].log| && !Waiting(states[hi], n)
    ensures states[hi].log[n].history == states[lo].log[n].history + UpToTerminal(LinesOf(steps[lo..hi], n))
    decreases hi
  {
    hide Inv, Clean, Enabled, Waiting, Apply, UpToTerminal, LinesOf, CleanRun, Ended;
    if hi == lo {
      RunKeepsInv(states, steps, hi);
      NoLinesYet(states[lo].log[n].history, n);
      RunningIsNotWaiting(states[hi], n);
      assert steps[lo..hi] == [];
    } else {
      RunStep(states, steps, hi - 1);
      var s, step := states[hi - 1], steps[hi - 1];
      StreamHistory(states, steps, lo, hi - 1, n);
      RunKeepsInv(states, steps, hi - 1);
      RunKeepsInv(states, steps, hi);
      assert Addresses(step, n) ==> step.LineStep?;
      StreamOneMore(s, step, n, states[lo].log[n].history, LinesOf(steps[lo..hi - 1], n));
      LinesSnoc(steps[lo..hi - 1], step, n);
      var seen := LinesOf(steps[lo..hi - 1], n);
      assert seen + [] == seen;
      assert steps[lo..hi] == steps[lo..hi - 1] + [step];
    }
  }

  lemma RunningIsNotWaiting(s: State, n: nat)
    requires Inv(s) && n in s.runs && n < |s.log|
    ensures !Waiting(s, n)
  {
    RunningIsNotQueued(s, n);
  }

  lemma NoLinesYet(h: seq<Event>, n: nat)
    ensures h + UpToTerminal(LinesOf([], n)) == h
  {
  }

  lemma LinesSnoc(steps: seq<Step>, step: Step, n: nat)
    ensures LinesOf(steps + [step], n) == LinesOf(steps, n) + (if step.LineStep? && step.ticket == n then [step.event] else [])
  {
    assert (steps + [step])[..|steps|] == steps;
  }

  lemma StreamOneMore(s: State, step: Step, n: nat, h0: seq<Event>, seen: seq<Event>)
    requires Inv(s) && Enabled(s, step) && Clean(s, step) && Inv(Apply(s, step))
    requires n in s.runs && n < |s.log| && !Waiting(s, n) && !Ended(h0)
    requires Addresses(step, n) ==> step.LineStep?
    requires s.log[n].history == h0 + UpToTerminal(seen)
    ensures var s' := Apply(s, step);
      && n in s'.runs && n < |s'.log| && !Waiting(s', n)
      && s'.log[n].history
         == h0 + UpToTerminal(if step.LineStep? && step.ticket == n then seen + [step.event] else seen)
  {
    hide QueueOk, LocksOk, FifoOk, AccountedOk, EndsOk, HistoryOk, Apply, UpToTerminal;
    var s' := Apply(s, step);
    StepKeepsRun(s, step, n);
    if step.LineStep? && step.ticket == n {
      StreamStep(h0, seen, step.event);
      LineStepIs(s, step);
      EmitAppends(s, n, step.event, step.now);
      RunningIsNotQueued(s', n);
    } else {
      StepLeaves(s, step, n);
    }
  }

  lemma LineStepIs(s: State, step: Step)
    requires step.LineStep? && Enabled(s, step)
    ensures Apply(s, step) == Line(s, step.ticket, step.event, step.now)
  {
  }

  lemma StreamStep(h0: seq<Event>, seen: seq<Event>, e: Event)
    requires !Ended(h0)
    ensures var h := h0 + UpToTerminal(seen);
      h0 + UpToTerminal(seen + [e]) == if Ended(h) then h else h + [e]
  {
    UpToTerminalSnoc(seen, e);
    var r := UpToTerminal(seen);
    assert Ended(h0 + r) <==> Ended(r) by {
      if r == [] { assert h0 + r == h0; }
    }
    assert h0 + (r + [e]) == (h0 + r) + [e];
  }

  lemma {:induction false} EndsWithTerminal(events: seq<Event>)
    ensures Ended(UpToTerminal(events)) <==> exists i :: 0 <= i < |events| && IsTerminalEvent(events[i])
  {
    if events != [] {
      EndsWithTerminal(events[1..]);
      if !IsTerminalEvent(events[0]) {
        var r := UpToTerminal(events[1..]);
        assert Ended([events[0]] + r) <==> Ended(r);
        if Ended(r) {
          var i :| 0 <= i < |events[1..]| && IsTerminalEvent(events[1..][i]);
          assert IsTerminalEvent(events[i + 1]);
        }
        if i :| 0 <= i < |events| && IsTerminalEvent(events[i]) {
          assert events[i] == events[1..][i - 1];
        }
      }
    }
  }

  /** The whole history of a command whose stream carried these mapped lines. */
  function StreamedHistory(c: Command, lines: seq<Event>): seq<Event> {
    [RunningStatus(c)] + UpToTerminal(lines) + (if Ended(UpToTerminal(lines)) then [] else [PLAIN_DONE])
  }

  /**
   * A completed stream: from the moment a command starts (`lo`) over its lines to the end of its
   * stream (step `hi`), and for ever after, its history is the running status, the mapped lines up
   * to the first terminal one, and a `done` if there was none.
   */
  lemma CompletedStream(states: seq<State>, steps: seq<Step>, lo: nat, hi: nat, m: nat, n: nat)
    requires CleanRun(states, steps) && lo <= hi < m < |states| == |steps| + 1
    requires n in states[lo].runs && n < |states[lo].log|
    requires states[lo].log[n].history == [RunningStatus(states[lo].log[n].command)]
    requires OnlyStreams(steps, lo, hi, n)
    requires steps[hi].CloseStep? && steps[hi].ticket == n
    requires steps[hi].emittedTerminal <==>
      exists i :: 0 <= i < |LinesOf(steps[lo..hi], n)| && IsTerminalEvent(LinesOf(steps[lo..hi], n)[i])
    ensures n < |states[m].log|
    ensures states[m].log[n].history == StreamedHistory(states[lo].log[n].command, LinesOf(steps[lo..hi], n))
  {
    ClosedStream(states, steps, lo, hi, n);
    hide *;
    StreamedHasEnded(states[lo].log[n].command, LinesOf(steps[lo..hi], n));
    TerminalIsFinal(states, steps, hi + 1, m, n);
  }

  lemma ClosedStream(states: seq<State>, steps: seq<Step>, lo: nat, hi: nat, n: nat)
    requires CleanRun(states, steps) && lo <= hi && hi + 1 < |states| == |steps| + 1
    requires n in states[lo].runs && n < |states[lo].log|
    requires states[lo].log[n].history == [RunningStatus(states[lo].log[n].command)]
    requires OnlyStreams(steps, lo, hi, n)
    requires steps[hi].CloseStep? && steps[hi].ticket == n
    requires steps[hi].emittedTerminal <==>
      exists i :: 0 <= i < |LinesOf(steps[lo..hi], n)| && IsTerminalEvent(LinesOf(steps[lo..hi], n)[i])
    ensures n < |states[hi + 1].log|
    ensures states[hi + 1].log[n].history == StreamedHistory(states[lo].log[n].command, LinesOf(steps[lo..hi], n))
  {
    hide Inv, Clean, Enabled, Apply, Waiting, UpToTerminal, LinesOf, CleanRun, RunningStatus;
    var c, lines := states[lo].log[n].command, LinesOf(steps[lo..hi], n);
    OwnEvents(c, "", "", 0, true, JNull);
    StreamHistory(states, steps, lo, hi, n);
    RunKeepsInv(states, steps, hi);
    RunStep(states, steps, hi);
    EndsWithTerminal(lines);
    var h := states[hi].log[n].history;
    assert Ended(h) <==> Ended(UpToTerminal(lines)) by {
      if UpToTerminal(lines) == [] { assert h == [RunningStatus(c)]; }
    }
    StreamCloses(states[hi], steps[hi], n);
    hide Ended;
    assert h + [] == h;
    assert states[hi + 1].log[n].history == StreamedHistory(c, lines);
  }

  lemma StreamCloses(s: State, step: Step, n: nat)
    requires Inv(s) && Enabled(s, step) && step.CloseStep? && step.ticket == n && n in s.runs && n < |s.log|
    requires !Waiting(s, n) && (step.emittedTerminal <==> Ended(s.log[n].history))
    ensures n < |Apply(s, step).log|
    ensures Apply(s, step).log[n].history == s.log[n].history + (if Ended(s.log[n].history) then [] else [PLAIN_DONE])
  {
    hide Inv, Waiting, Ended;
    EmitAppends(s, n, PLAIN_DONE, step.now);
    assert s.log[n].history + [] == s.log[n].history;
  }

  lemma StreamedHasEnded(c: Command, lines: seq<Event>)
    ensures Ended(StreamedHistory(c, lines))
  {
    var front := [RunningStatus(c)] + UpToTerminal(lines);
    assert IsTerminalEvent(PLAIN_DONE);
    if Ended(UpToTerminal(lines)) {
      assert front + [] == front;
    } else {
      assert (front + [PLAIN_DONE])[|front|] == PLAIN_DONE;
    }
  }
}
