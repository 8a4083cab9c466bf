/**
 * What the executor sends: over every run the events sent are those of the histories, under their numbers;
 * a started command announces itself, and a command cancelled in the queue ends with its reason.
 */
module ExecutorMessages {
  import opened Prelude
  import opened CommandTypes
  import opened ExecutorModel
  import opened ExecutorSafety
  import opened ExecutorRuns
  import E = ExecutorReplay

  // ---------------------------------------------------------------------------------------------
  // Every event is sent, and nothing else
  // ---------------------------------------------------------------------------------------------

  /** The `j`-th event of the `a`-th accepted command, numbered from 1. */
  function MessageOf(log: seq<Entry>, a: nat, j: nat): Message
    requires a < |log| && j < |log[a].history|
  {
    EventSent(log[a].command.id, Rec(j + 1, log[a].history[j]))
  }

  ghost predicate AllSent(s: State) {
    forall a: nat, j: nat | a < |s.log| && j < |s.log[a].history| :: MessageOf(s.log, a, j) in s.sent
  }

  ghost predicate IsEventOf(log: seq<Entry>, m: Message, a: nat, j: nat) {
    a < |log| && j < |log[a].history| && m == MessageOf(log, a, j)
  }

  ghost predicate Recorded(log: seq<Entry>, m: Message) {
    m.AckSent? || exists a, j :: IsEventOf(log, m, a, j)
  }

  ghost predicate OnlyRecorded(s: State) {
    forall m | m in s.sent :: Recorded(s.log, m)
  }

  ghost predicate Told(s: State) {
    AllSent(s) && OnlyRecorded(s)
  }

  /** The next event of the command has the number after those of its history. */
  predicate Numbered(s: State, id: Id) {
    Live(s, id) ==>
      var t := s.tracked[id];
      t.ticket < |s.log| && s.log[t.ticket].command.id == id && t.lastEmitted == |s.log[t.ticket].history|
  }

  lemma CoreNumbers(s: State, id: Id)
    requires TrackedOk(s) && HistoryOk(s)
    ensures Numbered(s, id)
  {
    hide PhaseOk;
  }

  /** One event more, recorded and sent. */
  lemma OneMoreTold(s: State, s': State, n: nat, e: Event)
    requires Told(s) && n < |s.log| && s'.log == s.log[n := s.log[n].(history := s.log[n].history + [e])]
    requires s'.sent == s.sent + [EventSent(s.log[n].command.id, Rec(|s.log[n].history| + 1, e))]
    ensures Told(s')
  {
    var last := |s.log[n].history|;
    forall a: nat, j: nat | a < |s'.log| && j < |s'.log[a].history| ensures MessageOf(s'.log, a, j) in s'.sent {
      if a == n && j == last {
        assert s'.sent[|s.sent|] == MessageOf(s'.log, a, j);
      } else {
        assert MessageOf(s'.log, a, j) == MessageOf(s.log, a, j);
      }
    }
    forall m | m in s'.sent ensures Recorded(s'.log, m) {
      if m in s.sent {
        if m.EventSent? {
          var a, j :| IsEventOf(s.log, m, a, j);
          assert IsEventOf(s'.log, m, a, j);
        }
      } else {
        assert IsEventOf(s'.log, m, n, last);
      }
    }
  }

  lemma SameTold(s: State, s': State)
    requires Told(s) && s'.log == s.log && s'.sent == s.sent
    ensures Told(s')
  {
  }

  lemma EmitTells(s: State, id: Id, e: Event, now: int)
    requires Told(s) && Numbered(s, id)
    ensures Told(EmitAndMark(s, id, e, now))
  {
    hide Told;
    var s' := EmitAndMark(s, id, e, now);
    if Live(s, id) {
      OneMoreTold(s, s', s.tracked[id].ticket, e);
    }
  }

  lemma StartTells(s: State, i: nat)
    requires Told(s) && i < |s.queue| && QueueOk(s) && TrackedOk(s) && HistoryOk(s)
    ensures Told(StartAt(s, i))
  {
    var c := s.queue[i];
    CoreNumbers(s, c.id);
    ExecuteIs(s.(queue := RemoveAt(s.queue, i)), c);
    hide Told, Execute, HistoryOk, TrackedOk, RunningStatus, DeriveLockKey;
    OneMoreTold(s, StartAt(s, i), s.tracked[c.id].ticket, RunningStatus(c));
  }

  lemma {:induction false} FillTells(s: State)
    requires Told(s) && Core(s)
    ensures Told(Fill(s))
    decreases |s.queue|
  {
    hide Told, FlightOk, LocksOk, FifoOk, AccountedOk, EndsOk, QueueOk, TrackedOk, HistoryOk;
    if CanStart(s) {
      var i := FirstFree(s.queue, s.lockOwners);
      ExecuteKeepsQueue(s.(queue := RemoveAt(s.queue, i)), s.queue[i]);
      StartTells(s, i);
      StartKeepsCore(s);
      FillTells(StartAt(s, i));
    }
  }

  lemma ScheduleTells(s: State)
    requires Told(s) && Core(s)
    ensures Told(Schedule(s))
  {
    hide Core, Told, Fill;
    FillTells(s);
  }

  /** More messages, none of them an event that is not recorded. */
  lemma MoreTold(s: State, s': State, more: seq<Message>)
    requires Told(s) && s'.log == s.log && s'.sent == s.sent + more && forall m | m in more :: Recorded(s.log, m)
    ensures Told(s')
  {
    hide Recorded;
  }

  lemma AddTells(s: State, c: Command)
    requires Told(s)
    ensures Told(AddCommand(s, c))
  {
    var s' := AddCommand(s, c);
    forall a: nat, j: nat | a < |s'.log| && j < |s'.log[a].history| ensures MessageOf(s'.log, a, j) in s'.sent {
      assert MessageOf(s'.log, a, j) == MessageOf(s.log, a, j);
    }
    forall m | m in s'.sent ensures Recorded(s'.log, m) {
      if m in s.sent && m.EventSent? {
        var a, j :| IsEventOf(s.log, m, a, j);
        assert IsEventOf(s'.log, m, a, j);
      }
    }
  }

  /** What is sent again is in the buffer, and so in the history. */
  lemma {:induction false} ResentIsRecorded(log: seq<Entry>, n: nat, buffer: seq<Rec>, base: nat, after: int, m: Message)
    requires n < |log| && base + |buffer| <= |log[n].history|
    requires forall j | 0 <= j < |buffer| :: buffer[j] == Rec(base + j + 1, log[n].history[base + j])
    requires m in Resend(log[n].command.id, buffer, after)
    ensures Recorded(log, m)
  {
    hide Recorded;
    if m == EventSent(log[n].command.id, buffer[0]) {
      FirstIsRecorded(log, n, base, m);
    } else {
      var rest := buffer[1..];
      assert forall j | 0 <= j < |rest| :: rest[j] == buffer[j + 1];
      ResentIsRecorded(log, n, rest, base + 1, after, m);
    }
  }

  lemma FirstIsRecorded(log: seq<Entry>, n: nat, j: nat, m: Message)
    requires n < |log| && j < |log[n].history| && m == MessageOf(log, n, j)
    ensures Recorded(log, m)
  {
    assert IsEventOf(log, m, n, j);
  }

  lemma ReplayTells(s: State, id: Id, after: int)
    requires Told(s) && TrackedOk(s) && HistoryOk(s)
    ensures Told(ReplayBuffered(s, id, after))
  {
    hide Told, PhaseOk, Recorded, Resend;
    if id in s.tracked {
      var t := s.tracked[id];
      var n := t.ticket;
      assert BufferOk(t, s.log[n].history);
      forall m | m in Resend(id, t.buffer, after) ensures Recorded(s.log, m) {
        ResentIsRecorded(s.log, n, t.buffer, |s.log[n].history| - |t.buffer|, after, m);
      }
      MoreTold(s, ReplayBuffered(s, id, after), Resend(id, t.buffer, after));
    }
  }

  lemma AckTold(s: State, id: Id, accepted: bool, reason: Option<string>)
    requires Told(s)
    ensures Told(s.(sent := s.sent + [AckSent(id, accepted, reason)]))
  {
    hide Told;
    MoreTold(s, s.(sent := s.sent + [AckSent(id, accepted, reason)]), [AckSent(id, accepted, reason)]);
  }

  lemma EnqueueTells(s: State, step: Step)
    requires Told(s) && Inv(s) && step.EnqueueStep? && Enabled(s, step) && Clean(s, step)
    ensures Told(Apply(s, step))
  {
    hide Told, ValidateCommand, Resend, Fill, AddCommand, PruneAllows, Clean;
    hide QueueOk, FlightOk, LocksOk, FifoOk, AccountedOk, EndsOk, TrackedOk, HistoryOk;
    var c, s0 := step.command, s.(tracked := s.tracked - step.removed);
    var s1 := s0.(sent := s0.sent + [AckSent(c.id, true, None)]);
    SameTold(s, s0);
    AckTold(s0, c.id, true, None);
    AckTold(s0, c.id, false, step.rejection);
    AckTold(s0, c.id, false, ValidateCommand(c));
    PrunesTerminal(s.tracked, step.removed, step.now);
    PruneKeepsInv(s, step.removed);
    SendKeepsCore(s0, s1);
    ReplayTells(s1, c.id, 0);
    if Accepts(s, step) {
      CleanAccepts(s, step);
      AddTells(s0, c);
      AddKeepsCore(s0, c);
      ScheduleTells(AddCommand(s0, c));
    } else {
      hide Schedule;
    }
  }

  lemma PrunesTerminal(tracked: map<Id, Tracked>, removed: set<Id>, now: int)
    requires PruneAllows(tracked, removed, now)
    ensures removed <= TerminalIds(tracked)
  {
  }

  lemma CleanAccepts(s: State, step: Step)
    requires step.EnqueueStep? && Accepts(s, step) && Clean(s, step)
    ensures step.command.id !in s.tracked - step.removed && step.command.id !in s.inFlight
    ensures Enqueue(s, step.command, step.rejection, step.removed) == Schedule(AddCommand(s.(tracked := s.tracked - step.removed), step.command))
  {
    hide Schedule, AddCommand, ValidateCommand;
  }

  lemma SendKeepsCore(s: State, s': State)
    requires Core(s) && s' == s.(sent := s'.sent)
    ensures Core(s')
  {
    hide QueueOk, FlightOk, LocksOk, FifoOk, AccountedOk, EndsOk, TrackedOk, HistoryOk;
    SameViewKeepsCore(s, s');
  }

  lemma FinishTells(s: State, n: nat, ending: Ending, now: int)
    requires Told(s) && Inv(s) && n in s.runs
    ensures Told(Finish(s, n, ending, now))
  {
    hide Told, EmitAndMark, ClosingEvent, Fill, QueueOk, FlightOk, LocksOk, FifoOk, AccountedOk, EndsOk, TrackedOk, HistoryOk, Schedule;
    var id, e := s.runs[n].id, ClosingEvent(s.runs[n], ending);
    CoreNumbers(s, id);
    EmitTells(s, id, e, now);
    var s1 := Closed(s, n, ending, now);
    ClosedKeepsOthers(s, n, ending, now);
    ReleaseKeepsCore(s1, n);
    SameTold(s1, Release(s1, n));
    ScheduleTells(Release(s1, n));
  }

  lemma CancelTells(s: State, id: Id, reason: string, now: int)
    requires Told(s) && Inv(s)
    ensures Told(Cancel(s, id, reason, now))
  {
    hide Told, EmitAndMark, CancelledDone, QueueOk, FlightOk, LocksOk, FifoOk, AccountedOk, EndsOk, TrackedOk, HistoryOk;
    var i := IndexOf(s.queue, id);
    if i < |s.queue| {
      var s1 := s.(queue := RemoveAt(s.queue, i));
      CoreNumbers(s, id);
      SameTold(s, s1);
      EmitTells(s1, id, CancelledDone(reason), now);
    } else {
      SameTold(s, Cancel(s, id, reason, now));
    }
  }

  lemma EmitInRunTells(s: State, n: nat, e: Event, now: int)
    requires Told(s) && Core(s) && n in s.runs
    ensures Told(EmitAndMark(s, s.runs[n].id, e, now))
  {
    hide Told, EmitAndMark, QueueOk, FlightOk, LocksOk, FifoOk, AccountedOk, EndsOk, TrackedOk, HistoryOk;
    CoreNumbers(s, s.runs[n].id);
    EmitTells(s, s.runs[n].id, e, now);
  }

  lemma PlainReplyTells(s: State, n: nat, reply: Event, now: int)
    requires Told(s) && Core(s) && n in s.runs
    ensures Told(PlainReply(s, n, reply, now))
  {
    hide Told, EmitAndMark, Core;
    EmitInRunTells(s, n, reply, now);
    RunEmitsCore(s, n, reply, now);
    EmitFrame(s, s.runs[n].id, reply, now);
    EmitInRunTells(EmitAndMark(s, s.runs[n].id, reply, now), n, PLAIN_DONE, now);
  }

  lemma StepTells(s: State, step: Step)
    requires Told(s) && Inv(s) && Enabled(s, step) && Clean(s, step)
    ensures Told(Apply(s, step))
  {
    hide Told, Fill, EmitAndMark, Enqueue, Finish, PlainReply, ReplayBuffered, Schedule, PruneAllows;
    hide QueueOk, FlightOk, LocksOk, FifoOk, AccountedOk, EndsOk, TrackedOk, HistoryOk, KeepAfter, Cancel;
    match step
    case SetConnected(on) =>
      SameTold(s, s.(connected := on));
      SameViewKeepsCore(s, s.(connected := on));
      ScheduleTells(s.(connected := on));
    case EnqueueStep(_, _, _, _) => EnqueueTells(s, step);
    case CancelStep(id, reason, now) => CancelTells(s, id, reason, now);
    case ReplayStep(id, after) => ReplayTells(s, id, after);
    case FinishStep(n, ending, now) => FinishTells(s, n, ending, now);
    case ReplyStep(n, status, ok, data, now) => PlainReplyTells(s, n, ReplyEvent(status, ok, data), now);
    case LineStep(n, e, now) => EmitInRunTells(s, n, e, now);
    case CloseStep(n, _, now) => EmitInRunTells(s, n, PLAIN_DONE, now);
    case _ => SameTold(s, Apply(s, step));
  }

  lemma {:induction false} RunTells(states: seq<State>, steps: seq<Step>, k: nat)
    requires CleanRun(states, steps) && k < |states|
    ensures Told(states[k])
  {
    if k == 0 {
      NothingToTell(states, steps);
    } else {
      hide Told, Inv, CleanRun, Apply, Enabled, Clean;
      RunTells(states, steps, k - 1);
      RunKeepsInv(states, steps, k - 1);
      NoneAtFirst(states, steps);
      RunStep(states, steps, k - 1);
      StepTells(states[k - 1], steps[k - 1]);
    }
  }

  lemma NoneAtFirst(states: seq<State>, steps: seq<Step>)
    requires CleanRun(states, steps)
    ensures |states| == |steps| + 1
  {
  }

  lemma NothingToTell(states: seq<State>, steps: seq<Step>)
    requires CleanRun(states, steps)
    ensures Told(states[0])
  {
  }

  /**
   * In every reachable state each event of a history has been sent under the command's id and its place in
   * the history, counted from 1; and every event that was sent is one of these.
   */
  lemma EventsAreSent(states: seq<State>, steps: seq<Step>, k: nat)
    requires CleanRun(states, steps) && k < |states|
    ensures forall a: nat, j: nat | a < |states[k].log| && j < |states[k].log[a].history| ::
              EventSent(states[k].log[a].command.id, Rec(j + 1, states[k].log[a].history[j])) in states[k].sent
    ensures forall m | m in states[k].sent && m.EventSent? :: exists a: nat, j: nat :: IsEventOf(states[k].log, m, a, j)
  {
    RunTells(states, steps, k);
    hide CleanRun;
    var s := states[k];
    forall a: nat, j: nat | a < |s.log| && j < |s.log[a].history|
      ensures EventSent(s.log[a].command.id, Rec(j + 1, s.log[a].history[j])) in s.sent
    {
      assert MessageOf(s.log, a, j) in s.sent;
    }
  }

  // ---------------------------------------------------------------------------------------------
  // Starting and cancelling
  // ---------------------------------------------------------------------------------------------

  /** What a command is announced with when it starts. */
  ghost predicate Announced(entry: Entry) {
    entry.history != []
    && entry.history[0] == Event(Status, JObj(map["type" := JStr("status"), "status" := JStr("running"),
                                                  "operationId" := JStr(entry.command.operationId)]))
  }

  ghost predicate StartsAnnounced(s: State) {
    forall n | n in s.starts :: n < |s.log| && Announced(s.log[n])
  }

  lemma GrowsAnnounced(s: State, s': State)
    requires StartsAnnounced(s) && E.Grows(s, s') && s'.starts == s.starts
    ensures StartsAnnounced(s')
  {
  }

  lemma StartAnnounces(s: State, i: nat)
    requires StartsAnnounced(s) && Core(s) && i < |s.queue|
    ensures StartsAnnounced(StartAt(s, i))
  {
    hide FlightOk, LocksOk, FifoOk, EndsOk, StartAt, DeriveLockKey, QueueOk, TrackedOk, AccountedOk, HistoryOk, BufferOk, PhaseOk;
    StartIs(s, i);
    QueuedIsFresh(s, i);
    var n := s.tracked[s.queue[i].id].ticket;
    var s' := StartAt(s, i);
    assert s'.log[n] == Entry(s.queue[i], [RunningStatus(s.queue[i])]);
    assert forall x | x in s'.starts :: x in s.starts || x == n;
  }

  lemma {:induction false} FillAnnounces(s: State)
    requires StartsAnnounced(s) && Core(s)
    ensures StartsAnnounced(Fill(s))
    decreases |s.queue|
  {
    hide Core, StartsAnnounced;
    if CanStart(s) {
      var i := FirstFree(s.queue, s.lockOwners);
      ExecuteKeepsQueue(s.(queue := RemoveAt(s.queue, i)), s.queue[i]);
      StartAnnounces(s, i);
      StartKeepsCore(s);
      FillAnnounces(StartAt(s, i));
    }
  }

  lemma ScheduleAnnounces(s: State)
    requires StartsAnnounced(s) && Core(s)
    ensures StartsAnnounced(Schedule(s))
  {
    hide Core, StartsAnnounced, Fill;
    FillAnnounces(s);
  }

  lemma FinishAnnounces(s: State, n: nat, ending: Ending, now: int)
    requires StartsAnnounced(s) && Inv(s) && n in s.runs
    ensures StartsAnnounced(Finish(s, n, ending, now))
  {
    hide StartsAnnounced, E.Grows, EmitAndMark, ClosingEvent, Fill, QueueOk, FlightOk;
    hide LocksOk, FifoOk, AccountedOk, EndsOk, TrackedOk, HistoryOk, Schedule;
    var id, e := s.runs[n].id, ClosingEvent(s.runs[n], ending);
    E.EmitGrows(s, id, e, now);
    EmitFrame(s, id, e, now);
    var s1 := Closed(s, n, ending, now);
    E.GrowsNot(s);
    GrowsAnnounced(s, s1);
    ClosedKeepsOthers(s, n, ending, now);
    ReleaseKeepsCore(s1, n);
    SameAnnounced(s1, Release(s1, n));
    ScheduleAnnounces(Release(s1, n));
  }

  lemma SameAnnounced(s: State, s': State)
    requires StartsAnnounced(s) && s'.log == s.log && s'.starts == s.starts
    ensures StartsAnnounced(s')
  {
  }

  lemma EnqueueAnnounces(s: State, step: Step)
    requires StartsAnnounced(s) && Inv(s) && step.EnqueueStep? && Enabled(s, step) && Clean(s, step)
    ensures StartsAnnounced(Apply(s, step))
  {
    hide StartsAnnounced, E.Grows, ValidateCommand, Fill, PruneAllows, Clean, QueueOk, FlightOk;
    hide LocksOk, FifoOk, AccountedOk, EndsOk, TrackedOk, HistoryOk, Schedule, Enqueue;
    var c, s0 := step.command, s.(tracked := s.tracked - step.removed);
    SameAnnounced(s, s0);
    PrunesTerminal(s.tracked, step.removed, step.now);
    PruneKeepsInv(s, step.removed);
    EnqueueIs(s, c, step.rejection, step.removed);
    if Accepts(s, step) {
      CleanAccepts(s, step);
      E.AddGrows(s0, c);
      GrowsAnnounced(s0, AddCommand(s0, c));
      AddKeepsCore(s0, c);
      ScheduleAnnounces(AddCommand(s0, c));
    } else {
      SameAnnounced(s0, Apply(s, step));
    }
  }

  lemma EmitAnnounces(s: State, id: Id, e: Event, now: int)
    requires StartsAnnounced(s)
    ensures StartsAnnounced(EmitAndMark(s, id, e, now))
  {
    hide StartsAnnounced, E.Grows, EmitAndMark;
    E.EmitGrows(s, id, e, now);
    EmitFrame(s, id, e, now);
    GrowsAnnounced(s, EmitAndMark(s, id, e, now));
  }

  lemma CancelAnnounces(s: State, id: Id, reason: string, now: int)
    requires StartsAnnounced(s)
    ensures StartsAnnounced(Cancel(s, id, reason, now))
  {
    hide StartsAnnounced, EmitAndMark, CancelledDone;
    var i := IndexOf(s.queue, id);
    if i < |s.queue| {
      SameAnnounced(s, s.(queue := RemoveAt(s.queue, i)));
      EmitAnnounces(s.(queue := RemoveAt(s.queue, i)), id, CancelledDone(reason), now);
    } else {
      SameAnnounced(s, Cancel(s, id, reason, now));
    }
  }

  lemma StepAnnounces(s: State, step: Step)
    requires StartsAnnounced(s) && Inv(s) && Enabled(s, step) && Clean(s, step)
    ensures StartsAnnounced(Apply(s, step))
  {
    hide StartsAnnounced, Fill, EmitAndMark, Enqueue, Finish, Schedule, PruneAllows, KeepAfter, Cancel, Resend;
    hide QueueOk, FlightOk, LocksOk, FifoOk, AccountedOk, EndsOk, TrackedOk, HistoryOk;
    match step
    case SetConnected(on) =>
      SameAnnounced(s, s.(connected := on));
      SameViewKeepsCore(s, s.(connected := on));
      ScheduleAnnounces(s.(connected := on));
    case EnqueueStep(_, _, _, _) => EnqueueAnnounces(s, step);
    case CancelStep(id, reason, now) => CancelAnnounces(s, id, reason, now);
    case FinishStep(n, ending, now) => FinishAnnounces(s, n, ending, now);
    case ReplyStep(n, status, ok, data, now) =>
      EmitAnnounces(s, s.runs[n].id, ReplyEvent(status, ok, data), now);
      EmitAnnounces(EmitAndMark(s, s.runs[n].id, ReplyEvent(status, ok, data), now), s.runs[n].id, PLAIN_DONE, now);
    case LineStep(n, e, now) => EmitAnnounces(s, s.runs[n].id, e, now);
    case CloseStep(n, _, now) => EmitAnnounces(s, s.runs[n].id, PLAIN_DONE, now);
    case _ => SameAnnounced(s, Apply(s, step));
  }

  /** In every reachable state the history of a command that has started begins with its running status. */
  lemma {:induction false} StartedAreAnnounced(states: seq<State>, steps: seq<Step>, k: nat)
    requires CleanRun(states, steps) && k < |states|
    ensures forall n | n in states[k].starts :: n < |states[k].log| && Announced(states[k].log[n])
  {
    NoneAtFirst(states, steps);
    if k > 0 {
      StartedAreAnnounced(states, steps, k - 1);
      assert StartsAnnounced(states[k - 1]);
      hide StartsAnnounced, Inv, CleanRun, Apply, Enabled, Clean, Announced;
      RunKeepsInv(states, steps, k - 1);
      RunStep(states, steps, k - 1);
      StepAnnounces(states[k - 1], steps[k - 1]);
      AnnouncedIs(states[k]);
    }
  }

  lemma AnnouncedIs(s: State)
    requires StartsAnnounced(s)
    ensures forall n | n in s.starts :: n < |s.log| && Announced(s.log[n])
  {
  }

  /** A command that is cancelled in the queue leaves it at once, and its only event is its cancellation. */
  lemma QueuedCancelEnds(s: State, i: nat, reason: string, now: int)
    requires Inv(s) && i < |s.queue|
    ensures var id, s' := s.queue[i].id, Apply(s, CancelStep(s.queue[i].id, reason, now));
      && s'.queue == s.queue[..i] + s.queue[i + 1..] && s'.runs == s.runs
      && id in s'.tracked && s'.tracked[id].phase == Terminal(Cancelled, now) && s'.tracked[id].ticket < |s'.log|
      && s'.log[s'.tracked[id].ticket]
         == Entry(s.queue[i], [Event(Done, JObj(map["type" := JStr("done"), "cancelled" := JBool(true), "reason" := JStr(reason)]))])
  {
    QueueIsOk(s);
    CancelIs(s, i, reason, now);
    hide *;
    QueuedIsFresh(s, i);
    CancelQueuedIs(s, i, reason, now);
    CancelledIs(s, i, reason, now);
    DequeuesIs(s, EmitAndMark(s.(queue := RemoveAt(s.queue, i)), s.queue[i].id, CancelledDone(reason), now), i, CancelledDone(reason));
    CancelledDoneIs(reason);
    assert RemoveAt(s.queue, i) == s.queue[..i] + s.queue[i + 1..];
  }

  lemma QueueIsOk(s: State)
    requires Inv(s)
    ensures QueueOk(s) && TrackedOk(s) && AccountedOk(s) && HistoryOk(s)
    ensures forall i | 0 <= i < |s.queue| :: s.queue[i].id in s.tracked && s.tracked[s.queue[i].id].phase.Queued?
  {
  }

  lemma CancelledDoneIs(reason: string)
    ensures CancelledDone(reason) == Event(Done, JObj(map["type" := JStr("done"), "cancelled" := JBool(true), "reason" := JStr(reason)]))
  {
  }

  lemma DequeuesIs(s: State, s': State, i: nat, e: Event)
    requires Dequeues(s, s', i, e)
    ensures var n := s.tracked[s.queue[i].id].ticket;
      && n < |s.log| && s'.queue == RemoveAt(s.queue, i) && |s'.log| == |s.log| && s'.log[n] == Entry(s.queue[i], [e])
      && s.queue[i].id in s'.tracked && s'.tracked[s.queue[i].id].ticket == n
  {
    hide BufferOk, PhaseOk;
  }

  lemma CancelIs(s: State, i: nat, reason: string, now: int)
    requires QueueOk(s) && i < |s.queue|
    ensures Apply(s, CancelStep(s.queue[i].id, reason, now))
         == EmitAndMark(s.(queue := RemoveAt(s.queue, i)), s.queue[i].id, CancelledDone(reason), now)
  {
    hide EmitAndMark, CancelledDone;
    IndexOfFinds(s.queue, s.queue[i].id, i);
    assert IndexOf(s.queue, s.queue[i].id) == i;
  }

  lemma CancelledIs(s: State, i: nat, reason: string, now: int)
    requires i < |s.queue| && s.queue[i].id in s.tracked && s.tracked[s.queue[i].id].phase.Queued?
    ensures EmitAndMark(s.(queue := RemoveAt(s.queue, i)), s.queue[i].id, CancelledDone(reason), now).tracked[s.queue[i].id].phase
         == Terminal(Cancelled, now)
  {
    OwnEvents(s.queue[i], reason, "", 0, true, JNull);
    hide CancelledDone, IsTerminalEvent, ResolveTerminalState;
  }
}
