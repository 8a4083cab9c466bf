/**
 * The cloud command executor as a state machine over its atomic steps: what happens between two
 * suspension points of the asynchronous code is one step.
 *
 * A TrackedCommand object is named by its ticket, the position of its acceptance in `log`; the
 * RunningCommand object that `execute` creates for it carries the same ticket.
 */
module ExecutorModel {
  import opened Prelude
  import opened CommandTypes

  const COMMAND_RETENTION_MS := 600000
  const MAX_RETAINED_TERMINAL_COMMANDS := 200

  datatype Rec = Rec(sequence: nat, event: Event)

  datatype Phase = Queued | Running | Terminal(outcome: Outcome, completedAt: int)

  datatype Tracked = Tracked(
    command: Command, phase: Phase, lastEmitted: nat, lastAcked: nat, buffer: seq<Rec>, ticket: nat)

  /** A started execution: the RunningCommand object plus the locals of its suspended async frame. */
  datatype Run = Run(
    id: Id, lockKey: Option<string>, cancelReason: Option<string>, timedOut: bool)

  datatype Message =
    | AckSent(id: Id, accepted: bool, reason: Option<string>)
    | EventSent(id: Id, rec: Rec)

  /** One accepted command and every event ever emitted for it. */
  datatype Entry = Entry(command: Command, history: seq<Event>)

  datatype State = State(
    maxInFlight: int,
    connected: bool,
    queue: seq<Command>,
    inFlight: map<Id, nat>,
    lockOwners: map<string, Id>,
    tracked: map<Id, Tracked>,
    runs: map<nat, Run>,
    sent: seq<Message>,
    log: seq<Entry>,
    starts: seq<nat>)

  function Init(maxInFlight: int): State {
    State(maxInFlight, false, [], map[], map[], map[], map[], [], [], [])
  }

  function Limit(s: State): int {
    Max(1, s.maxInFlight)
  }

  // ---------------------------------------------------------------------------------------------
  // Pieces of steps
  // ---------------------------------------------------------------------------------------------

  predicate Live(s: State, id: Id) {
    id in s.tracked && !s.tracked[id].phase.Terminal?
  }

  function Record(log: seq<Entry>, ticket: nat, e: Event): seq<Entry> {
    if ticket < |log| then log[ticket := log[ticket].(history := log[ticket].history + [e])] else log
  }

  /** emitTrackedEvent */
  function Emit(s: State, id: Id, e: Event): State {
    if !Live(s, id) then s
    else
      var t := s.tracked[id];
      var r := Rec(t.lastEmitted + 1, e);
      s.(tracked := s.tracked[id := t.(lastEmitted := t.lastEmitted + 1, buffer := t.buffer + [r])],
         log := Record(s.log, t.ticket, e),
         sent := s.sent + [EventSent(id, r)])
  }

  /** markTerminal */
  function MarkTerminal(s: State, id: Id, outcome: Outcome, now: int): State {
    if !Live(s, id) then s
    else s.(tracked := s.tracked[id := s.tracked[id].(phase := Terminal(outcome, now))])
  }

  /** Emits `e`, and marks the command terminal when `e` is a terminal event. */
  function EmitAndMark(s: State, id: Id, e: Event, now: int): State {
    var s1 := Emit(s, id, e);
    if IsTerminalEvent(e) then MarkTerminal(s1, id, ResolveTerminalState(e), now) else s1
  }

  /** The index `findIndex` returns for the lock test, or the queue length when there is none. */
  function FirstFree(queue: seq<Command>, owners: map<string, Id>): (i: nat)
    ensures i <= |queue|
  {
    if queue == [] then 0
    else if !Blocked(queue[0], owners) then 0
    else 1 + FirstFree(queue[1..], owners)
  }

  predicate Blocked(c: Command, owners: map<string, Id>) {
    DeriveLockKey(c).Some? && DeriveLockKey(c).value in owners
  }

  /** The synchronous part of `execute`, up to its first suspension. */
  function Execute(s: State, c: Command): State {
    if c.id !in s.tracked then s else Emit(Reserved(s, c), c.id, RunningStatus(c))
  }

  /** The command runs: it holds its lock and has its in-flight entry. */
  function Reserved(s: State, c: Command): State
    requires c.id in s.tracked
  {
    var t := s.tracked[c.id];
    var key := DeriveLockKey(c);
    s.(tracked := s.tracked[c.id := t.(phase := Running)],
       lockOwners := if key.Some? then s.lockOwners[key.value := c.id] else s.lockOwners,
       inFlight := s.inFlight[c.id := t.ticket],
       runs := s.runs[t.ticket := Run(c.id, key, None, false)],
       starts := s.starts + [t.ticket])
  }

  /** Takes the command at index `i` out of the queue and starts it. */
  function StartAt(s: State, i: nat): State
    requires i < |s.queue|
  {
    Execute(s.(queue := RemoveAt(s.queue, i)), s.queue[i])
  }

  lemma ExecuteKeepsQueue(s: State, c: Command)
    ensures Execute(s, c).queue == s.queue
    ensures Execute(s, c).connected == s.connected && Execute(s, c).maxInFlight == s.maxInFlight
  {
  }

  predicate CanStart(s: State) {
    |s.inFlight| < Limit(s) && FirstFree(s.queue, s.lockOwners) < |s.queue|
  }

  /** The while loop of `schedule`. */
  function Fill(s: State): State
    decreases |s.queue|
  {
    if CanStart(s) then
      var i := FirstFree(s.queue, s.lockOwners);
      ExecuteKeepsQueue(s.(queue := RemoveAt(s.queue, i)), s.queue[i]);
      Fill(StartAt(s, i))
    else s
  }

  function Schedule(s: State): State {
    if s.connected then Fill(s) else s
  }

  function Resend(id: Id, buffer: seq<Rec>, after: int): seq<Message> {
    if buffer == [] then []
    else
      (if buffer[0].sequence > after then [EventSent(id, buffer[0])] else []) + Resend(id, buffer[1..], after)
  }

  /** replayBuffered */
  function ReplayBuffered(s: State, id: Id, after: int): State {
    if id in s.tracked then s.(sent := s.sent + Resend(id, s.tracked[id].buffer, after)) else s
  }

  function KeepAfter(buffer: seq<Rec>, acked: nat): seq<Rec> {
    if buffer == [] then []
    else (if buffer[0].sequence > acked then [buffer[0]] else []) + KeepAfter(buffer[1..], acked)
  }

  // ---------------------------------------------------------------------------------------------
  // The steps
  // ---------------------------------------------------------------------------------------------

  predicate Expired(t: Tracked, now: int) {
    t.phase.Terminal? && t.phase.completedAt != 0 && now - t.phase.completedAt > COMMAND_RETENTION_MS
  }

  ghost function TerminalIds(tracked: map<Id, Tracked>): set<Id> {
    set id | id in tracked && tracked[id].phase.Terminal?
  }

  ghost function ExpiredIds(tracked: map<Id, Tracked>, now: int): set<Id> {
    set id | id in TerminalIds(tracked) && Expired(tracked[id], now)
  }

  /** At most 200 terminal commands are kept; if any was dropped, exactly 200, none older than a dropped one. */
  ghost predicate OldestBeyondCap(tracked: map<Id, Tracked>, removed: set<Id>) {
    var kept := TerminalIds(tracked) - removed;
    && removed <= TerminalIds(tracked)
    && |kept| <= MAX_RETAINED_TERMINAL_COMMANDS
    && (removed != {} ==> |kept| == MAX_RETAINED_TERMINAL_COMMANDS)
    && (forall id, other | id in removed && other in kept ::
          tracked[id].phase.completedAt <= tracked[other].phase.completedAt)
  }

  /**
   * What pruneTerminalCommands may remove: every expired terminal command, and of the others the
   * oldest beyond the cap. Commands completed at the same instant may go in either order.
   */
  ghost predicate PruneAllows(tracked: map<Id, Tracked>, removed: set<Id>, now: int) {
    var expired := ExpiredIds(tracked, now);
    && expired <= removed <= TerminalIds(tracked)
    && OldestBeyondCap(tracked - expired, removed - expired)
  }

  function AddCommand(s: State, c: Command): State {
    s.(tracked := s.tracked[c.id := Tracked(c, Queued, 0, 0, [], |s.log|)],
       queue := s.queue + [c],
       log := s.log + [Entry(c, [])],
       sent := s.sent + [AckSent(c.id, true, None)])
  }

  /** enqueue; `rejection` is the signature verifier's verdict, None when it passes or is not enforced. */
  function Enqueue(s: State, c: Command, rejection: Option<string>, removed: set<Id>): State {
    var s0 := s.(tracked := s.tracked - removed);
    if c.id in s0.tracked then
      var s1 := s0.(sent := s0.sent + [AckSent(c.id, true, None)]);
      if s0.tracked[c.id].phase.Terminal? then ReplayBuffered(s1, c.id, 0) else s1
    else if rejection.Some? then s0.(sent := s0.sent + [AckSent(c.id, false, rejection)])
    else if ValidateCommand(c).Some? then s0.(sent := s0.sent + [AckSent(c.id, false, ValidateCommand(c))])
    else Schedule(AddCommand(s0, c))
  }

  function IndexOf(queue: seq<Command>, id: Id): (i: nat)
    ensures i <= |queue|
    ensures i < |queue| ==> queue[i].id == id
    ensures forall j | 0 <= j < i :: queue[j].id != id
  {
    if queue == [] then 0 else if queue[0].id == id then 0 else 1 + IndexOf(queue[1..], id)
  }

  function Cancel(s: State, id: Id, reason: string, now: int): State {
    var i := IndexOf(s.queue, id);
    if i < |s.queue| then
      EmitAndMark(s.(queue := RemoveAt(s.queue, i)), id, CancelledDone(reason), now)
    else if id in s.inFlight && s.inFlight[id] in s.runs then
      s.(runs := s.runs[s.inFlight[id] := s.runs[s.inFlight[id]].(cancelReason := Some(reason))])
    else s
  }

  function Acknowledge(s: State, id: Id, sequence: nat): State {
    if id !in s.tracked then s
    else
      var t := s.tracked[id];
      var acked := Max(t.lastAcked, sequence) as nat;
      var t' := t.(lastAcked := acked);
      s.(tracked := s.tracked[id := if t.phase.Terminal? then t' else t'.(buffer := KeepAfter(t.buffer, acked))])
  }

  /** processStreamLine, on a mapped line */
  function Line(s: State, ticket: nat, e: Event, now: int): State
    requires ticket in s.runs
  {
    EmitAndMark(s, s.runs[ticket].id, e, now)
  }

  /** The end of consumeStreamResponse; `emittedTerminal` is its local variable of that name. */
  function StreamClosed(s: State, ticket: nat, emittedTerminal: bool, now: int): State
    requires ticket in s.runs
  {
    if emittedTerminal then s else EmitAndMark(s, s.runs[ticket].id, PLAIN_DONE, now)
  }

  /** The end of executeViaGateway for a response that is not a stream. */
  function PlainReply(s: State, ticket: nat, reply: Event, now: int): State
    requires ticket in s.runs
  {
    EmitAndMark(EmitAndMark(s, s.runs[ticket].id, reply, now), s.runs[ticket].id, PLAIN_DONE, now)
  }

  /** How the awaited gateway call ended. */
  datatype Ending = Returned | Threw(message: string)

  /** The event that `execute` emits after the gateway call. */
  function ClosingEvent(run: Run, ending: Ending): Event {
    match ending
    case Returned => PLAIN_DONE
    case Threw(message) =>
      if run.cancelReason.Some? then CancelledDone(run.cancelReason.value)
      else if run.timedOut then TIMEOUT_ERROR
      else FatalError(message)
  }

  /** `execute` after a normal return looks at its own TrackedCommand object, not at the map. */
  predicate OwnCommandOpen(s: State, ticket: nat)
    requires ticket in s.runs
  {
    var id := s.runs[ticket].id;
    Live(s, id) && s.tracked[id].ticket == ticket
  }

  function Release(s: State, ticket: nat): State
    requires ticket in s.runs
  {
    var run := s.runs[ticket];
    s.(inFlight := s.inFlight - {run.id},
       lockOwners := if run.lockKey.Some? then s.lockOwners - {run.lockKey.value} else s.lockOwners,
       runs := s.runs - {ticket})
  }

  /** The tail of `execute`: its closing event, then the `finally` block. */
  function Finish(s: State, ticket: nat, ending: Ending, now: int): State
    requires ticket in s.runs
  {
    var s1 :=
      if ending.Returned? && !OwnCommandOpen(s, ticket) then s
      else EmitAndMark(s, s.runs[ticket].id, ClosingEvent(s.runs[ticket], ending), now);
    Schedule(Release(s1, ticket))
  }

  datatype Step =
    | SetConnected(on: bool)
    | EnqueueStep(command: Command, rejection: Option<string>, removed: set<Id>, now: int)
    | CancelStep(id: Id, reason: string, now: int)
    | AckStep(id: Id, sequence: nat)
    | ReplayStep(id: Id, after: int)
    | TimeoutStep(ticket: nat)
    | LineStep(ticket: nat, event: Event, now: int)
    | ReplyStep(ticket: nat, status: int, ok: bool, data: Json, now: int)
    | CloseStep(ticket: nat, emittedTerminal: bool, now: int)
    | FinishStep(ticket: nat, ending: Ending, now: int)

  ghost predicate Enabled(s: State, step: Step) {
    match step
    case EnqueueStep(_, _, removed, now) => PruneAllows(s.tracked, removed, now)
    case TimeoutStep(ticket) => ticket in s.runs
    case LineStep(ticket, _, _) => ticket in s.runs
    case ReplyStep(ticket, _, _, _, _) => ticket in s.runs
    case CloseStep(ticket, _, _) => ticket in s.runs
    case FinishStep(ticket, _, _) => ticket in s.runs
    case _ => true
  }

  ghost function Apply(s: State, step: Step): State
    requires Enabled(s, step)
  {
    match step
    case SetConnected(on) => Schedule(s.(connected := on))
    case EnqueueStep(c, rejection, removed, _) => Enqueue(s, c, rejection, removed)
    case CancelStep(id, reason, now) => Cancel(s, id, reason, now)
    case AckStep(id, sequence) => Acknowledge(s, id, sequence)
    case ReplayStep(id, after) => ReplayBuffered(s, id, after)
    case TimeoutStep(ticket) => s.(runs := s.runs[ticket := s.runs[ticket].(timedOut := true)])
    case LineStep(ticket, e, now) => Line(s, ticket, e, now)
    case ReplyStep(ticket, status, ok, data, now) => PlainReply(s, ticket, ReplyEvent(status, ok, data), now)
    case CloseStep(ticket, emittedTerminal, now) => StreamClosed(s, ticket, emittedTerminal, now)
    case FinishStep(ticket, ending, now) => Finish(s, ticket, ending, now)
  }

  /** A run: `states[i + 1]` comes from `states[i]` by `steps[i]`. */
  ghost predicate IsRun(states: seq<State>, steps: seq<Step>) {
    && |states| == |steps| + 1
    && forall i | 0 <= i < |steps| :: Enabled(states[i], steps[i]) && states[i + 1] == Apply(states[i], steps[i])
  }
}
