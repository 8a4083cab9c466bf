/** What every reachable state of the cloud command executor satisfies. */
module ExecutorSafety {
  import opened Prelude
  import opened CommandTypes
  import opened ExecutorModel

  // ---------------------------------------------------------------------------------------------
  // The invariant
  // ---------------------------------------------------------------------------------------------

  /** The queue and the queued tracked commands agree, each id being queued once. */
  ghost predicate QueueOk(s: State) {
    && (forall i | 0 <= i < |s.queue| ::
          && s.queue[i].id in s.tracked
          && s.tracked[s.queue[i].id].phase.Queued?
          && s.tracked[s.queue[i].id].command == s.queue[i])
    && (forall i, j | 0 <= i < j < |s.queue| :: s.queue[i].id != s.queue[j].id)
    && (forall id | id in s.tracked && s.tracked[id].phase.Queued? :: IndexOf(s.queue, id) < |s.queue|)
  }

  /** The in-flight map and the started executions agree, one execution for each in-flight id. */
  ghost predicate FlightOk(s: State) {
    && (forall id | id in s.inFlight :: s.inFlight[id] in s.runs && s.runs[s.inFlight[id]].id == id)
    && (forall k | k in s.runs ::
          && s.runs[k].id in s.inFlight
          && s.inFlight[s.runs[k].id] == k
          && k < |s.log|
          && s.log[k].command.id == s.runs[k].id
          && s.runs[k].lockKey == DeriveLockKey(s.log[k].command))
  }

  /** Tracked commands agree with the log and with the in-flight map. */
  ghost predicate TrackedOk(s: State) {
    forall id | id in s.tracked ::
      var t := s.tracked[id];
      && t.ticket < |s.log|
      && s.log[t.ticket].command == t.command
      && t.command.id == id
      && (t.phase.Running? ==> id in s.inFlight)
      && (id in s.inFlight ==> !t.phase.Queued? && s.inFlight[id] == t.ticket)
  }

  /** `lockOwners` is exactly the map from the lock keys of the in-flight commands to their ids. */
  ghost predicate LocksOk(s: State) {
    && (forall k | k in s.lockOwners ::
          && s.lockOwners[k] in s.inFlight
          && s.inFlight[s.lockOwners[k]] in s.runs
          && s.runs[s.inFlight[s.lockOwners[k]]].lockKey == Some(k))
    && (forall n | n in s.runs && s.runs[n].lockKey.Some? ::
          s.runs[n].lockKey.value in s.lockOwners && s.lockOwners[s.runs[n].lockKey.value] == s.runs[n].id)
  }

  function Ticket(s: State, c: Command): nat {
    if c.id in s.tracked then s.tracked[c.id].ticket else |s.log|
  }

  function Lane(s: State, ticket: nat): Option<string>
    requires ticket < |s.log|
  {
    DeriveLockKey(s.log[ticket].command)
  }

  /** Commands with the same lock key, or both without one, start in the order of their acceptance. */
  ghost predicate FifoOk(s: State) {
    && (forall i, j | 0 <= i < j < |s.queue| :: Ticket(s, s.queue[i]) < Ticket(s, s.queue[j]))
    && (forall x | 0 <= x < |s.starts| :: s.starts[x] < |s.log|)
    && (forall x, i | 0 <= x < |s.starts| && 0 <= i < |s.queue| ::
          Lane(s, s.starts[x]) == DeriveLockKey(s.queue[i]) ==> s.starts[x] < Ticket(s, s.queue[i]))
    && (forall x, y | 0 <= x < y < |s.starts| ::
          Lane(s, s.starts[x]) == Lane(s, s.starts[y]) ==> s.starts[x] < s.starts[y])
  }

  /** The TrackedCommand of the `ticket`-th accepted command is still in the map. */
  ghost predicate Present(s: State, ticket: nat)
    requires ticket < |s.log|
  {
    var id := s.log[ticket].command.id;
    id in s.tracked && s.tracked[id].ticket == ticket
  }

  ghost predicate CancelledInQueue(h: seq<Event>) {
    |h| == 1 && IsTerminalEvent(h[0]) && ResolveTerminalState(h[0]) == Cancelled
  }

  /** An accepted command is still queued, has been started, or was cancelled while queued. */
  ghost predicate Accounted(s: State, a: nat)
    requires a < |s.log|
  {
    var c, h := s.log[a].command, s.log[a].history;
    || (Present(s, a) && s.tracked[c.id].phase.Queued? && h == [] && a !in s.starts)
    || (a in s.starts && h != [] && h[0] == RunningStatus(c)
        && (Present(s, a) ==> !s.tracked[c.id].phase.Queued?))
    || (a !in s.starts && CancelledInQueue(h))
  }

  ghost predicate AccountedOk(s: State) {
    forall a | 0 <= a < |s.log| :: Accounted(s, a)
  }

  /** The buffer of `t` is the part of history `h` after some point not beyond the last acknowledgement. */
  ghost predicate BufferOk(t: Tracked, h: seq<Event>) {
    && t.lastEmitted == |h|
    && |t.buffer| <= |h|
    && |h| - |t.buffer| <= t.lastAcked
    && forall j | 0 <= j < |t.buffer| ::
         t.buffer[j] == Rec(|h| - |t.buffer| + j + 1, h[|h| - |t.buffer| + j])
  }

  predicate Ended(h: seq<Event>) {
    h != [] && IsTerminalEvent(h[|h| - 1])
  }

  /** A terminal event can only be the last one. */
  ghost predicate OneEnd(h: seq<Event>) {
    forall j | 0 <= j < |h| - 1 :: !IsTerminalEvent(h[j])
  }

  /** The tracked state is terminal exactly when the history has its terminal event, and names its outcome. */
  ghost predicate PhaseOk(t: Tracked, h: seq<Event>) {
    && (t.phase.Terminal? <==> Ended(h))
    && (t.phase.Terminal? ==> t.phase.outcome == ResolveTerminalState(h[|h| - 1]))
  }

  ghost predicate HistoryOk(s: State) {
    forall id | id in s.tracked ::
      && s.tracked[id].ticket < |s.log|
      && BufferOk(s.tracked[id], s.log[s.tracked[id].ticket].history)
      && PhaseOk(s.tracked[id], s.log[s.tracked[id].ticket].history)
  }

  ghost predicate EndsOk(s: State) {
    forall a | 0 <= a < |s.log| ::
      OneEnd(s.log[a].history) && (!Present(s, a) ==> Ended(s.log[a].history))
  }

  ghost predicate Core(s: State) {
    && QueueOk(s) && FlightOk(s) && TrackedOk(s) && LocksOk(s)
    && FifoOk(s) && AccountedOk(s) && HistoryOk(s) && EndsOk(s)
    && |s.inFlight| <= Limit(s)
  }

  ghost predicate Inv(s: State) {
    Core(s) && (s.connected ==> !CanStart(s))
  }

  // ---------------------------------------------------------------------------------------------
  // Queue lemmas
  // ---------------------------------------------------------------------------------------------

  lemma {:induction false} IndexOfFinds(queue: seq<Command>, id: Id, i: nat)
    requires i < |queue| && queue[i].id == id
    ensures IndexOf(queue, id) <= i
  {
    if queue[0].id != id {
      IndexOfFinds(queue[1..], id, i - 1);
    }
  }

  lemma {:induction false} FirstFreeMeaning(queue: seq<Command>, owners: map<string, Id>)
    ensures var i := FirstFree(queue, owners);
      && (i < |queue| ==> !Blocked(queue[i], owners))
      && forall j | 0 <= j < i :: Blocked(queue[j], owners)
  {
    if queue != [] && Blocked(queue[0], owners) {
      FirstFreeMeaning(queue[1..], owners);
      var i := FirstFree(queue[1..], owners);
      forall j | 0 <= j < 1 + i ensures Blocked(queue[j], owners) {
        if j > 0 { assert queue[j] == queue[1..][j - 1]; }
      }
    }
  }

  // ---------------------------------------------------------------------------------------------
  // Events of a command that is not queued
  // ---------------------------------------------------------------------------------------------

  lemma EmitAndMarkIs(s: State, id: Id, e: Event, now: int)
    requires Live(s, id) && s.tracked[id].ticket < |s.log|
    ensures var t := s.tracked[id];
      EmitAndMark(s, id, e, now) ==
      s.(tracked := s.tracked[id := Emitted(t, e, now)], log := Record(s.log, t.ticket, e),
         sent := s.sent + [EventSent(id, Rec(t.lastEmitted + 1, e))])
  {
    var s1 := Emit(s, id, e);
    var t1 := s1.tracked[id];
    if IsTerminalEvent(e) {
      assert s1.tracked[id := t1.(phase := Terminal(ResolveTerminalState(e), now))]
          == s.tracked[id := t1.(phase := Terminal(ResolveTerminalState(e), now))];
    }
  }

  /** `s'` differs from `s` only in what the tracked command `id` has emitted, its phase and its acknowledgements. */
  ghost predicate Touches(s: State, s': State, id: Id) {
    && id in s.tracked && s.tracked[id].ticket < |s.log|
    && s'.tracked.Keys == s.tracked.Keys
    && s' == s.(tracked := s'.tracked, log := s'.log, sent := s'.sent)
    && (forall x | x in s.tracked && x != id :: s'.tracked[x] == s.tracked[x])
    && s'.tracked[id].command == s.tracked[id].command && s'.tracked[id].ticket == s.tracked[id].ticket
    && !s.tracked[id].phase.Queued?
    && (s'.tracked[id].phase == s.tracked[id].phase || s'.tracked[id].phase.Terminal?)
    && |s'.log| == |s.log|
    && (forall a | 0 <= a < |s.log| :: s'.log[a].command == s.log[a].command)
    && (forall a | 0 <= a < |s.log| && a != s.tracked[id].ticket :: s'.log[a] == s.log[a])
    && s.log[s.tracked[id].ticket].history <= s'.log[s.tracked[id].ticket].history
  }

  lemma TouchKeepsQueue(s: State, s': State, id: Id)
    requires Touches(s, s', id) && QueueOk(s)
    ensures QueueOk(s')
  {
    forall x | x in s'.tracked && s'.tracked[x].phase.Queued? ensures IndexOf(s'.queue, x) < |s'.queue| {
      assert x != id;
    }
  }

  lemma TouchKeepsTracked(s: State, s': State, id: Id)
    requires Touches(s, s', id) && TrackedOk(s)
    ensures TrackedOk(s')
  {
    forall x | x in s'.tracked
      ensures var t := s'.tracked[x];
        && t.ticket < |s'.log| && s'.log[t.ticket].command == t.command && t.command.id == x
        && (t.phase.Running? ==> x in s'.inFlight)
        && (x in s'.inFlight ==> !t.phase.Queued? && s'.inFlight[x] == t.ticket)
    {
      assert x in s.tracked && s.tracked[x].ticket == s'.tracked[x].ticket;
    }
  }

  lemma TouchKeepsFlight(s: State, s': State, id: Id)
    requires Touches(s, s', id) && FlightOk(s) && LocksOk(s)
    ensures FlightOk(s') && LocksOk(s')
  {
  }

  lemma TouchKeepsFifo(s: State, s': State, id: Id)
    requires Touches(s, s', id) && FifoOk(s)
    ensures FifoOk(s')
  {
    forall i | 0 <= i < |s.queue| ensures Ticket(s', s'.queue[i]) == Ticket(s, s.queue[i]) {
    }
    forall x | 0 <= x < |s.starts| ensures s.starts[x] < |s.log| && Lane(s', s'.starts[x]) == Lane(s, s.starts[x]) {
    }
  }

  lemma TouchKeepsAccounted(s: State, s': State, id: Id)
    requires Touches(s, s', id) && AccountedOk(s) && TrackedOk(s) && HistoryOk(s)
    requires s.tracked[id].phase.Running? || s'.log == s.log
    ensures AccountedOk(s')
  {
    var n := s.tracked[id].ticket;
    forall a | 0 <= a < |s'.log| ensures Accounted(s', a) {
      assert Accounted(s, a);
      assert Present(s', a) <==> Present(s, a);
      if a == n {
        assert s.log[a].command.id == id && Present(s, a);
        var h := s.log[a].history;
        assert CancelledInQueue(h) ==> Ended(h);
      }
    }
  }

  lemma TouchKeepsHistory(s: State, s': State, id: Id)
    requires Touches(s, s', id) && TrackedOk(s) && HistoryOk(s) && EndsOk(s)
    requires var n := s.tracked[id].ticket;
      && BufferOk(s'.tracked[id], s'.log[n].history) && PhaseOk(s'.tracked[id], s'.log[n].history)
      && OneEnd(s'.log[n].history)
    ensures HistoryOk(s') && EndsOk(s')
  {
    hide BufferOk, PhaseOk, OneEnd, Ended;
    assert s.log[s.tracked[id].ticket].command.id == id;
    TouchKeepsOthers(s, s', id);
    TouchKeepsEnds(s, s', id);
  }

  lemma TouchKeepsOthers(s: State, s': State, id: Id)
    requires Touches(s, s', id) && TrackedOk(s) && HistoryOk(s)
    requires var n := s.tracked[id].ticket; BufferOk(s'.tracked[id], s'.log[n].history) && PhaseOk(s'.tracked[id], s'.log[n].history)
    ensures HistoryOk(s')
  {
    hide BufferOk, PhaseOk;
    assert s.log[s.tracked[id].ticket].command.id == id;
    forall x | x in s'.tracked
      ensures s'.tracked[x].ticket < |s'.log|
      ensures BufferOk(s'.tracked[x], s'.log[s'.tracked[x].ticket].history)
      ensures PhaseOk(s'.tracked[x], s'.log[s'.tracked[x].ticket].history)
    {
      if x != id { assert s.log[s.tracked[x].ticket].command.id == x; }
    }
  }

  lemma TouchKeepsEnds(s: State, s': State, id: Id)
    requires Touches(s, s', id) && EndsOk(s) && OneEnd(s'.log[s.tracked[id].ticket].history)
    requires s.log[s.tracked[id].ticket].command.id == id
    ensures EndsOk(s')
  {
    hide OneEnd, Ended;
    forall a | 0 <= a < |s'.log|
      ensures OneEnd(s'.log[a].history) && (!Present(s', a) ==> Ended(s'.log[a].history))
    {
      assert Present(s', a) <==> Present(s, a);
    }
  }

  /** What emitting `e`, and marking the command terminal if `e` is terminal, does to its TrackedCommand. */
  function Emitted(t: Tracked, e: Event, now: int): Tracked {
    t.(lastEmitted := t.lastEmitted + 1,
       buffer := t.buffer + [Rec(t.lastEmitted + 1, e)],
       phase := if IsTerminalEvent(e) then Terminal(ResolveTerminalState(e), now) else t.phase)
  }

  lemma EmittedOk(t: Tracked, h: seq<Event>, e: Event, now: int)
    requires BufferOk(t, h) && PhaseOk(t, h) && OneEnd(h) && !t.phase.Terminal?
    ensures BufferOk(Emitted(t, e, now), h + [e]) && PhaseOk(Emitted(t, e, now), h + [e]) && OneEnd(h + [e])
  {
  }

  lemma EmitTouches(s: State, id: Id, e: Event, now: int)
    requires Live(s, id) && s.tracked[id].ticket < |s.log| && !s.tracked[id].phase.Queued?
    ensures var s' := EmitAndMark(s, id, e, now);
      && Touches(s, s', id)
      && s'.tracked[id] == Emitted(s.tracked[id], e, now)
      && s'.log[s.tracked[id].ticket].history == s.log[s.tracked[id].ticket].history + [e]
  {
    EmitAndMarkIs(s, id, e, now);
  }

  lemma EmitKeepsCore(s: State, id: Id, e: Event, now: int)
    requires Core(s)
    requires id in s.tracked ==> !s.tracked[id].phase.Queued?
    ensures Core(EmitAndMark(s, id, e, now))
  {
    if Live(s, id) {
      var n := s.tracked[id].ticket;
      assert n < |s.log| && BufferOk(s.tracked[id], s.log[n].history) && PhaseOk(s.tracked[id], s.log[n].history);
      assert OneEnd(s.log[n].history);
      EmitTouches(s, id, e, now);
      EmittedOk(s.tracked[id], s.log[n].history, e, now);
      var s' := EmitAndMark(s, id, e, now);
      assert Touches(s, s', id);
      hide EmitAndMark;
      assert QueueOk(s') by { TouchKeepsQueue(s, s', id); }
      assert TrackedOk(s') by { TouchKeepsTracked(s, s', id); }
      assert FlightOk(s') && LocksOk(s') by { TouchKeepsFlight(s, s', id); }
      assert FifoOk(s') by { TouchKeepsFifo(s, s', id); }
      assert AccountedOk(s') by { TouchKeepsAccounted(s, s', id); }
      assert HistoryOk(s') && EndsOk(s') by { TouchKeepsHistory(s, s', id); }
    }
  }

  // ---------------------------------------------------------------------------------------------
  // Taking a command out of the queue
  // ---------------------------------------------------------------------------------------------

  /** `s'` is `s` after the command at index `i` left the queue and emitted its only event `e`. */
  ghost predicate Dequeues(s: State, s': State, i: nat, e: Event) {
    && i < |s.queue| && s.queue[i].id in s.tracked && s.tracked[s.queue[i].id].ticket < |s.log|
    && (var c := s.queue[i];
        var t := s.tracked[c.id];
        && s'.queue == RemoveAt(s.queue, i)
        && s'.tracked.Keys == s.tracked.Keys
        && (forall x | x in s.tracked && x != c.id :: s'.tracked[x] == s.tracked[x])
        && s'.tracked[c.id].command == t.command && s'.tracked[c.id].ticket == t.ticket
        && !s'.tracked[c.id].phase.Queued?
        && BufferOk(s'.tracked[c.id], [e]) && PhaseOk(s'.tracked[c.id], [e])
        && s.log[t.ticket].command == c
        && s'.log == s.log[t.ticket := Entry(c, [e])]
        && s'.maxInFlight == s.maxInFlight && s'.connected == s.connected)
  }

  lemma DequeueKeepsQueue(s: State, s': State, i: nat, e: Event)
    requires QueueOk(s) && Dequeues(s, s', i, e)
    ensures QueueOk(s')
  {
    hide BufferOk, PhaseOk, IndexOf;
    var id := s.queue[i].id;
    forall j | 0 <= j < |s'.queue|
      ensures s'.queue[j].id in s'.tracked && s'.tracked[s'.queue[j].id].phase.Queued?
           && s'.tracked[s'.queue[j].id].command == s'.queue[j]
    {
      assert s'.queue[j].id != id;
    }
    forall x | x in s'.tracked && s'.tracked[x].phase.Queued? ensures IndexOf(s'.queue, x) < |s'.queue| {
      assert x != id;
      IndexAfterRemoval(s.queue, i, x);
    }
  }

  lemma IndexAfterRemoval(queue: seq<Command>, i: nat, id: Id)
    requires i < |queue| && IndexOf(queue, id) < |queue| && queue[i].id != id
    ensures IndexOf(RemoveAt(queue, i), id) < |queue| - 1
  {
    var k := IndexOf(queue, id);
    IndexOfFinds(RemoveAt(queue, i), id, if k < i then k else k - 1);
  }

  lemma DequeueKeepsHistory(s: State, s': State, i: nat, e: Event)
    requires TrackedOk(s) && HistoryOk(s) && EndsOk(s) && Dequeues(s, s', i, e)
    ensures HistoryOk(s') && EndsOk(s')
  {
    hide BufferOk, PhaseOk;
    var id := s.queue[i].id;
    var n := s.tracked[id].ticket;
    assert s.log[n].command.id == id;
    DequeueKeepsEnds(s, s', i, e);
    hide EndsOk;
    forall x | x in s'.tracked
      ensures s'.tracked[x].ticket < |s'.log|
      ensures BufferOk(s'.tracked[x], s'.log[s'.tracked[x].ticket].history)
      ensures PhaseOk(s'.tracked[x], s'.log[s'.tracked[x].ticket].history)
    {
      if x != id { assert s.log[s.tracked[x].ticket].command.id == x; }
    }
  }

  lemma DequeueKeepsEnds(s: State, s': State, i: nat, e: Event)
    requires EndsOk(s) && Dequeues(s, s', i, e)
    ensures EndsOk(s')
  {
    hide BufferOk, PhaseOk, Ended;
    forall a | 0 <= a < |s'.log|
      ensures OneEnd(s'.log[a].history) && (!Present(s', a) ==> Ended(s'.log[a].history))
    {
      assert s'.log[a].command == s.log[a].command;
    }
  }

  lemma DequeueKeepsAccounted(s: State, s': State, i: nat, e: Event)
    requires AccountedOk(s) && TrackedOk(s) && Dequeues(s, s', i, e)
    requires var n := s.tracked[s.queue[i].id].ticket;
      && n !in s.starts
      && ((s'.starts == s.starts + [n] && e == RunningStatus(s.queue[i]))
          || (s'.starts == s.starts && CancelledInQueue([e])))
    ensures AccountedOk(s')
  {
    var id := s.queue[i].id;
    var n := s.tracked[id].ticket;
    forall a | 0 <= a < |s'.log| ensures Accounted(s', a) {
      assert Accounted(s, a);
      assert s'.log[a].command == s.log[a].command;
      if a != n {
        assert a in s'.starts <==> a in s.starts;
        assert s'.log[a] == s.log[a];
      }
    }
  }

  lemma CancelledEnds(h: seq<Event>)
    ensures CancelledInQueue(h) ==> Ended(h)
  {
  }

  /** A command still in the queue has no history and has not been started. */
  lemma QueuedIsFresh(s: State, i: nat)
    requires i < |s.queue| && QueueOk(s) && TrackedOk(s) && AccountedOk(s) && HistoryOk(s)
    ensures var n := s.tracked[s.queue[i].id].ticket;
      && n < |s.log| && s.log[n] == Entry(s.queue[i], []) && n !in s.starts
      && s.tracked[s.queue[i].id].buffer == [] && s.tracked[s.queue[i].id].lastEmitted == 0
      && s.queue[i].id !in s.inFlight
  {
    var t := s.tracked[s.queue[i].id];
    var n := t.ticket;
    assert Accounted(s, n) && Present(s, n);
    assert PhaseOk(t, s.log[n].history) && BufferOk(t, s.log[n].history);
    CancelledEnds(s.log[n].history);
  }

  lemma StartIs(s: State, i: nat)
    requires i < |s.queue| && QueueOk(s) && TrackedOk(s) && AccountedOk(s) && HistoryOk(s)
    ensures var s', c := StartAt(s, i), s.queue[i];
      var n, key := s.tracked[c.id].ticket, DeriveLockKey(c);
      && Dequeues(s, s', i, RunningStatus(c))
      && s'.tracked[c.id].phase == Running
      && s'.lockOwners == (if key.Some? then s.lockOwners[key.value := c.id] else s.lockOwners)
      && s'.inFlight == s.inFlight[c.id := n]
      && s'.runs == s.runs[n := Run(c.id, key, None, false)]
      && s'.starts == s.starts + [n]
  {
    hide AccountedOk, HistoryOk, TrackedOk, BufferOk, PhaseOk, IndexOf, DeriveLockKey, RunningStatus;
    var c := s.queue[i];
    QueuedIsFresh(s, i);
    OwnEvents(c, "", "", 0, true, JNull);
    StartedTracked(s.tracked[c.id], RunningStatus(c));
    ExecuteIs(s.(queue := RemoveAt(s.queue, i)), c);
    hide Execute;
    assert [] + [RunningStatus(c)] == [RunningStatus(c)];
  }

  /** The TrackedCommand of a command that has just been started. */
  function Started(t: Tracked, e: Event): Tracked {
    t.(phase := Running, lastEmitted := t.lastEmitted + 1, buffer := t.buffer + [Rec(t.lastEmitted + 1, e)])
  }

  lemma StartedTracked(t: Tracked, e: Event)
    requires t.buffer == [] && t.lastEmitted == 0 && !IsTerminalEvent(e)
    ensures BufferOk(Started(t, e), [e]) && PhaseOk(Started(t, e), [e])
  {
  }

  lemma ExecuteIs(s: State, c: Command)
    requires c.id in s.tracked
    ensures var t, key := s.tracked[c.id], DeriveLockKey(c);
      Execute(s, c) == s.(
        tracked := s.tracked[c.id := Started(t, RunningStatus(c))],
        lockOwners := if key.Some? then s.lockOwners[key.value := c.id] else s.lockOwners,
        inFlight := s.inFlight[c.id := t.ticket],
        runs := s.runs[t.ticket := Run(c.id, key, None, false)],
        starts := s.starts + [t.ticket],
        log := Record(s.log, t.ticket, RunningStatus(c)),
        sent := s.sent + [EventSent(c.id, Rec(t.lastEmitted + 1, RunningStatus(c)))])
  {
    hide DeriveLockKey, RunningStatus, Record;
    var t := s.tracked[c.id];
    assert s.tracked[c.id := t.(phase := Running)][c.id := Started(t, RunningStatus(c))] == s.tracked[c.id := Started(t, RunningStatus(c))];
  }

  /** `s'` is `s` after the command at index `i` left the queue and was started. */
  ghost predicate Launches(s: State, s': State, i: nat) {
    && i < |s.queue| && s.queue[i].id in s.tracked && s.queue[i].id !in s.inFlight
    && (var c := s.queue[i];
        var n, key := s.tracked[c.id].ticket, DeriveLockKey(c);
        && Dequeues(s, s', i, RunningStatus(c))
        && s'.tracked[c.id].phase == Running
        && n !in s.starts
        && s'.lockOwners == (if key.Some? then s.lockOwners[key.value := c.id] else s.lockOwners)
        && s'.inFlight == s.inFlight[c.id := n]
        && s'.runs == s.runs[n := Run(c.id, key, None, false)]
        && s'.starts == s.starts + [n])
  }

  lemma LaunchKeepsFlight(s: State, s': State, i: nat)
    requires Launches(s, s', i) && FlightOk(s)
    ensures FlightOk(s')
  {
    var c := s.queue[i];
    var n := s.tracked[c.id].ticket;
    assert n !in s.runs;
    forall k | k in s'.runs
      ensures s'.runs[k].id in s'.inFlight && s'.inFlight[s'.runs[k].id] == k && k < |s'.log|
           && s'.log[k].command.id == s'.runs[k].id && s'.runs[k].lockKey == DeriveLockKey(s'.log[k].command)
    {
      if k != n { assert s.runs[k].id != c.id; }
    }
  }

  lemma LaunchKeepsTracked(s: State, s': State, i: nat)
    requires Launches(s, s', i) && TrackedOk(s)
    ensures TrackedOk(s')
  {
    forall x | x in s'.tracked
      ensures var t := s'.tracked[x];
        && t.ticket < |s'.log| && s'.log[t.ticket].command == t.command && t.command.id == x
        && (t.phase.Running? ==> x in s'.inFlight)
        && (x in s'.inFlight ==> !t.phase.Queued? && s'.inFlight[x] == t.ticket)
    {
      assert x in s.tracked;
    }
  }

  lemma LaunchKeepsLocks(s: State, s': State, i: nat)
    requires Launches(s, s', i) && FlightOk(s) && LocksOk(s) && i == FirstFree(s.queue, s.lockOwners)
    ensures LocksOk(s')
  {
    hide FirstFree, DeriveLockKey, FifoOk, BufferOk;
    FirstFreeMeaning(s.queue, s.lockOwners);
    var c, n := s.queue[i], s.tracked[s.queue[i].id].ticket;
    assert n !in s.runs;
    OwnerKeepsLocks(s, s', c.id, n, DeriveLockKey(c));
  }

  /** A new execution takes its free lock. */
  lemma OwnerKeepsLocks(s: State, s': State, id: Id, n: nat, key: Option<string>)
    requires LocksOk(s) && id !in s.inFlight && n !in s.runs && (key.Some? ==> key.value !in s.lockOwners)
    requires s'.lockOwners == (if key.Some? then s.lockOwners[key.value := id] else s.lockOwners)
    requires s'.inFlight == s.inFlight[id := n] && s'.runs == s.runs[n := Run(id, key, None, false)]
    ensures LocksOk(s')
  {
  }

  /** Same lane, same answer to the lock test. */
  lemma FirstInLane(s: State, i: nat, j: nat)
    requires i < |s.queue| && j < i && i == FirstFree(s.queue, s.lockOwners)
    ensures DeriveLockKey(s.queue[j]) != DeriveLockKey(s.queue[i])
  {
    FirstFreeMeaning(s.queue, s.lockOwners);
  }

  lemma LaunchKeepsFifo(s: State, s': State, i: nat)
    requires Launches(s, s', i) && FifoOk(s) && i == FirstFree(s.queue, s.lockOwners)
    ensures FifoOk(s')
  {
    hide BufferOk, PhaseOk, FirstFree, FifoOk;
    var c := s.queue[i];
    var n := s.tracked[c.id].ticket;
    assert Ticket(s, c) == n && DeriveLockKey(c) == Lane(s, n);
    hide DeriveLockKey;
    forall j | 0 <= j < |s'.queue| ensures Ticket(s', s'.queue[j]) == Ticket(s, s'.queue[j]) {
    }
    forall a | 0 <= a < |s.log| ensures Lane(s', a) == Lane(s, a) {
    }
    hide Ticket, Lane;
    LaunchedKeepsOrder(s, s', i, n);
  }

  /** The first command that can start goes from the queue to the started ones, with all tickets and lanes as they were. */
  lemma LaunchedKeepsOrder(s: State, s': State, i: nat, n: nat)
    requires FifoOk(s) && i < |s.queue| && i == FirstFree(s.queue, s.lockOwners) && n < |s.log| && |s'.log| == |s.log|
    requires s'.queue == RemoveAt(s.queue, i) && s'.starts == s.starts + [n]
    requires Ticket(s, s.queue[i]) == n && DeriveLockKey(s.queue[i]) == Lane(s, n)
    requires forall j | 0 <= j < |s'.queue| :: Ticket(s', s'.queue[j]) == Ticket(s, s'.queue[j])
    requires forall a | 0 <= a < |s.log| :: Lane(s', a) == Lane(s, a)
    ensures FifoOk(s')
  {
    hide Ticket, Lane, DeriveLockKey, FirstFree;
    forall x, j | 0 <= x < |s'.starts| && 0 <= j < |s'.queue| && Lane(s', s'.starts[x]) == DeriveLockKey(s'.queue[j])
      ensures s'.starts[x] < Ticket(s', s'.queue[j])
    {
      var k := if j < i then j else j + 1;
      assert s'.queue[j] == s.queue[k];
      if x < |s.starts| {
        assert s.starts[x] < Ticket(s, s.queue[k]);
      } else if j < i {
        FirstInLane(s, i, j);
      }
    }
    forall x, y | 0 <= x < y < |s'.starts| && Lane(s', s'.starts[x]) == Lane(s', s'.starts[y])
      ensures s'.starts[x] < s'.starts[y]
    {
      if y == |s.starts| { assert s.starts[x] < Ticket(s, s.queue[i]); }
    }
  }

  lemma LaunchKeepsLimit(s: State, s': State, i: nat)
    requires Launches(s, s', i) && |s.inFlight| < Limit(s)
    ensures |s'.inFlight| <= Limit(s')
  {
    hide DeriveLockKey, BufferOk, PhaseOk;
    OneMoreKey(s.inFlight, s.queue[i].id, s.tracked[s.queue[i].id].ticket);
  }

  lemma OneMoreKey(m: map<Id, nat>, id: Id, n: nat)
    ensures |m[id := n]| <= |m| + 1
  {
    assert m[id := n].Keys == m.Keys + {id};
  }

  lemma StartKeepsCore(s: State)
    requires Core(s) && CanStart(s)
    ensures Core(StartAt(s, FirstFree(s.queue, s.lockOwners)))
  {
    hide QueueOk, FlightOk, TrackedOk, LocksOk, FifoOk, AccountedOk, HistoryOk, EndsOk, FirstFree, StartAt, DeriveLockKey;
    var i := FirstFree(s.queue, s.lockOwners);
    var s', e := StartAt(s, i), RunningStatus(s.queue[i]);
    StartIs(s, i);
    QueuedIsFresh(s, i);
    assert Launches(s, s', i);
    hide Launches, Dequeues;
    DequeueKeepsQueue(s, s', i, e);
    LaunchKeepsFlight(s, s', i);
    LaunchKeepsTracked(s, s', i);
    LaunchKeepsLocks(s, s', i);
    LaunchKeepsFifo(s, s', i);
    DequeueKeepsAccounted(s, s', i, e);
    DequeueKeepsHistory(s, s', i, e);
    LaunchKeepsLimit(s, s', i);
  }

  lemma {:induction false} FillKeepsCore(s: State)
    requires Core(s)
    ensures Core(Fill(s)) && !CanStart(Fill(s)) && Fill(s).connected == s.connected && Inv(Schedule(s))
    decreases |s.queue|
  {
    if CanStart(s) {
      var i := FirstFree(s.queue, s.lockOwners);
      ExecuteKeepsQueue(s.(queue := RemoveAt(s.queue, i)), s.queue[i]);
      StartKeepsCore(s);
      FillKeepsCore(StartAt(s, i));
    }
  }

  // ---------------------------------------------------------------------------------------------
  // The remaining pieces of steps
  // ---------------------------------------------------------------------------------------------

  lemma CancelQueuedIs(s: State, i: nat, reason: string, now: int)
    requires i < |s.queue| && QueueOk(s) && TrackedOk(s) && AccountedOk(s) && HistoryOk(s)
    ensures var c := s.queue[i];
      var s' := EmitAndMark(s.(queue := RemoveAt(s.queue, i)), c.id, CancelledDone(reason), now);
      && Dequeues(s, s', i, CancelledDone(reason))
      && CancelledInQueue([CancelledDone(reason)])
      && s'.tracked[c.id].phase.Terminal?
      && s'.lockOwners == s.lockOwners && s'.inFlight == s.inFlight && s'.runs == s.runs && s'.starts == s.starts
  {
    hide AccountedOk, HistoryOk, TrackedOk, PhaseOk, BufferOk, EmitAndMark, CancelledDone, IsTerminalEvent, ResolveTerminalState, IndexOf;
    var c, e := s.queue[i], CancelledDone(reason);
    QueuedIsFresh(s, i);
    OwnEvents(c, reason, "", 0, true, JNull);
    EmitAndMarkIs(s.(queue := RemoveAt(s.queue, i)), c.id, e, now);
    CancelledTracked(s.tracked[c.id], e, now);
    hide Emitted;
    assert [] + [e] == [e];
  }

  lemma CancelledTracked(t: Tracked, e: Event, now: int)
    requires t.buffer == [] && t.lastEmitted == 0 && IsTerminalEvent(e) && ResolveTerminalState(e) == Cancelled
    ensures var t' := Emitted(t, e, now);
      && t'.command == t.command && t'.ticket == t.ticket && t'.phase == Terminal(Cancelled, now)
      && BufferOk(t', [e]) && PhaseOk(t', [e])
  {
    hide ResolveTerminalState, IsTerminalEvent;
    assert t.buffer + [Rec(1, e)] == [Rec(1, e)];
  }

  lemma DequeueKeepsRest(s: State, s': State, i: nat, e: Event)
    requires Dequeues(s, s', i, e) && s.queue[i].id !in s.inFlight
    requires s'.lockOwners == s.lockOwners && s'.inFlight == s.inFlight && s'.runs == s.runs && s'.starts == s.starts
    requires s'.tracked[s.queue[i].id].phase.Terminal?
    requires FlightOk(s) && LocksOk(s) && TrackedOk(s)
    ensures FlightOk(s') && LocksOk(s') && TrackedOk(s')
  {
    hide BufferOk, PhaseOk, FlightOk, LocksOk;
    DequeueKeepsFlight(s, s', i, e);
    forall x | x in s'.tracked
      ensures var t := s'.tracked[x];
        && t.ticket < |s'.log| && s'.log[t.ticket].command == t.command && t.command.id == x
        && (t.phase.Running? ==> x in s'.inFlight)
        && (x in s'.inFlight ==> !t.phase.Queued? && s'.inFlight[x] == t.ticket)
    {
      assert x in s.tracked;
    }
  }

  lemma DequeueKeepsFlight(s: State, s': State, i: nat, e: Event)
    requires Dequeues(s, s', i, e)
    requires s'.lockOwners == s.lockOwners && s'.inFlight == s.inFlight && s'.runs == s.runs
    requires FlightOk(s) && LocksOk(s)
    ensures FlightOk(s') && LocksOk(s')
  {
    hide DeriveLockKey, FlightOk, LocksOk, BufferOk, PhaseOk;
    LongerLogKeepsFlight(s, s');
  }

  lemma DequeueKeepsFifo(s: State, s': State, i: nat, e: Event)
    requires Dequeues(s, s', i, e) && FifoOk(s) && s'.starts == s.starts
    ensures FifoOk(s')
  {
    forall j | 0 <= j < |s'.queue| ensures Ticket(s', s'.queue[j]) == Ticket(s, s'.queue[j]) {
    }
    forall a | 0 <= a < |s.log| ensures Lane(s', a) == Lane(s, a) {
    }
  }

  /** `s'` is `s` after the command at index `i` was cancelled in the queue. */
  ghost predicate Withdraws(s: State, s': State, i: nat, e: Event) {
    && Dequeues(s, s', i, e) && CancelledInQueue([e])
    && s.queue[i].id !in s.inFlight && s.tracked[s.queue[i].id].ticket !in s.starts
    && s'.tracked[s.queue[i].id].phase.Terminal?
    && s'.lockOwners == s.lockOwners && s'.inFlight == s.inFlight && s'.runs == s.runs && s'.starts == s.starts
  }

  lemma WithdrawKeepsCore(s: State, s': State, i: nat, e: Event)
    requires Core(s) && Withdraws(s, s', i, e)
    ensures Core(s')
  {
    assert QueueOk(s') by { DequeueKeepsQueue(s, s', i, e); }
    assert FlightOk(s') && LocksOk(s') && TrackedOk(s') by { DequeueKeepsRest(s, s', i, e); }
    assert FifoOk(s') by { DequeueKeepsFifo(s, s', i, e); }
    assert AccountedOk(s') by { DequeueKeepsAccounted(s, s', i, e); }
    assert HistoryOk(s') && EndsOk(s') by { DequeueKeepsHistory(s, s', i, e); }
  }

  lemma CancelQueuedKeepsInv(s: State, i: nat, reason: string, now: int)
    requires Inv(s) && i < |s.queue|
    ensures Inv(EmitAndMark(s.(queue := RemoveAt(s.queue, i)), s.queue[i].id, CancelledDone(reason), now))
  {
    var s' := EmitAndMark(s.(queue := RemoveAt(s.queue, i)), s.queue[i].id, CancelledDone(reason), now);
    assert Withdraws(s, s', i, CancelledDone(reason)) by {
      CancelQueuedIs(s, i, reason, now);
      QueuedIsFresh(s, i);
    }
    WithdrawKeepsCore(s, s', i, CancelledDone(reason));
    FewerStillBlocked(s.queue, i, s.lockOwners);
  }

  /** Taking a command away does not unblock the others. */
  lemma FewerStillBlocked(queue: seq<Command>, i: nat, owners: map<string, Id>)
    requires i < |queue|
    ensures FirstFree(queue, owners) == |queue| ==> FirstFree(RemoveAt(queue, i), owners) == |queue| - 1
  {
    FirstFreeMeaning(queue, owners);
    FirstFreeMeaning(RemoveAt(queue, i), owners);
  }

  /** Accepting a command whose id is neither tracked nor in flight. */
  lemma AddKeepsCore(s: State, c: Command)
    requires Core(s) && c.id !in s.tracked && c.id !in s.inFlight
    ensures Core(AddCommand(s, c))
  {
    hide QueueOk, FlightOk, TrackedOk, LocksOk, FifoOk, AccountedOk, HistoryOk, EndsOk;
    AddKeepsQueue(s, c);
    AddKeepsTracked(s, c);
    AddKeepsFifo(s, c);
    AddKeepsAccounted(s, c);
    AddKeepsHistory(s, c);
  }

  lemma AddKeepsTracked(s: State, c: Command)
    requires TrackedOk(s) && FlightOk(s) && LocksOk(s) && c.id !in s.tracked && c.id !in s.inFlight
    ensures TrackedOk(AddCommand(s, c)) && FlightOk(AddCommand(s, c)) && LocksOk(AddCommand(s, c))
  {
    var s' := AddCommand(s, c);
    assert forall a | 0 <= a < |s.log| :: s'.log[a] == s.log[a];
    LongerLogKeepsFlight(s, s');
    hide FlightOk, LocksOk, DeriveLockKey;
    assert s'.log[|s.log|].command == c;
  }

  lemma LongerLogKeepsFlight(s: State, s': State)
    requires s'.lockOwners == s.lockOwners && s'.inFlight == s.inFlight && s'.runs == s.runs && FlightOk(s) && LocksOk(s)
    requires |s.log| <= |s'.log| && forall a | 0 <= a < |s.log| :: s'.log[a].command == s.log[a].command
    ensures FlightOk(s') && LocksOk(s')
  {
    hide DeriveLockKey;
  }

  lemma AddKeepsQueue(s: State, c: Command)
    requires QueueOk(s) && c.id !in s.tracked
    ensures QueueOk(AddCommand(s, c))
  {
    var s' := AddCommand(s, c);
    forall x | x in s'.tracked && s'.tracked[x].phase.Queued? ensures IndexOf(s'.queue, x) < |s'.queue| {
      if x == c.id {
        IndexOfFinds(s'.queue, x, |s.queue|);
      } else {
        var k := IndexOf(s.queue, x);
        assert s'.queue[k] == s.queue[k];
        IndexOfFinds(s'.queue, x, k);
      }
    }
  }

  lemma AddKeepsFifo(s: State, c: Command)
    requires FifoOk(s) && QueueOk(s) && TrackedOk(s) && c.id !in s.tracked
    ensures FifoOk(AddCommand(s, c))
  {
    hide DeriveLockKey, IndexOf, FifoOk;
    var s' := AddCommand(s, c);
    forall i | 0 <= i < |s.queue| ensures s'.queue[i] == s.queue[i] && Ticket(s', s.queue[i]) == Ticket(s, s.queue[i]) < |s.log| {
      assert s.queue[i].id in s.tracked;
    }
    assert Ticket(s', c) == |s.log|;
    hide Ticket, AddCommand, QueueOk, TrackedOk;
    forall a | 0 <= a < |s.log| ensures Lane(s', a) == Lane(s, a) {
    }
    QueuedLastKeepsFifo(s, s', c);
  }

  /** A command queued last, with the highest ticket, keeps the order. */
  lemma QueuedLastKeepsFifo(s: State, s': State, c: Command)
    requires FifoOk(s) && s'.queue == s.queue + [c] && s'.starts == s.starts && |s'.log| == |s.log| + 1
    requires forall i | 0 <= i < |s.queue| :: Ticket(s', s.queue[i]) == Ticket(s, s.queue[i]) < |s.log|
    requires Ticket(s', c) == |s.log| && forall a | 0 <= a < |s.log| :: Lane(s', a) == Lane(s, a)
    ensures FifoOk(s')
  {
    hide Ticket, DeriveLockKey;
  }

  lemma AddKeepsAccounted(s: State, c: Command)
    requires AccountedOk(s) && TrackedOk(s) && FifoOk(s) && c.id !in s.tracked
    ensures AccountedOk(AddCommand(s, c))
  {
    var s' := AddCommand(s, c);
    forall a | 0 <= a < |s'.log| ensures Accounted(s', a) {
      if a < |s.log| {
        assert Accounted(s, a) && s'.log[a] == s.log[a];
        assert Present(s, a) ==> Present(s', a);
        assert Present(s', a) ==> s'.tracked[s.log[a].command.id].ticket == a;
      } else {
        assert Present(s', a) && s'.log[a].history == [];
        assert a !in s.starts;
      }
    }
  }

  lemma AddKeepsHistory(s: State, c: Command)
    requires HistoryOk(s) && EndsOk(s) && TrackedOk(s) && c.id !in s.tracked
    ensures HistoryOk(AddCommand(s, c)) && EndsOk(AddCommand(s, c))
  {
    var s' := AddCommand(s, c);
    forall x | x in s'.tracked
      ensures s'.tracked[x].ticket < |s'.log|
      ensures BufferOk(s'.tracked[x], s'.log[s'.tracked[x].ticket].history)
      ensures PhaseOk(s'.tracked[x], s'.log[s'.tracked[x].ticket].history)
    {
      if x != c.id { assert s'.log[s.tracked[x].ticket] == s.log[s.tracked[x].ticket]; }
    }
    forall a | 0 <= a < |s'.log|
      ensures OneEnd(s'.log[a].history) && (!Present(s', a) ==> Ended(s'.log[a].history))
    {
      if a < |s.log| {
        assert s'.log[a] == s.log[a];
        assert Present(s, a) ==> Present(s', a);
      } else {
        assert Present(s', a);
      }
    }
  }

  lemma PruneKeepsFifo(s: State, removed: set<Id>)
    requires QueueOk(s) && FifoOk(s) && removed <= TerminalIds(s.tracked)
    ensures FifoOk(s.(tracked := s.tracked - removed)) && QueueOk(s.(tracked := s.tracked - removed))
  {
    var s' := s.(tracked := s.tracked - removed);
    forall i | 0 <= i < |s.queue| ensures s.queue[i].id !in removed && Ticket(s', s.queue[i]) == Ticket(s, s.queue[i]) {
    }
    forall a | 0 <= a < |s.log| ensures Lane(s', a) == Lane(s, a) {
    }
  }

  lemma PruneKeepsLog(s: State, removed: set<Id>)
    requires AccountedOk(s) && HistoryOk(s) && EndsOk(s) && removed <= TerminalIds(s.tracked)
    ensures AccountedOk(s.(tracked := s.tracked - removed))
    ensures HistoryOk(s.(tracked := s.tracked - removed)) && EndsOk(s.(tracked := s.tracked - removed))
  {
    var s' := s.(tracked := s.tracked - removed);
    forall a | 0 <= a < |s'.log|
      ensures Accounted(s', a)
      ensures OneEnd(s'.log[a].history) && (!Present(s', a) ==> Ended(s'.log[a].history))
    {
      assert Accounted(s, a);
      var id := s.log[a].command.id;
      if Present(s, a) && !Present(s', a) {
        assert id in removed && PhaseOk(s.tracked[id], s.log[a].history);
      }
    }
  }

  lemma PruneKeepsTracked(s: State, removed: set<Id>)
    requires TrackedOk(s) && FlightOk(s) && LocksOk(s)
    ensures var s' := s.(tracked := s.tracked - removed); TrackedOk(s') && FlightOk(s') && LocksOk(s')
  {
  }

  /** Forgetting terminal commands. */
  lemma PruneKeepsInv(s: State, removed: set<Id>)
    requires Inv(s) && removed <= TerminalIds(s.tracked)
    ensures Inv(s.(tracked := s.tracked - removed))
  {
    hide FifoOk, QueueOk, AccountedOk, HistoryOk, EndsOk, TrackedOk, FlightOk, LocksOk, FirstFree, TerminalIds;
    PruneKeepsFifo(s, removed);
    PruneKeepsLog(s, removed);
    PruneKeepsTracked(s, removed);
  }

  lemma ReleaseKeepsFifo(s: State, n: nat)
    requires FifoOk(s) && AccountedOk(s) && n in s.runs
    ensures FifoOk(Release(s, n)) && AccountedOk(Release(s, n))
  {
    var s' := Release(s, n);
    forall c: Command ensures Ticket(s', c) == Ticket(s, c) {
    }
    forall a | 0 <= a < |s.log| ensures Lane(s', a) == Lane(s, a) && Accounted(s', a) {
      assert Accounted(s, a);
    }
  }

  lemma ReleaseKeepsTracked(s: State, n: nat)
    requires TrackedOk(s) && n in s.runs && !Live(s, s.runs[n].id)
    ensures TrackedOk(Release(s, n))
  {
  }

  /** Removing a finished execution. */
  lemma ReleaseKeepsCore(s: State, n: nat)
    requires Core(s) && n in s.runs && !Live(s, s.runs[n].id)
    ensures Core(Release(s, n))
  {
    var s' := Release(s, n);
    assert LocksOk(s') && FlightOk(s') by { ReleaseKeepsLocks(s, n); }
    assert FifoOk(s') && AccountedOk(s') by { ReleaseKeepsFifo(s, n); }
    assert TrackedOk(s') by { ReleaseKeepsTracked(s, n); }
    assert |s'.inFlight| <= Limit(s') by { ReleaseShrinks(s, n); }
    assert QueueOk(s') && HistoryOk(s') && EndsOk(s');
  }

  lemma ReleaseShrinks(s: State, n: nat)
    requires n in s.runs && FlightOk(s)
    ensures |Release(s, n).inFlight| == |s.inFlight| - 1
  {
    var id := s.runs[n].id;
    var s' := Release(s, n);
    assert s'.inFlight.Keys == s.inFlight.Keys - {id};
  }

  lemma ReleaseKeepsLocks(s: State, n: nat)
    requires LocksOk(s) && FlightOk(s) && n in s.runs
    ensures LocksOk(Release(s, n)) && FlightOk(Release(s, n))
  {
    hide DeriveLockKey;
    var s' := Release(s, n);
    var id := s.runs[n].id;
    forall m | m in s'.runs ensures s.runs[m].id != id {
    }
    ReleaseKeepsFlight(s, n);
    ReleaseKeepsOwners(s, n);
    hide FlightOk;
    forall m | m in s'.runs && s'.runs[m].lockKey.Some?
      ensures s'.runs[m].lockKey.value in s'.lockOwners && s'.lockOwners[s'.runs[m].lockKey.value] == s'.runs[m].id
    {
      assert s.runs[m].id != id;
    }
  }

  lemma ReleaseKeepsFlight(s: State, n: nat)
    requires FlightOk(s) && n in s.runs
    ensures FlightOk(Release(s, n))
  {
    hide DeriveLockKey;
  }

  lemma ReleaseKeepsOwners(s: State, n: nat)
    requires LocksOk(s) && FlightOk(s) && n in s.runs
    ensures var s' := Release(s, n);
      forall k | k in s'.lockOwners ::
        && s'.lockOwners[k] in s'.inFlight && s'.inFlight[s'.lockOwners[k]] in s'.runs
        && s'.runs[s'.inFlight[s'.lockOwners[k]]].lockKey == Some(k)
  {
    hide DeriveLockKey;
    var s', id := Release(s, n), s.runs[n].id;
    forall k | k in s'.lockOwners
      ensures s'.lockOwners[k] in s'.inFlight && s'.inFlight[s'.lockOwners[k]] in s'.runs
           && s'.runs[s'.inFlight[s'.lockOwners[k]]].lockKey == Some(k)
    {
      assert s.runs[s.inFlight[s.lockOwners[k]]].lockKey == Some(k);
      assert s.lockOwners[k] != id;
    }
  }

  lemma {:induction false} KeepAfterIs(buffer: seq<Rec>, base: nat, acked: nat)
    requires forall j | 0 <= j < |buffer| :: buffer[j].sequence == base + j + 1
    ensures KeepAfter(buffer, acked) == buffer[(if acked <= base then 0 else Min(acked - base, |buffer|))..]
  {
    if buffer != [] {
      var rest := buffer[1..];
      assert buffer[0].sequence == base + 1 && buffer == [buffer[0]] + rest;
      assert forall j | 0 <= j < |rest| :: rest[j] == buffer[j + 1];
      KeepAfterIs(rest, base + 1, acked);
      assert acked > base ==> rest[Min(acked - base - 1, |rest|)..] == buffer[Min(acked - base, |buffer|)..];
    }
  }

  /** The TrackedCommand after an acknowledgement up to `sequence`. */
  function Acked(t: Tracked, sequence: nat): Tracked {
    var acked := Max(t.lastAcked, sequence) as nat;
    if t.phase.Terminal? then t.(lastAcked := acked)
    else t.(lastAcked := acked, buffer := KeepAfter(t.buffer, acked))
  }

  lemma AckedOk(t: Tracked, h: seq<Event>, sequence: nat)
    requires BufferOk(t, h)
    ensures BufferOk(Acked(t, sequence), h)
  {
    if !t.phase.Terminal? {
      KeepAfterIs(t.buffer, |h| - |t.buffer|, Max(t.lastAcked, sequence));
    }
  }

  /** An acknowledgement changes one TrackedCommand's acknowledged sequence and buffer, nothing else. */
  lemma AckIs(s: State, id: Id, sequence: nat)
    requires id in s.tracked
    ensures Acknowledge(s, id, sequence) == s.(tracked := s.tracked[id := Acked(s.tracked[id], sequence)])
  {
  }

  lemma AckKeepsQueue(s: State, id: Id, sequence: nat)
    requires id in s.tracked && QueueOk(s) && TrackedOk(s) && FlightOk(s) && LocksOk(s)
    ensures var s' := s.(tracked := s.tracked[id := Acked(s.tracked[id], sequence)]);
      QueueOk(s') && TrackedOk(s') && FlightOk(s') && LocksOk(s')
  {
  }

  /** `s'` differs from `s` in the buffer and acknowledged sequence of one TrackedCommand. */
  ghost predicate Acks(s: State, s': State, id: Id) {
    && id in s.tracked && id in s'.tracked && s' == s.(tracked := s.tracked[id := s'.tracked[id]])
    && s'.tracked[id].ticket == s.tracked[id].ticket && s'.tracked[id].phase == s.tracked[id].phase
    && s'.tracked[id].command == s.tracked[id].command
  }

  lemma AckKeepsFifo(s: State, s': State, id: Id)
    requires Acks(s, s', id) && FifoOk(s) && AccountedOk(s)
    ensures FifoOk(s') && AccountedOk(s')
  {
    hide DeriveLockKey;
    forall c: Command ensures Ticket(s', c) == Ticket(s, c) {
    }
    forall a | 0 <= a < |s.log| ensures Lane(s', a) == Lane(s, a) && Accounted(s', a) {
      assert Accounted(s, a);
    }
  }

  lemma AckKeepsHistory(s: State, s': State, id: Id)
    requires Acks(s, s', id) && HistoryOk(s) && EndsOk(s)
    requires BufferOk(s'.tracked[id], s.log[s.tracked[id].ticket].history)
    ensures HistoryOk(s') && EndsOk(s')
  {
    hide BufferOk, OneEnd, Ended;
    forall a | 0 <= a < |s.log| ensures Present(s', a) <==> Present(s, a) {
    }
  }

  lemma AckKeepsInv(s: State, id: Id, sequence: nat)
    requires Inv(s)
    ensures Inv(Acknowledge(s, id, sequence))
  {
    if id in s.tracked {
      hide Acknowledge, CanStart, QueueOk, FlightOk, LocksOk, FifoOk, AccountedOk, EndsOk, BufferOk, PhaseOk, KeepAfter;
      AckIs(s, id, sequence);
      var s' := s.(tracked := s.tracked[id := Acked(s.tracked[id], sequence)]);
      AckedOk(s.tracked[id], s.log[s.tracked[id].ticket].history, sequence);
      assert Acks(s, s', id);
      AckKeepsQueue(s, id, sequence);
      hide HistoryOk, TrackedOk, Acked, Acks;
      AckKeepsFifo(s, s', id);
      AckKeepsHistory(s, s', id);
      CanStartAlike(s, s');
    } else {
      UnknownAck(s, id, sequence);
    }
  }

  lemma UnknownAck(s: State, id: Id, sequence: nat)
    requires id !in s.tracked
    ensures Acknowledge(s, id, sequence) == s
  {
  }

  lemma CanStartAlike(s: State, s': State)
    requires s' == s.(tracked := s'.tracked)
    ensures CanStart(s') <==> CanStart(s)
  {
  }

  /** Same executions up to their flags. */
  ghost predicate SameFlights(s: State, s': State) {
    && s'.runs.Keys == s.runs.Keys
    && forall m | m in s.runs :: s'.runs[m].id == s.runs[m].id && s'.runs[m].lockKey == s.runs[m].lockKey
  }

  lemma SameFlightsKeepFlight(s: State, s': State)
    requires s' == s.(runs := s'.runs, sent := s'.sent, connected := s'.connected) && SameFlights(s, s')
    requires FlightOk(s) && LocksOk(s)
    ensures FlightOk(s') && LocksOk(s')
  {
  }

  /** Flags of executions, messages and the connection flag are not what Core speaks of. */
  lemma SameViewKeepsCore(s: State, s': State)
    requires Core(s) && s' == s.(runs := s'.runs, sent := s'.sent, connected := s'.connected) && SameFlights(s, s')
    ensures Core(s')
  {
    hide QueueOk, FlightOk, TrackedOk, LocksOk, FifoOk, AccountedOk, HistoryOk, EndsOk;
    SameFlightsKeepFlight(s, s');
    SameViewKeepsRest(s, s');
  }

  lemma SameViewKeepsRest(s: State, s': State)
    requires s' == s.(runs := s'.runs, sent := s'.sent, connected := s'.connected)
    requires QueueOk(s) && TrackedOk(s) && FifoOk(s) && AccountedOk(s) && HistoryOk(s) && EndsOk(s)
    ensures QueueOk(s') && TrackedOk(s') && FifoOk(s') && AccountedOk(s') && HistoryOk(s') && EndsOk(s')
  {
    assert FifoOk(s') by {
      forall c: Command ensures Ticket(s', c) == Ticket(s, c) {
      }
      forall a | 0 <= a < |s.log| ensures Lane(s', a) == Lane(s, a) {
      }
    }
    forall a | 0 <= a < |s.log| ensures Accounted(s', a) && (Present(s', a) <==> Present(s, a)) {
      assert Accounted(s, a);
    }
  }

  lemma SendKeepsInv(s: State, messages: seq<Message>)
    requires Core(s)
    ensures Core(s.(sent := messages)) && (Inv(s) ==> Inv(s.(sent := messages)))
  {
    hide QueueOk, FlightOk, TrackedOk, LocksOk, FifoOk, AccountedOk, HistoryOk, EndsOk;
    SameViewKeepsCore(s, s.(sent := messages));
  }

  // ---------------------------------------------------------------------------------------------
  // Every step
  // ---------------------------------------------------------------------------------------------

  /** Whether the step accepts a new command. */
  predicate Accepts(s: State, step: Step) {
    && step.EnqueueStep?
    && (step.command.id in s.tracked ==> step.command.id in step.removed)
    && step.rejection.None?
    && ValidateCommand(step.command).None?
  }

  /** An accepted command's id must not belong to an execution that is still in flight. */
  predicate Clean(s: State, step: Step) {
    Accepts(s, step) ==> step.command.id !in s.inFlight
  }

  lemma InitInv(maxInFlight: int)
    ensures Inv(Init(maxInFlight))
  {
  }

  /** What enqueue does, in one place. */
  lemma EnqueueIs(s: State, c: Command, rejection: Option<string>, removed: set<Id>)
    ensures var s0, s' := s.(tracked := s.tracked - removed), Enqueue(s, c, rejection, removed);
      if Accepts(s, EnqueueStep(c, rejection, removed, 0)) then s' == Schedule(AddCommand(s0, c))
      else s' == s0.(sent := s'.sent)
  {
    hide Fill, Resend, ValidateCommand;
  }

  lemma EnqueueKeepsInv(s: State, c: Command, rejection: Option<string>, removed: set<Id>, now: int)
    requires Inv(s) && PruneAllows(s.tracked, removed, now)
    requires Clean(s, EnqueueStep(c, rejection, removed, now))
    ensures Inv(Enqueue(s, c, rejection, removed))
  {
    hide QueueOk, FlightOk, TrackedOk, LocksOk, FifoOk, AccountedOk, HistoryOk, EndsOk;
    hide Schedule, CanStart, AddCommand, Enqueue, ValidateCommand;
    var s0 := s.(tracked := s.tracked - removed);
    PruneKeepsInv(s, removed);
    EnqueueIs(s, c, rejection, removed);
    if Accepts(s, EnqueueStep(c, rejection, removed, 0)) {
      AddKeepsCore(s0, c);
      FillKeepsCore(AddCommand(s0, c));
    } else {
      SendKeepsInv(s0, Enqueue(s, c, rejection, removed).sent);
    }
  }

  lemma EmitKeepsInv(s: State, id: Id, e: Event, now: int)
    requires Inv(s)
    requires id in s.tracked ==> !s.tracked[id].phase.Queued?
    ensures Inv(EmitAndMark(s, id, e, now))
  {
    hide QueueOk, FlightOk, TrackedOk, LocksOk, FifoOk, AccountedOk, HistoryOk, EndsOk;
    EmitKeepsCore(s, id, e, now);
  }

  lemma RunningIsNotQueued(s: State, n: nat)
    requires TrackedOk(s) && FlightOk(s) && n in s.runs
    ensures s.runs[n].id in s.tracked ==> !s.tracked[s.runs[n].id].phase.Queued? && s.tracked[s.runs[n].id].ticket == n
  {
  }

  lemma FinishKeepsInv(s: State, n: nat, ending: Ending, now: int)
    requires Inv(s) && n in s.runs
    ensures Inv(Finish(s, n, ending, now))
  {
    hide QueueOk, FlightOk, TrackedOk, LocksOk, FifoOk, AccountedOk, HistoryOk, EndsOk;
    var id := s.runs[n].id;
    RunningIsNotQueued(s, n);
    var e := ClosingEvent(s.runs[n], ending);
    assert IsTerminalEvent(e) by { ClosingEventIsTerminal(s.runs[n], ending); }
    var s1 := if ending.Returned? && !OwnCommandOpen(s, n) then s else EmitAndMark(s, id, e, now);
    EmitKeepsCore(s, id, e, now);
    ReleaseKeepsCore(s1, n);
    FillKeepsCore(Release(s1, n));
  }

  lemma ClosingEventIsTerminal(run: Run, ending: Ending)
    ensures IsTerminalEvent(ClosingEvent(run, ending))
  {
    OwnEvents(Command("", "", "", "", None, JNull), if run.cancelReason.Some? then run.cancelReason.value else "",
              if ending.Threw? then ending.message else "", 0, true, JNull);
  }

  lemma CancelKeepsInv(s: State, id: Id, reason: string, now: int)
    requires Inv(s)
    ensures Inv(Cancel(s, id, reason, now))
  {
    hide QueueOk, FlightOk, TrackedOk, LocksOk, FifoOk, AccountedOk, HistoryOk, EndsOk;
    if IndexOf(s.queue, id) < |s.queue| {
      CancelQueuedKeepsInv(s, IndexOf(s.queue, id), reason, now);
    } else if id in s.inFlight && s.inFlight[id] in s.runs {
      SameViewKeepsCore(s, Cancel(s, id, reason, now));
    }
  }

  lemma PlainReplyKeepsInv(s: State, n: nat, reply: Event, now: int)
    requires Inv(s) && n in s.runs
    ensures Inv(PlainReply(s, n, reply, now))
  {
    RunningIsNotQueued(s, n);
    EmitKeepsInv(s, s.runs[n].id, reply, now);
    EmitKeepsRuns(s, s.runs[n].id, reply, now);
    EmitKeepsInv(EmitAndMark(s, s.runs[n].id, reply, now), s.runs[n].id, PLAIN_DONE, now);
  }

  lemma EmitKeepsRuns(s: State, id: Id, e: Event, now: int)
    ensures var s' := EmitAndMark(s, id, e, now);
      s'.runs == s.runs && s'.tracked.Keys == s.tracked.Keys
      && (id in s.tracked && !s.tracked[id].phase.Queued? ==> !s'.tracked[id].phase.Queued?)
  {
    EmitAlone(s, id, e);
    hide IsTerminalEvent, ResolveTerminalState, Emit;
  }

  lemma EmitAlone(s: State, id: Id, e: Event)
    ensures var s' := Emit(s, id, e);
      s'.runs == s.runs && s'.tracked.Keys == s.tracked.Keys && (id in s.tracked ==> s'.tracked[id].phase == s.tracked[id].phase)
  {
    hide Record;
  }

  lemma ConnectKeepsInv(s: State, on: bool)
    requires Inv(s)
    ensures Inv(Apply(s, SetConnected(on)))
  {
    hide QueueOk, FlightOk, TrackedOk, LocksOk, FifoOk, AccountedOk, HistoryOk, EndsOk;
    SameViewKeepsCore(s, s.(connected := on));
    FillKeepsCore(s.(connected := on));
  }

  lemma ResendKeepsInv(s: State, id: Id, after: int)
    requires Inv(s)
    ensures Inv(ReplayBuffered(s, id, after))
    ensures ReplayBuffered(s, id, after).log == s.log && ReplayBuffered(s, id, after).tracked == s.tracked
  {
    hide QueueOk, FlightOk, LocksOk, FifoOk, AccountedOk, HistoryOk, EndsOk, Resend;
    SameViewKeepsCore(s, ReplayBuffered(s, id, after));
  }

  lemma TimeoutKeepsInv(s: State, n: nat)
    requires Inv(s) && n in s.runs
    ensures Inv(Apply(s, TimeoutStep(n)))
  {
    hide QueueOk, FlightOk, TrackedOk, LocksOk, FifoOk, AccountedOk, HistoryOk, EndsOk;
    SameViewKeepsCore(s, Apply(s, TimeoutStep(n)));
  }

  lemma RunEmits(s: State, n: nat, e: Event, now: int)
    requires Inv(s) && n in s.runs
    ensures Inv(EmitAndMark(s, s.runs[n].id, e, now))
  {
    hide QueueOk, LocksOk, FifoOk, AccountedOk, HistoryOk, EndsOk, EmitAndMark;
    RunningIsNotQueued(s, n);
    EmitKeepsInv(s, s.runs[n].id, e, now);
  }

  /** Every clean step keeps the invariant. */
  lemma StepKeepsInv(s: State, step: Step)
    requires Inv(s) && Enabled(s, step) && Clean(s, step)
    ensures Inv(Apply(s, step))
  {
    hide Inv, Schedule, Enqueue, Cancel, Acknowledge, ReplayBuffered, PlainReply, Finish, EmitAndMark, Clean;
    match step
    case SetConnected(on) => ConnectKeepsInv(s, on);
    case EnqueueStep(c, rejection, removed, now) => EnqueueKeepsInv(s, c, rejection, removed, now);
    case CancelStep(id, reason, now) => CancelKeepsInv(s, id, reason, now);
    case AckStep(id, sequence) => AckKeepsInv(s, id, sequence);
    case ReplayStep(id, after) => ResendKeepsInv(s, id, after);
    case TimeoutStep(n) => TimeoutKeepsInv(s, n);
    case LineStep(n, e, now) => RunEmits(s, n, e, now);
    case ReplyStep(n, status, ok, data, now) => PlainReplyKeepsInv(s, n, ReplyEvent(status, ok, data), now);
    case CloseStep(n, _, now) => RunEmits(s, n, PLAIN_DONE, now);
    case FinishStep(n, ending, now) => FinishKeepsInv(s, n, ending, now);
  }
}
