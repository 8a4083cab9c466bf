/** The executor's methods, updating its fields in place, proved against the steps of ExecutorModel. */
module CloudCommandExecutor {
  import opened Prelude
  import opened CommandTypes
  import L = ExecutorLocks
  import M = ExecutorModel
  import Lines

  // ---------------------------------------------------------------------------------------------
  // Stream framing
  // ---------------------------------------------------------------------------------------------

  /** The events of the non-blank lines among `lines`. */
  function LineEvents(parse: string -> Option<Json>, lines: seq<string>): seq<Event> {
    if lines == [] then []
    else
      var line := Trim(lines[|lines| - 1]);
      LineEvents(parse, lines[..|lines| - 1]) + (if line == "" then [] else [MapLine(parse, line)])
  }

  lemma {:induction false} LineEventsAppend(parse: string -> Option<Json>, a: seq<string>, b: seq<string>)
    ensures LineEvents(parse, a + b) == LineEvents(parse, a) + LineEvents(parse, b)
  {
    if b == [] {
      assert a + b == a;
    } else {
      assert (a + b)[..|a + b| - 1] == a + b[..|b| - 1];
      LineEventsAppend(parse, a, b[..|b| - 1]);
    }
  }

  /** One event for each line that is not blank, made of its trimmed text, at these positions. */
  ghost predicate EventsAt(parse: string -> Option<Json>, lines: seq<string>, events: seq<Event>, at: seq<nat>) {
    && |at| == |events| && Rising(at, |lines|)
    && (forall k | 0 <= k < |at| :: EventOf(parse, lines[at[k]], events[k]))
    && (forall i | 0 <= i < |lines| :: Trimmed(lines[i], "") || StandsAt(at, i))
  }

  ghost predicate EventOf(parse: string -> Option<Json>, line: string, e: Event) {
    exists text :: text != "" && Trimmed(line, text) && e == MapLine(parse, text)
  }

  lemma {:induction false} LineEventsAre(parse: string -> Option<Json>, lines: seq<string>) returns (at: seq<nat>)
    ensures EventsAt(parse, lines, LineEvents(parse, lines), at)
  {
    at := [];
    if lines != [] {
      hide *;
      var front, line := lines[..|lines| - 1], lines[|lines| - 1];
      assert lines == front + [line];
      at := LineEventsAre(parse, front);
      at := OneMoreLineAt(parse, front, line, at);
    }
  }

  lemma OneMoreLineAt(parse: string -> Option<Json>, front: seq<string>, line: string, at: seq<nat>) returns (at': seq<nat>)
    requires EventsAt(parse, front, LineEvents(parse, front), at)
    ensures EventsAt(parse, front + [line], LineEvents(parse, front + [line]), at')
  {
    LineEventsLast(parse, front, line);
    hide *;
    TrimIs(line, "");
    TrimIs(line, Trim(line));
    if Trim(line) == "" {
      BlankLine(parse, front, line, LineEvents(parse, front), at);
      at' := at;
    } else {
      LineWithEvent(parse, front, line, LineEvents(parse, front), at);
      at' := at + [|front|];
    }
  }

  lemma LineEventsLast(parse: string -> Option<Json>, front: seq<string>, line: string)
    ensures LineEvents(parse, front + [line])
         == if Trim(line) == "" then LineEvents(parse, front) else LineEvents(parse, front) + [MapLine(parse, Trim(line))]
  {
    assert (front + [line])[..|front|] == front;
  }

  lemma BlankLine(parse: string -> Option<Json>, front: seq<string>, line: string, events: seq<Event>, at: seq<nat>)
    requires EventsAt(parse, front, events, at) && Trimmed(line, "")
    ensures EventsAt(parse, front + [line], events, at)
  {
    hide EventOf, StandsAt, Trimmed;
    var lines := front + [line];
    MorePositions(at, |front|);
    assert lines[|front|] == line && forall i | 0 <= i < |front| :: lines[i] == front[i];
  }

  lemma LineWithEvent(parse: string -> Option<Json>, front: seq<string>, line: string, events: seq<Event>, at: seq<nat>)
    requires EventsAt(parse, front, events, at) && Trim(line) != "" && Trimmed(line, Trim(line))
    ensures EventsAt(parse, front + [line], events + [MapLine(parse, Trim(line))], at + [|front|])
  {
    var e := MapLine(parse, Trim(line));
    assert EventOf(parse, line, e);
    hide EventOf, StandsAt, Trimmed, Trim, MapLine;
    var lines, events', at' := front + [line], events + [e], at + [|front|];
    OneMorePosition(at, |front|);
    assert lines[|front|] == line && forall i | 0 <= i < |front| :: lines[i] == front[i];
    assert at'[|at|] == |front| && events'[|at|] == e && forall k | 0 <= k < |at| :: at'[k] == at[k] && events'[k] == events[k];
  }

  predicate AnyTerminal(events: seq<Event>) {
    exists i | 0 <= i < |events| :: IsTerminalEvent(events[i])
  }

  /** The state after the lines with these events have been processed. */
  function AfterLines(s: M.State, ticket: nat, events: seq<Event>, now: int): M.State
    requires ticket in s.runs
    ensures AfterLines(s, ticket, events, now).runs == s.runs
  {
    if events == [] then s
    else M.Line(AfterLines(s, ticket, events[..|events| - 1], now), ticket, events[|events| - 1], now)
  }

  lemma {:induction false} AfterLinesAppend(s: M.State, ticket: nat, a: seq<Event>, b: seq<Event>, now: int)
    requires ticket in s.runs
    ensures AfterLines(s, ticket, a + b, now) == AfterLines(AfterLines(s, ticket, a, now), ticket, b, now)
  {
    if b == [] {
      assert a + b == a;
    } else {
      assert (a + b)[..|a + b| - 1] == a + b[..|b| - 1];
      AfterLinesAppend(s, ticket, a, b[..|b| - 1], now);
    }
  }

  /** A resume position as it arrives: a number that may be fractional, infinite or not a number. */
  datatype Position = Finite(value: real) | NotFinite

  function Truncate(p: Position): int {
    if p.NotFinite? then 0
    else if p.value >= 0.0 then p.value.Floor
    else -((-p.value).Floor)
  }

  function ReplayAll(s: M.State, resume: seq<(Id, Position)>): M.State {
    if resume == [] then s
    else
      var front, last := resume[..|resume| - 1], resume[|resume| - 1];
      M.ReplayBuffered(ReplayAll(s, front), last.0, Truncate(last.1))
  }

  // ---------------------------------------------------------------------------------------------
  // The class
  // ---------------------------------------------------------------------------------------------

  class CloudCommandExecutor {
    const maxInFlight: int
    var connected: bool
    var queue: seq<Command>
    var inFlight: map<Id, nat>
    var lockOwners: map<string, Id>
    var tracked: map<Id, M.Tracked>
    var runs: map<nat, M.Run>
    /** Everything passed to the sendCommandAck and sendCommandEvent callbacks. */
    var sent: seq<M.Message>
    /** How many TrackedCommand objects have been created. */
    var accepted: nat
    ghost var log: seq<M.Entry>
    ghost var starts: seq<nat>

    ghost predicate Valid()
      reads this
    {
      accepted == |log|
    }

    ghost function Snapshot(): M.State
      reads this
    {
      M.State(maxInFlight, connected, queue, inFlight, lockOwners, tracked, runs, sent, log, starts)
    }

    constructor (maxInFlight: int)
      ensures Valid() && Snapshot() == M.Init(maxInFlight)
    {
      this.maxInFlight := maxInFlight;
      connected := false;
      queue, inFlight, lockOwners, tracked := [], map[], map[], map[];
      runs, sent, accepted := map[], [], 0;
      log, starts := [], [];
    }

    method EmitTrackedEvent(id: Id, e: Event)
      requires Valid()
      modifies this
      ensures Valid() && Snapshot() == M.Emit(old(Snapshot()), id, e)
    {
      if id !in tracked {
        return;
      }
      var t := tracked[id];
      if t.phase.Terminal? {
        return;
      }
      var sequence := t.lastEmitted + 1;
      var rec := M.Rec(sequence, e);
      tracked := tracked[id := t.(lastEmitted := sequence, buffer := t.buffer + [rec])];
      log := M.Record(log, t.ticket, e);
      sent := sent + [M.EventSent(id, rec)];
    }

    method MarkTerminal(id: Id, outcome: Outcome, now: int)
      requires Valid()
      modifies this
      ensures Valid() && Snapshot() == M.MarkTerminal(old(Snapshot()), id, outcome, now)
    {
      if id !in tracked || tracked[id].phase.Terminal? {
        return;
      }
      tracked := tracked[id := tracked[id].(phase := M.Terminal(outcome, now))];
    }

    /** Emits a terminal event and marks the command terminal with the outcome that event stands for. */
    method Conclude(id: Id, e: Event, now: int)
      requires Valid() && IsTerminalEvent(e)
      modifies this
      ensures Valid() && Snapshot() == M.EmitAndMark(old(Snapshot()), id, e, now) && runs == old(runs)
    {
      EmitTrackedEvent(id, e);
      MarkTerminal(id, ResolveTerminalState(e), now);
    }

    method ReplayBuffered(id: Id, after: int)
      requires Valid()
      modifies this
      ensures Valid() && Snapshot() == M.ReplayBuffered(old(Snapshot()), id, after)
    {
      if id !in tracked {
        return;
      }
      var buffer := tracked[id].buffer;
      assert buffer[0..] == buffer && M.Resend(id, [], after) == [];
      hide M.Resend, Valid;
      var i := 0;
      while i < |buffer|
        invariant 0 <= i <= |buffer|
        invariant Valid() && Snapshot() == old(Snapshot()).(sent := sent)
        invariant sent + M.Resend(id, buffer[i..], after) == old(sent) + M.Resend(id, buffer, after)
      {
        ResendFrom(id, buffer, i, after, sent);
        if buffer[i].sequence > after {
          sent := sent + [M.EventSent(id, buffer[i])];
        }
        i := i + 1;
      }
    }

    static lemma ResendFrom(id: Id, buffer: seq<M.Rec>, i: nat, after: int, sent: seq<M.Message>)
      requires i < |buffer|
      ensures sent + M.Resend(id, buffer[i..], after)
           == (if buffer[i].sequence > after then sent + [M.EventSent(id, buffer[i])] else sent) + M.Resend(id, buffer[i + 1..], after)
    {
      assert buffer[i..][1..] == buffer[i + 1..];
    }

    method ReplayFrom(resume: seq<(Id, Position)>)
      requires Valid()
      modifies this
      ensures Valid() && Snapshot() == ReplayAll(old(Snapshot()), resume)
    {
      var i := 0;
      while i < |resume|
        invariant 0 <= i <= |resume|
        invariant Valid() && Snapshot() == ReplayAll(old(Snapshot()), resume[..i])
      {
        assert resume[..i + 1][..i] == resume[..i];
        ReplayBuffered(resume[i].0, Truncate(resume[i].1));
        i := i + 1;
      }
      assert resume[..i] == resume;
    }

    method Acknowledge(id: Id, sequence: nat)
      requires Valid()
      modifies this
      ensures Valid() && Snapshot() == M.Acknowledge(old(Snapshot()), id, sequence)
    {
      if id !in tracked {
        return;
      }
      var t := tracked[id];
      t := t.(lastAcked := Max(t.lastAcked, sequence));
      if !t.phase.Terminal? {
        t := t.(buffer := M.KeepAfter(t.buffer, t.lastAcked));
      }
      tracked := tracked[id := t];
    }

    /** The part of `execute` that runs before its first suspension. */
    method BeginExecute(c: Command)
      requires Valid()
      modifies this
      ensures Valid() && Snapshot() == M.Execute(old(Snapshot()), c)
      ensures L.Unlocked(c) ==> lockOwners == old(lockOwners)
      ensures forall key | L.Locks(c, key) && c.id in old(tracked) :: lockOwners == old(lockOwners)[key := c.id]
    {
      if c.id !in tracked {
        return;
      }
      L.TakesItsLock(Snapshot(), c);
      hide L.Locks, L.Unlocked;
      hide M.Emit, M.Reserved, RunningStatus;
      Reserve(c);
      EmitTrackedEvent(c.id, RunningStatus(c));
    }

    /** The bookkeeping of a start. */
    method Reserve(c: Command)
      requires Valid() && c.id in tracked
      modifies this
      ensures Valid() && Snapshot() == M.Reserved(old(Snapshot()), c)
    {
      hide DeriveLockKey;
      var ticket := tracked[c.id].ticket;
      tracked := tracked[c.id := tracked[c.id].(phase := M.Running)];
      var lockKey := DeriveLockKey(c);
      if lockKey.Some? {
        lockOwners := lockOwners[lockKey.value := c.id];
      }
      runs := runs[ticket := M.Run(c.id, lockKey, None, false)];
      inFlight := inFlight[c.id := ticket];
      starts := starts + [ticket];
    }

    method Schedule()
      requires Valid()
      modifies this
      ensures Valid() && Snapshot() == M.Schedule(old(Snapshot()))
    {
      if !connected {
        return;
      }
      while |inFlight| < Max(1, maxInFlight)
        invariant Valid() && connected
        invariant M.Fill(Snapshot()) == M.Fill(old(Snapshot()))
        decreases |queue|
      {
        var next := M.FirstFree(queue, lockOwners);
        if next == |queue| {
          break;
        }
        ghost var before := Snapshot();
        var command := queue[next];
        queue := RemoveAt(queue, next);
        M.ExecuteKeepsQueue(Snapshot(), command);
        BeginExecute(command);
        assert Snapshot() == M.StartAt(before, next);
      }
    }

    method SetConnected(on: bool)
      requires Valid()
      modifies this
      ensures Valid() && Snapshot() == M.Schedule(old(Snapshot()).(connected := on))
    {
      connected := on;
      if on {
        Schedule();
      }
    }

    method Cancel(id: Id, reason: string, now: int)
      requires Valid()
      modifies this
      ensures Valid() && Snapshot() == M.Cancel(old(Snapshot()), id, reason, now)
    {
      var queued := M.IndexOf(queue, id);
      if queued < |queue| {
        OwnEvents(Command("", "", "", "", None, JNull), reason, "", 0, true, JNull);
        queue := RemoveAt(queue, queued);
        Conclude(id, CancelledDone(reason), now);
        return;
      }
      if id !in inFlight || inFlight[id] !in runs {
        return;
      }
      runs := runs[inFlight[id] := runs[inFlight[id]].(cancelReason := Some(reason))];
    }

    /** From now on the execution, should it throw, ends in a time-out unless it was cancelled. */
    method FireTimeout(ticket: nat)
      requires Valid() && ticket in runs
      modifies this
      ensures Valid() && runs.Keys == old(runs).Keys
      ensures forall message :: M.ClosingEvent(runs[ticket], M.Threw(message)) ==
                (if old(runs)[ticket].cancelReason.Some? then CancelledDone(old(runs)[ticket].cancelReason.value) else TIMEOUT_ERROR)
      ensures Snapshot() == old(Snapshot()).(runs := old(runs)[ticket := old(runs)[ticket].(timedOut := true)])
    {
      runs := runs[ticket := runs[ticket].(timedOut := true)];
    }

    /** Emits a mapped stream line; says whether it was terminal. */
    method ProcessStreamLine(parse: string -> Option<Json>, ticket: nat, line: string, now: int) returns (terminal: bool)
      requires Valid() && ticket in runs
      modifies this
      ensures Valid() && Snapshot() == M.Line(old(Snapshot()), ticket, MapLine(parse, line), now)
      ensures terminal == IsTerminalEvent(MapLine(parse, line))
    {
      var id := runs[ticket].id;
      var mapped := MapLine(parse, line);
      EmitTrackedEvent(id, mapped);
      if IsTerminalEvent(mapped) {
        MarkTerminal(id, ResolveTerminalState(mapped), now);
        return true;
      }
      return false;
    }

    /**
     * Reads a gateway stream to its end, in whatever pieces it arrives. The result depends on the
     * concatenation of the pieces only.
     */
    method ConsumeStreamResponse(parse: string -> Option<Json>, ticket: nat, pieces: seq<string>, now: int)
      requires Valid() && ticket in runs
      modifies this
      ensures Valid()
      ensures var events := LineEvents(parse, Lines.Split(Lines.Concat(pieces)));
        Snapshot() == M.StreamClosed(AfterLines(old(Snapshot()), ticket, events, now), ticket, AnyTerminal(events), now)
    {
      hide M.Line, M.Emit, M.MarkTerminal, M.StreamClosed, MapLine, Trim, AfterLines, AnyTerminal;
      NoLines(Snapshot(), ticket, now);
      ghost var s0 := Snapshot();
      var buffer := "";
      var emittedTerminal := false;
      var i := 0;
      while i < |pieces|
        invariant 0 <= i <= |pieces| && Valid() && ticket in runs
        invariant buffer == Lines.Rest(Lines.Concat(pieces[..i]))
        invariant var events := LineEvents(parse, Lines.Complete(Lines.Concat(pieces[..i])));
          Snapshot() == AfterLines(s0, ticket, events, now) && emittedTerminal == AnyTerminal(events)
      {
        ghost var seen := Lines.Concat(pieces[..i]);
        ghost var before := LineEvents(parse, Lines.Complete(seen));
        buffer := buffer + pieces[i];
        var lines := Lines.Complete(buffer);
        buffer := Lines.Rest(buffer);
        var terminal := ProcessLines(parse, ticket, lines, now);
        emittedTerminal := emittedTerminal || terminal;
        Lines.FrameAppend(seen, pieces[i]);
        assert pieces[..i + 1][..i] == pieces[..i];
        LineEventsAppend(parse, Lines.Complete(seen), lines);
        MoreLines(s0, ticket, before, LineEvents(parse, lines), now);
        i := i + 1;
      }
      assert pieces[..i] == pieces;
      ghost var text := Lines.Concat(pieces);
      ghost var events := LineEvents(parse, Lines.Complete(text));
      assert Lines.Split(text)[..|Lines.Split(text)| - 1] == Lines.Complete(text);
      var trailing := Trim(buffer);
      if trailing != "" {
        OneMoreLine(s0, ticket, events, MapLine(parse, trailing), now);
        var terminal := ProcessStreamLine(parse, ticket, trailing, now);
        emittedTerminal := emittedTerminal || terminal;
      } else {
        assert LineEvents(parse, Lines.Split(text)) == events;
      }
      CloseStream(ticket, emittedTerminal, now);
    }

    /** A stream that brought no terminal event ends with a done. */
    method CloseStream(ticket: nat, emittedTerminal: bool, now: int)
      requires Valid() && ticket in runs
      modifies this
      ensures Valid() && Snapshot() == M.StreamClosed(old(Snapshot()), ticket, emittedTerminal, now)
    {
      if !emittedTerminal {
        assert IsTerminalEvent(PLAIN_DONE);
        Conclude(runs[ticket].id, PLAIN_DONE, now);
      }
    }

    static lemma NoLines(s: M.State, ticket: nat, now: int)
      requires ticket in s.runs
      ensures AfterLines(s, ticket, [], now) == s && !AnyTerminal([])
    {
    }

    /** The loop over the lines of one piece. */
    method ProcessLines(parse: string -> Option<Json>, ticket: nat, lines: seq<string>, now: int) returns (terminal: bool)
      requires Valid() && ticket in runs
      modifies this
      ensures Valid() && ticket in runs
      ensures var events := LineEvents(parse, lines);
        Snapshot() == AfterLines(old(Snapshot()), ticket, events, now) && terminal == AnyTerminal(events)
    {
      hide M.Line, MapLine, IsTerminalEvent, Trim;
      ghost var s0 := Snapshot();
      terminal := false;
      var j := 0;
      while j < |lines|
        invariant 0 <= j <= |lines| && Valid() && ticket in runs
        invariant var events := LineEvents(parse, lines[..j]);
          Snapshot() == AfterLines(s0, ticket, events, now) && terminal == AnyTerminal(events)
      {
        assert lines[..j + 1][..j] == lines[..j];
        ghost var events := LineEvents(parse, lines[..j]);
        var trimmed := Trim(lines[j]);
        assert LineEvents(parse, lines[..j + 1])
            == if trimmed == "" then events else events + [MapLine(parse, trimmed)];
        if trimmed != "" {
          OneMoreLine(s0, ticket, events, MapLine(parse, trimmed), now);
          var ended := ProcessStreamLine(parse, ticket, trimmed, now);
          terminal := terminal || ended;
        }
        j := j + 1;
      }
      assert lines[..j] == lines;
    }

    static lemma MoreLines(s: M.State, ticket: nat, a: seq<Event>, b: seq<Event>, now: int)
      requires ticket in s.runs
      ensures AfterLines(s, ticket, a + b, now) == AfterLines(AfterLines(s, ticket, a, now), ticket, b, now)
      ensures AnyTerminal(a + b) <==> AnyTerminal(a) || AnyTerminal(b)
    {
      AfterLinesAppend(s, ticket, a, b, now);
      assert forall i | 0 <= i < |a| :: (a + b)[i] == a[i];
      assert forall i | 0 <= i < |b| :: (a + b)[|a| + i] == b[i];
    }

    static lemma OneMoreLine(s: M.State, ticket: nat, events: seq<Event>, e: Event, now: int)
      requires ticket in s.runs
      ensures AfterLines(s, ticket, events + [e], now) == M.Line(AfterLines(s, ticket, events, now), ticket, e, now)
      ensures AnyTerminal(events + [e]) <==> AnyTerminal(events) || IsTerminalEvent(e)
    {
      assert (events + [e])[..|events|] == events;
      if AnyTerminal(events) {
        var i :| 0 <= i < |events| && IsTerminalEvent(events[i]);
        assert IsTerminalEvent((events + [e])[i]);
      }
      assert (events + [e])[|events|] == e;
    }

    /** The end of executeViaGateway for a response that is not a stream. */
    method FinishPlainReply(ticket: nat, status: int, ok: bool, data: Json, now: int)
      requires Valid() && ticket in runs
      modifies this
      ensures Valid() && Snapshot() == M.PlainReply(old(Snapshot()), ticket, ReplyEvent(status, ok, data), now)
    {
      OwnEvents(Command("", "", "", "", None, JNull), "", "", status, ok, data);
      var id := runs[ticket].id;
      EmitTrackedEvent(id, ReplyEvent(status, ok, data));
      EmitTrackedEvent(id, PLAIN_DONE);
      MarkTerminal(id, Finished, now);
    }

    /** The part of `execute` after the gateway call has returned or thrown. */
    method EndExecute(ticket: nat, ending: M.Ending, now: int)
      requires Valid() && ticket in runs
      modifies this
      ensures Valid() && Snapshot() == M.Finish(old(Snapshot()), ticket, ending, now)
    {
      hide M.EmitAndMark, M.Fill, IsTerminalEvent;
      var run := runs[ticket];
      ghost var s := Snapshot();
      ClosingEvents(run, ending);
      if ending.Returned? {
        if run.id in tracked && !tracked[run.id].phase.Terminal? && tracked[run.id].ticket == ticket {
          Conclude(run.id, PLAIN_DONE, now);
        }
      } else if run.cancelReason.Some? {
        Conclude(run.id, CancelledDone(run.cancelReason.value), now);
      } else if run.timedOut {
        Conclude(run.id, TIMEOUT_ERROR, now);
      } else {
        Conclude(run.id, FatalError(ending.message), now);
      }
      ReleaseRun(ticket, run);
      Schedule();
    }

    static lemma ClosingEvents(run: M.Run, ending: M.Ending)
      ensures IsTerminalEvent(PLAIN_DONE) && IsTerminalEvent(TIMEOUT_ERROR)
      ensures run.cancelReason.Some? ==> IsTerminalEvent(CancelledDone(run.cancelReason.value))
      ensures ending.Threw? ==> IsTerminalEvent(FatalError(ending.message))
    {
    }

    /** The `finally` block, before it schedules. */
    method ReleaseRun(ticket: nat, run: M.Run)
      requires Valid() && ticket in runs && runs[ticket] == run
      modifies this
      ensures Valid() && Snapshot() == M.Release(old(Snapshot()), ticket)
    {
      inFlight := inFlight - {run.id};
      if run.lockKey.Some? {
        lockOwners := lockOwners - {run.lockKey.value};
      }
      runs := runs - {ticket};
    }

    /** Forgets expired terminal commands, then the oldest ones beyond the retention cap. */
    method PruneTerminalCommands(now: int) returns (ghost removed: set<Id>)
      requires Valid()
      modifies this
      ensures Valid() && M.PruneAllows(old(tracked), removed, now)
      ensures Snapshot() == old(Snapshot()).(tracked := old(tracked) - removed)
    {
      ghost var t0 := tracked;
      ghost var expired := PruneExpired(now);
      ghost var surplus := PruneSurplus();
      removed := expired + surplus;
      PruneCombines(t0, expired, surplus, now);
    }

    static lemma PruneCombines(tracked: map<Id, M.Tracked>, expired: set<Id>, surplus: set<Id>, now: int)
      requires expired == M.ExpiredIds(tracked, now) && M.OldestBeyondCap(tracked - expired, surplus)
      ensures M.PruneAllows(tracked, expired + surplus, now)
      ensures tracked - expired - surplus == tracked - (expired + surplus)
    {
      assert surplus <= M.TerminalIds(tracked - expired);
      hide M.OldestBeyondCap, M.Expired;
      assert M.TerminalIds(tracked - expired) <= M.TerminalIds(tracked) - expired;
      assert expired <= M.TerminalIds(tracked);
      assert (expired + surplus) - expired == surplus;
      RemoveTwice(tracked, expired, surplus);
    }

    static lemma RemoveTwice(m: map<Id, M.Tracked>, a: set<Id>, b: set<Id>)
      ensures m - a - b == m - (a + b)
    {
    }

    method PruneExpired(now: int) returns (ghost removed: set<Id>)
      requires Valid()
      modifies this
      ensures Valid() && removed == M.ExpiredIds(old(tracked), now)
      ensures Snapshot() == old(Snapshot()).(tracked := old(tracked) - removed)
    {
      var terminal := set id | id in tracked && tracked[id].phase.Terminal?;
      var todo := terminal;
      removed := {};
      while todo != {}
        invariant todo <= terminal == M.TerminalIds(old(tracked))
        invariant removed == set id | id in terminal - todo && M.Expired(old(tracked)[id], now)
        invariant Valid() && Snapshot() == old(Snapshot()).(tracked := old(tracked) - removed)
        decreases todo
      {
        var id :| id in todo;
        todo := todo - {id};
        var completedAt := tracked[id].phase.completedAt;
        if completedAt != 0 && now - completedAt > M.COMMAND_RETENTION_MS {
          tracked := tracked - {id};
          removed := removed + {id};
        }
      }
    }

    method PruneSurplus() returns (ghost removed: set<Id>)
      requires Valid()
      modifies this
      ensures Valid() && M.OldestBeyondCap(old(tracked), removed)
      ensures Snapshot() == old(Snapshot()).(tracked := old(tracked) - removed)
    {
      var terminal := set id | id in tracked && tracked[id].phase.Terminal?;
      var remaining := SortByCompletion(tracked, terminal);
      removed := {};
      var k := 0;
      while |remaining| - k > M.MAX_RETAINED_TERMINAL_COMMANDS
        invariant 0 <= k <= |remaining| && (k > 0 ==> |remaining| - k >= M.MAX_RETAINED_TERMINAL_COMMANDS)
        invariant removed == set i | 0 <= i < k :: remaining[i]
        invariant Valid() && Snapshot() == old(Snapshot()).(tracked := old(tracked) - removed)
      {
        tracked := tracked - {remaining[k]};
        removed := removed + {remaining[k]};
        k := k + 1;
      }
      KeptAreNewest(old(tracked), remaining, k);
    }

    /** The terminal ids, oldest completion first. */
    static method SortByCompletion(tracked: map<Id, M.Tracked>, ids: set<Id>) returns (sorted: seq<Id>)
      requires ids <= M.TerminalIds(tracked)
      ensures IsSorted(tracked, sorted) && (set id | id in sorted) == ids
    {
      sorted := [];
      var todo := ids;
      while todo != {}
        invariant todo <= ids && (set id | id in sorted) == ids - todo
        invariant IsSorted(tracked, sorted)
        decreases todo
      {
        var id :| id in todo;
        todo := todo - {id};
        var i := 0;
        while i < |sorted| && tracked[sorted[i]].phase.completedAt <= tracked[id].phase.completedAt
          invariant 0 <= i <= |sorted|
          invariant forall j | 0 <= j < i :: tracked[sorted[j]].phase.completedAt <= tracked[id].phase.completedAt
        {
          i := i + 1;
        }
        ghost var before := sorted;
        sorted := sorted[..i] + [id] + sorted[i..];
        InsertKeepsSorted(tracked, before, id, i);
      }
    }

    static lemma InsertKeepsSorted(tracked: map<Id, M.Tracked>, s: seq<Id>, id: Id, i: nat)
      requires IsSorted(tracked, s) && i <= |s| && id in M.TerminalIds(tracked) && id !in s
      requires forall j | 0 <= j < i :: tracked[s[j]].phase.completedAt <= tracked[id].phase.completedAt
      requires i < |s| ==> tracked[id].phase.completedAt <= tracked[s[i]].phase.completedAt
      ensures IsSorted(tracked, s[..i] + [id] + s[i..])
      ensures (set x | x in s[..i] + [id] + s[i..]) == (set x | x in s) + {id}
    {
      var r := s[..i] + [id] + s[i..];
      forall j | 0 <= j < |r| ensures r[j] == if j < i then s[j] else if j == i then id else s[j - 1] {
      }
      InsertedElements(s, id, i);
      hide M.TerminalIds;
      forall j, k | 0 <= j < k < |r|
        ensures r[j] != r[k] && tracked[r[j]].phase.completedAt <= tracked[r[k]].phase.completedAt
      {
        assert k > i ==> tracked[s[i]].phase.completedAt <= tracked[s[k - 1]].phase.completedAt;
      }
    }

    static lemma InsertedElements(s: seq<Id>, id: Id, i: nat)
      requires i <= |s|
      ensures (set x | x in s[..i] + [id] + s[i..]) == (set x | x in s) + {id}
      ensures forall x | x in s[..i] + [id] + s[i..] :: x == id || x in s
    {
      assert s == s[..i] + s[i..];
    }

    static ghost predicate IsSorted(tracked: map<Id, M.Tracked>, s: seq<Id>) {
      && (forall i | 0 <= i < |s| :: s[i] in M.TerminalIds(tracked))
      && (forall i, j | 0 <= i < j < |s| ::
            s[i] != s[j] && tracked[s[i]].phase.completedAt <= tracked[s[j]].phase.completedAt)
    }

    method Enqueue(c: Command, rejection: Option<string>, now: int) returns (ghost removed: set<Id>)
      requires Valid()
      modifies this
      ensures Valid() && M.PruneAllows(old(tracked), removed, now)
      ensures Snapshot() == M.Enqueue(old(Snapshot()), c, rejection, removed)
    {
      hide M.PruneAllows, M.Fill, M.Resend, ValidateCommand;
      removed := PruneTerminalCommands(now);
      if c.id in tracked {
        sent := sent + [M.AckSent(c.id, true, None)];
        if tracked[c.id].phase.Terminal? {
          ReplayBuffered(c.id, 0);
        }
        return;
      }
      if rejection.Some? {
        sent := sent + [M.AckSent(c.id, false, rejection)];
        return;
      }
      var validationError := ValidateCommand(c);
      if validationError.Some? {
        sent := sent + [M.AckSent(c.id, false, validationError)];
        return;
      }
      Accept(c);
      Schedule();
    }

    /** Tracks and queues a new command, and acknowledges it. */
    method Accept(c: Command)
      requires Valid()
      modifies this
      ensures Valid() && Snapshot() == M.AddCommand(old(Snapshot()), c)
    {
      tracked := tracked[c.id := M.Tracked(c, M.Queued, 0, 0, [], accepted)];
      accepted := accepted + 1;
      log := log + [M.Entry(c, [])];
      queue := queue + [c];
      sent := sent + [M.AckSent(c.id, true, None)];
    }
  }

  lemma {:induction false} DistinctSize(s: seq<Id>)
    requires forall i, j | 0 <= i < j < |s| :: s[i] != s[j]
    ensures |set id | id in s| == |s|
  {
    if s != [] {
      DistinctSize(s[1..]);
      assert (set id | id in s) == (set id | id in s[1..]) + {s[0]};
    }
  }

  lemma SplitSorted(remaining: seq<Id>, k: nat)
    requires k <= |remaining| && forall i, j | 0 <= i < j < |remaining| :: remaining[i] != remaining[j]
    ensures (set id | id in remaining) - (set i | 0 <= i < k :: remaining[i]) == (set id | id in remaining[k..])
    ensures |set id | id in remaining[k..]| == |remaining| - k
    ensures (set i | 0 <= i < k :: remaining[i]) <= (set id | id in remaining)
  {
    var dropped, kept := set i | 0 <= i < k :: remaining[i], remaining[k..];
    forall id ensures id in remaining && id !in dropped <==> id in kept {
      if id in kept {
        var j :| 0 <= j < |kept| && kept[j] == id;
        assert remaining[k + j] == id;
      }
      if id in remaining && id !in dropped {
        var i :| 0 <= i < |remaining| && remaining[i] == id;
        assert kept[i - k] == id;
      }
    }
    DistinctSize(kept);
  }

  lemma DroppedAreOlder(tracked: map<Id, M.Tracked>, remaining: seq<Id>, k: nat, id: Id, other: Id)
    requires CloudCommandExecutor.IsSorted(tracked, remaining) && k <= |remaining|
    requires id in (set i | 0 <= i < k :: remaining[i]) && other in remaining[k..]
    ensures id in tracked && other in tracked
    ensures tracked[id].phase.Terminal? && tracked[other].phase.Terminal?
    ensures tracked[id].phase.completedAt <= tracked[other].phase.completedAt
  {
    var i :| 0 <= i < k && remaining[i] == id;
    var j :| 0 <= j < |remaining[k..]| && remaining[k..][j] == other;
    assert remaining[k + j] == other;
  }

  lemma KeptAreNewest(tracked: map<Id, M.Tracked>, remaining: seq<Id>, k: nat)
    requires CloudCommandExecutor.IsSorted(tracked, remaining)
    requires (set id | id in remaining) == M.TerminalIds(tracked)
    requires k <= |remaining| && |remaining| - k <= M.MAX_RETAINED_TERMINAL_COMMANDS
    requires k > 0 ==> |remaining| - k >= M.MAX_RETAINED_TERMINAL_COMMANDS
    ensures M.OldestBeyondCap(tracked, set i | 0 <= i < k :: remaining[i])
  {
    SplitSorted(remaining, k);
    var removed := set i | 0 <= i < k :: remaining[i];
    var kept := M.TerminalIds(tracked) - removed;
    assert kept == set id | id in remaining[k..];
    hide CloudCommandExecutor.IsSorted, M.TerminalIds;
    forall id, other | id in removed && other in kept
      ensures id in tracked && other in tracked && tracked[id].phase.Terminal? && tracked[other].phase.Terminal?
      ensures tracked[id].phase.completedAt <= tracked[other].phase.completedAt
    {
      DroppedAreOlder(tracked, remaining, k, id, other);
    }
  }
}
