/** Theorems about every run of the cloud command executor. */
module ExecutorRuns {
  import opened Prelude
  import opened CommandTypes
  import opened ExecutorModel
  import opened ExecutorSafety

  // ---------------------------------------------------------------------------------------------
  // The invariant holds exactly along clean runs
  // ---------------------------------------------------------------------------------------------

  /** Scheduling forgets no execution and renumbers no tracked command. */
  ghost predicate Extends(s: State, s': State) {
    && s'.tracked.Keys == s.tracked.Keys
    && (forall id | id in s.tracked :: s'.tracked[id].ticket == s.tracked[id].ticket)
    && (forall n | n in s.runs && (forall id | id in s.tracked :: s.tracked[id].ticket != n) ::
          n in s'.runs && s'.runs[n].id == s.runs[n].id)
  }

  lemma ExecuteExtends(s: State, c: Command)
    ensures Extends(s, Execute(s, c))
  {
  }

  lemma {:induction false} FillExtends(s: State)
    ensures Extends(s, Fill(s))
    decreases |s.queue|
  {
    if CanStart(s) {
      var i := FirstFree(s.queue, s.lockOwners);
      var s1 := s.(queue := RemoveAt(s.queue, i));
      ExecuteKeepsQueue(s1, s.queue[i]);
      ExecuteExtends(s1, s.queue[i]);
      FillExtends(StartAt(s, i));
    }
  }

  /** Accepting an id that is still in flight leaves an execution that no map entry knows. */
  lemma DirtyStepBreaksInv(s: State, step: Step)
    requires Inv(s) && Enabled(s, step) && !Clean(s, step)
    ensures !Inv(Apply(s, step))
  {
    hide LocksOk, FifoOk, AccountedOk, HistoryOk, EndsOk, FlightOk, TrackedOk, QueueOk, AddCommand, Fill, CanStart;
    var id := step.command.id;
    var n, s1 := s.inFlight[id], AddCommand(s.(tracked := s.tracked - step.removed), step.command);
    ReacceptedInFlight(s, step.removed, step.command);
    ScheduleExtends(s1);
    assert Apply(s, step) == Schedule(s1);
    hide Apply, Schedule, Clean;
    TwoTickets(Schedule(s1), id, n);
  }

  lemma ScheduleExtends(s: State)
    ensures Extends(s, Schedule(s))
  {
    FillExtends(s);
  }

  /** Accepting an id in flight gives it a ticket besides that of its execution. */
  lemma ReacceptedInFlight(s: State, removed: set<Id>, c: Command)
    requires FlightOk(s) && TrackedOk(s) && c.id in s.inFlight
    ensures var s1 := AddCommand(s.(tracked := s.tracked - removed), c);
      var n := s.inFlight[c.id];
      && n in s1.runs && s1.runs[n].id == c.id && n < |s.log|
      && c.id in s1.tracked && s1.tracked[c.id].ticket == |s.log|
      && (forall x | x in s1.tracked :: s1.tracked[x].ticket != n)
  {
    var s1, n := AddCommand(s.(tracked := s.tracked - removed), c), s.inFlight[c.id];
    forall x | x in s1.tracked ensures s1.tracked[x].ticket != n {
      if x != c.id { assert s.tracked[x].command.id == x; }
    }
  }

  lemma TwoTickets(s: State, id: Id, n: nat)
    requires n in s.runs && s.runs[n].id == id && id in s.tracked && s.tracked[id].ticket != n
    ensures !(FlightOk(s) && TrackedOk(s))
  {
  }

  /** The invariant survives a step exactly when the step is clean, which a caller can check beforehand. */
  lemma StepKeepsInvExactly(s: State, step: Step)
    requires Inv(s) && Enabled(s, step)
    ensures Inv(Apply(s, step)) <==> Clean(s, step)
  {
    if Clean(s, step) {
      StepKeepsInv(s, step);
    } else {
      DirtyStepBreaksInv(s, step);
    }
  }

  ghost predicate CleanRun(states: seq<State>, steps: seq<Step>) {
    && IsRun(states, steps)
    && states[0] == Init(states[0].maxInFlight)
    && forall i | 0 <= i < |steps| :: Clean(states[i], steps[i])
  }

  lemma RunStep(states: seq<State>, steps: seq<Step>, i: nat)
    requires CleanRun(states, steps) && i < |steps|
    ensures |states| == |steps| + 1
    ensures Enabled(states[i], steps[i]) && Clean(states[i], steps[i]) && states[i + 1] == Apply(states[i], steps[i])
  {
  }

  lemma {:induction false} RunKeepsInv(states: seq<State>, steps: seq<Step>, k: nat)
    requires CleanRun(states, steps) && k < |states|
    ensures Inv(states[k])
  {
    if k == 0 {
      InitInv(states[0].maxInFlight);
    } else {
      RunKeepsInv(states, steps, k - 1);
      StepKeepsInv(states[k - 1], steps[k - 1]);
    }
  }

  // ---------------------------------------------------------------------------------------------
  // Scheduling
  // ---------------------------------------------------------------------------------------------

  lemma RunsAreInFlight(s: State)
    requires FlightOk(s)
    ensures |s.runs| == |s.inFlight|
  {
    OneRunEach(s.runs.Keys, s.inFlight.Keys, s);
  }

  lemma {:induction false} OneRunEach(runs: set<nat>, ids: set<Id>, s: State)
    requires FlightOk(s) && runs <= s.runs.Keys && ids == (set n | n in runs :: s.runs[n].id)
    ensures |runs| == |ids|
    decreases runs
  {
    if runs != {} {
      var n :| n in runs;
      var runs', ids' := runs - {n}, ids - {s.runs[n].id};
      assert ids' == set m | m in runs' :: s.runs[m].id;
      OneRunEach(runs', ids', s);
    }
  }

  /** In every reachable state: the concurrency limit, exclusive locks and an exact lock table. */
  lemma LocksAndLimit(states: seq<State>, steps: seq<Step>, k: nat)
    requires CleanRun(states, steps) && k < |states|
    ensures var s := states[k];
      && |s.runs| <= Max(1, s.maxInFlight)
      && (forall n, m | n in s.runs && m in s.runs && n != m && s.runs[n].lockKey.Some? :: s.runs[n].lockKey != s.runs[m].lockKey)
      && (forall key, id :: key in s.lockOwners && s.lockOwners[key] == id <==>
            id in s.inFlight && s.inFlight[id] in s.runs && s.runs[s.inFlight[id]].lockKey == Some(key))
  {
    RunKeepsInv(states, steps, k);
    var s := states[k];
    RunsAreInFlight(s);
    forall n, m | n in s.runs && m in s.runs && n != m && s.runs[n].lockKey.Some? ensures s.runs[n].lockKey != s.runs[m].lockKey {
      assert s.runs[n].id != s.runs[m].id;
      assert s.lockOwners[s.runs[n].lockKey.value] == s.runs[n].id;
    }
  }

  /**
   * Between steps a connected executor never idles: either the limit is reached, or every queued
   * command waits for a lock that an in-flight command holds. So with nothing in flight nothing waits.
   */
  lemma WorkConserving(states: seq<State>, steps: seq<Step>, k: nat)
    requires CleanRun(states, steps) && k < |states| && states[k].connected
    ensures var s := states[k];
      && (|s.runs| == Max(1, s.maxInFlight)
          || forall i | 0 <= i < |s.queue| ::
               exists n | n in s.runs :: s.runs[n].lockKey.Some? && s.runs[n].lockKey == DeriveLockKey(s.queue[i]))
      && (s.runs == map[] ==> s.queue == [])
  {
    hide QueueOk, FlightOk, TrackedOk, LocksOk, FifoOk, AccountedOk, HistoryOk, EndsOk, CleanRun, DeriveLockKey, CanStart;
    RunKeepsInv(states, steps, k);
    var s := states[k];
    RunsAreInFlight(s);
    if |s.inFlight| < Limit(s) {
      forall i | 0 <= i < |s.queue|
        ensures exists n | n in s.runs :: s.runs[n].lockKey.Some? && s.runs[n].lockKey == DeriveLockKey(s.queue[i])
      {
        var n := HolderOf(s, i);
      }
      if s.queue != [] {
        var n := HolderOf(s, 0);
      }
    }
  }

  /** An execution in flight holds the lock that a queued command waits for. */
  lemma HolderOf(s: State, i: nat) returns (n: nat)
    requires LocksOk(s) && !CanStart(s) && |s.inFlight| < Limit(s) && i < |s.queue|
    ensures n in s.runs && s.runs[n].lockKey.Some? && s.runs[n].lockKey == DeriveLockKey(s.queue[i])
  {
    hide DeriveLockKey;
    FirstFreeMeaning(s.queue, s.lockOwners);
    assert Blocked(s.queue[i], s.lockOwners);
    n := s.inFlight[s.lockOwners[DeriveLockKey(s.queue[i]).value]];
  }

  /** With nothing in flight, the scheduler's choice is the head of the queue. */
  lemma IdleStartsHead(s: State)
    requires LocksOk(s) && s.inFlight == map[] && s.queue != []
    ensures FirstFree(s.queue, s.lockOwners) == 0 && CanStart(s)
  {
    assert forall k | k in s.lockOwners :: s.lockOwners[k] in s.inFlight;
  }

  ghost predicate Before(starts: seq<nat>, a: nat, b: nat) {
    exists x, y :: 0 <= x < y < |starts| && starts[x] == a && starts[y] == b
  }

  /**
   * First come, first served within a lane: of two accepted commands with the same lock key (or both
   * without one), if the later one has started then the earlier one started before it, unless it
   * was cancelled while it was queued. No command starts twice.
   */
  lemma FirstComeFirstServed(states: seq<State>, steps: seq<Step>, k: nat, a: nat, b: nat)
    requires CleanRun(states, steps) && k < |states|
    requires a < b < |states[k].log| && Lane(states[k], a) == Lane(states[k], b) && b in states[k].starts
    ensures Before(states[k].starts, a, b) || CancelledInQueue(states[k].log[a].history)
    ensures forall x, y | 0 <= x < y < |states[k].starts| :: states[k].starts[x] != states[k].starts[y]
  {
    RunKeepsInv(states, steps, k);
    hide CleanRun, FifoOk, AccountedOk, CancelledInQueue, Before;
    StartsOnce(states[k]);
    FirstComeInState(states[k], a, b);
  }

  lemma StartsOnce(s: State)
    requires FifoOk(s)
    ensures forall x, y | 0 <= x < y < |s.starts| :: s.starts[x] != s.starts[y]
  {
    forall x, y | 0 <= x < y < |s.starts| ensures s.starts[x] != s.starts[y] {
      assert Lane(s, s.starts[x]) == Lane(s, s.starts[y]) ==> s.starts[x] < s.starts[y];
    }
  }

  lemma FirstComeInState(s: State, a: nat, b: nat)
    requires Inv(s) && a < b < |s.log| && Lane(s, a) == Lane(s, b) && b in s.starts
    ensures Before(s.starts, a, b) || CancelledInQueue(s.log[a].history)
  {
    hide QueueOk, FlightOk, TrackedOk, LocksOk, HistoryOk, EndsOk, CanStart;
    var y :| 0 <= y < |s.starts| && s.starts[y] == b;
    assert Accounted(s, a);
    QueuedBlocksLane(s, a, b);
    if a in s.starts {
      var x :| 0 <= x < |s.starts| && s.starts[x] == a;
      StartOrder(s, x, y);
      assert Before(s.starts, a, b);
    }
  }

  lemma StartOrder(s: State, x: nat, y: nat)
    requires FifoOk(s) && x < |s.starts| && y < |s.starts| && s.starts[x] < s.starts[y]
    requires Lane(s, s.starts[x]) == Lane(s, s.starts[y])
    ensures x < y
  {
  }

  /** A later command of the lane does not start while an earlier one is queued. */
  lemma QueuedBlocksLane(s: State, a: nat, b: nat)
    requires Inv(s) && a < b < |s.log| && Lane(s, a) == Lane(s, b)
    ensures b in s.starts ==> !(Present(s, a) && s.tracked[s.log[a].command.id].phase.Queued?)
  {
    if Present(s, a) && s.tracked[s.log[a].command.id].phase.Queued? {
      var i := IndexOf(s.queue, s.log[a].command.id);
      assert Ticket(s, s.queue[i]) == a && DeriveLockKey(s.queue[i]) == Lane(s, a);
      forall y | 0 <= y < |s.starts| ensures s.starts[y] != b {
        assert Lane(s, s.starts[y]) == DeriveLockKey(s.queue[i]) ==> s.starts[y] < a;
      }
    }
  }

  // ---------------------------------------------------------------------------------------------
  // Draining
  // ---------------------------------------------------------------------------------------------

  function Outstanding(s: State): nat {
    |s.queue| + |s.inFlight|
  }

  lemma StartKeepsOutstanding(s: State)
    requires Core(s) && CanStart(s)
    ensures Outstanding(StartAt(s, FirstFree(s.queue, s.lockOwners))) == Outstanding(s)
  {
    hide StartAt, QueueOk, FlightOk, TrackedOk, LocksOk, FifoOk, AccountedOk, HistoryOk, EndsOk;
    var i := FirstFree(s.queue, s.lockOwners);
    QueuedIsFresh(s, i);
    StartIs(s, i);
    OneMoreKey(s.inFlight, StartAt(s, i).inFlight, s.queue[i].id);
  }

  lemma OneMoreKey(m: map<Id, nat>, m': map<Id, nat>, id: Id)
    requires id !in m && m'.Keys == m.Keys + {id}
    ensures |m'| == |m| + 1
  {
    assert |m'.Keys| == |m.Keys| + 1;
  }

  lemma {:induction false} FillKeepsOutstanding(s: State)
    requires Core(s)
    ensures Outstanding(Fill(s)) == Outstanding(s)
    decreases |s.queue|
  {
    hide QueueOk, FlightOk, TrackedOk, LocksOk, FifoOk, AccountedOk, HistoryOk, EndsOk, Execute;
    if CanStart(s) {
      var i := FirstFree(s.queue, s.lockOwners);
      ExecuteKeepsQueue(s.(queue := RemoveAt(s.queue, i)), s.queue[i]);
      StartKeepsCore(s);
      StartKeepsOutstanding(s);
      FillKeepsOutstanding(StartAt(s, i));
    }
  }

  /** The state in which `execute` reaches its `finally` block. */
  function Closed(s: State, n: nat, ending: Ending, now: int): State
    requires n in s.runs
  {
    if ending.Returned? && !OwnCommandOpen(s, n) then s
    else EmitAndMark(s, s.runs[n].id, ClosingEvent(s.runs[n], ending), now)
  }

  lemma EmitFrame(s: State, id: Id, e: Event, now: int)
    ensures var s1 := EmitAndMark(s, id, e, now);
      && s1.runs == s.runs && s1.queue == s.queue && s1.inFlight == s.inFlight && s1.lockOwners == s.lockOwners
      && s1.connected == s.connected && s1.maxInFlight == s.maxInFlight && s1.starts == s.starts
      && (IsTerminalEvent(e) ==> !Live(s1, id))
  {
  }

  lemma ClosedKeepsOthers(s: State, n: nat, ending: Ending, now: int)
    requires Core(s) && n in s.runs
    ensures var s1 := Closed(s, n, ending, now);
      && s1.runs == s.runs && s1.queue == s.queue && s1.inFlight == s.inFlight
      && s1.connected == s.connected && s1.maxInFlight == s.maxInFlight
      && Core(s1) && !Live(s1, s.runs[n].id)
  {
    hide Core, EmitAndMark, ClosingEvent;
    ClosingEventIsTerminal(s.runs[n], ending);
    EmitFrame(s, s.runs[n].id, ClosingEvent(s.runs[n], ending), now);
    RunEmitsCore(s, n, ClosingEvent(s.runs[n], ending), now);
    if !OwnCommandOpen(s, n) {
      NotOpenIsNotLive(s, n);
    }
  }

  lemma RunEmitsCore(s: State, n: nat, e: Event, now: int)
    requires Core(s) && n in s.runs
    ensures Core(EmitAndMark(s, s.runs[n].id, e, now))
  {
    hide QueueOk, LocksOk, FifoOk, AccountedOk, HistoryOk, EndsOk, EmitAndMark;
    RunningIsNotQueued(s, n);
    EmitKeepsCore(s, s.runs[n].id, e, now);
  }

  lemma NotOpenIsNotLive(s: State, n: nat)
    requires Core(s) && n in s.runs && !OwnCommandOpen(s, n)
    ensures !Live(s, s.runs[n].id)
  {
    hide QueueOk, LocksOk, FifoOk, AccountedOk, HistoryOk, EndsOk;
    RunningIsNotQueued(s, n);
  }

  lemma FinishUsesOne(s: State, n: nat, ending: Ending, now: int)
    requires Inv(s) && n in s.runs
    ensures var s' := Finish(s, n, ending, now);
      Inv(s') && s'.connected == s.connected && Outstanding(s') == Outstanding(s) - 1
  {
    hide QueueOk, FlightOk, TrackedOk, LocksOk, FifoOk, AccountedOk, HistoryOk, EndsOk, EmitAndMark, Fill;
    FinishKeepsInv(s, n, ending, now);
    var s1 := Closed(s, n, ending, now);
    ClosedKeepsOthers(s, n, ending, now);
    ReleaseKeepsCore(s1, n);
    ReleaseShrinks(s1, n);
    FillKeepsOutstanding(Release(s1, n));
    FillKeepsCore(Release(s1, n));
  }

  lemma EmptyWhenIdle(s: State)
    requires Inv(s) && s.connected
    ensures s.runs == map[] <==> Outstanding(s) == 0
  {
    RunsAreInFlight(s);
    if s.queue != [] && s.inFlight == map[] { IdleStartsHead(s); }
  }

  ghost predicate OnlyFinishes(steps: seq<Step>) {
    forall i | 0 <= i < |steps| :: steps[i].FinishStep?
  }

  lemma RunBehindFirst(states: seq<State>, steps: seq<Step>)
    requires IsRun(states, steps) && steps != []
    ensures IsRun(states[1..], steps[1..])
  {
    hide Enabled, Apply;
    forall i | 0 <= i < |steps[1..]|
      ensures Enabled(states[1..][i], steps[1..][i]) && states[1..][i + 1] == Apply(states[1..][i], steps[1..][i])
    {
      assert Enabled(states[i + 1], steps[i + 1]) && states[i + 2] == Apply(states[i + 1], steps[i + 1]);
    }
  }

  /**
   * No command starves once arrivals stop: whatever in-flight command finishes at each step, a
   * connected executor can make exactly as many finishing steps as commands were queued or in
   * flight, and then it is empty; before that some execution can always finish.
   */
  lemma {:induction false} Drains(s: State, states: seq<State>, steps: seq<Step>)
    requires Inv(s) && s.connected && IsRun(states, steps) && states[0] == s && OnlyFinishes(steps)
    ensures |steps| <= Outstanding(s)
    ensures var last := states[|steps|];
      && (last.runs == map[] <==> |steps| == Outstanding(s))
      && (last.runs == map[] ==> last.queue == [])
    decreases |steps|
  {
    hide QueueOk, FlightOk, TrackedOk, LocksOk, FifoOk, AccountedOk, HistoryOk, EndsOk, Finish;
    if |steps| == 0 {
      EmptyWhenIdle(s);
    } else {
      assert Enabled(states[0], steps[0]) && states[1] == Apply(states[0], steps[0]);
      FinishUsesOne(s, steps[0].ticket, steps[0].ending, steps[0].now);
      RunBehindFirst(states, steps);
      Drains(states[1], states[1..], steps[1..]);
    }
  }

  // ---------------------------------------------------------------------------------------------
  // A run that is not clean
  // ---------------------------------------------------------------------------------------------

  /** A command without a lock. */
  function FreeCommand(id: Id): Command {
    Command(id, "op", "GET", "/api/gateway/x", None, JNull)
  }

  lemma FreeCommandIsValid(id: Id)
    requires id in {"A", "B"}
    ensures DeriveLockKey(FreeCommand(id)).None? && ValidateCommand(FreeCommand(id)).None?
  {
    var c := FreeCommand(id);
    assert Upper(c.verb) == "GET";
    assert "/api/gateway/" <= c.path;
    assert TrimStart(id) == id && TrimEnd(id) == id;
    assert AsRecord(c.body) == map[];
    NothingPresent(SCOPE_FIELDS);
  }

  lemma {:induction false} NothingPresent(names: seq<string>)
    ensures FirstPresent(map[], names).None?
  {
    if names != [] { NothingPresent(names[1..]); }
  }

  /** With an empty queue and a free slot, a lock-free command starts at once. */
  lemma FreeCommandStarts(s: State, id: Id)
    requires id in {"A", "B"} && s.connected && s.queue == [] && |s.inFlight| < Limit(s) && id !in s.tracked
    ensures var s' := Schedule(AddCommand(s, FreeCommand(id)));
      && s'.queue == [] && s'.connected && s'.maxInFlight == s.maxInFlight
      && s'.inFlight == s.inFlight[id := |s.log|]
      && s'.runs == s.runs[|s.log| := Run(id, None, None, false)]
      && s'.tracked.Keys == s.tracked.Keys + {id} && s'.tracked[id].phase == Running && s'.tracked[id].ticket == |s.log|
      && |s'.log| == |s.log| + 1
  {
    var c := FreeCommand(id);
    FreeCommandIsValid(id);
    hide FreeCommand, DeriveLockKey, ValidateCommand, Schedule;
    var s0 := AddCommand(s, c);
    assert s0.queue == [c] && s0.inFlight == s.inFlight && s0.runs == s.runs && |s0.log| == |s.log| + 1;
    OnlyCommandStarts(s0, c);
  }

  /** The only queued command has no lock: `schedule` starts it and is done. */
  lemma OnlyCommandStarts(s: State, c: Command)
    requires s.connected && s.queue == [c] && |s.inFlight| < Limit(s) && DeriveLockKey(c).None?
    requires c.id in s.tracked && s.tracked[c.id].phase.Queued? && s.tracked[c.id].ticket < |s.log|
    ensures var s' := Schedule(s);
      && s'.queue == [] && s'.connected && s'.maxInFlight == s.maxInFlight
      && s'.inFlight == s.inFlight[c.id := s.tracked[c.id].ticket]
      && s'.runs == s.runs[s.tracked[c.id].ticket := Run(c.id, None, None, false)]
      && s'.tracked.Keys == s.tracked.Keys && s'.tracked[c.id].phase == Running && s'.tracked[c.id].ticket == s.tracked[c.id].ticket
      && |s'.log| == |s.log|
  {
    hide DeriveLockKey;
    var s0 := s.(queue := RemoveAt(s.queue, 0));
    assert s0.queue == [];
    assert StartAt(s, 0) == Execute(s0, c);
    ExecuteKeepsQueue(s0, c);
    assert FirstFree(s.queue, s.lockOwners) == 0;
    assert Fill(Execute(s0, c)) == Execute(s0, c);
    assert Schedule(s) == Execute(s0, c);
    hide Schedule, Fill, StartAt, CanStart, FirstFree;
  }

  function EnqueueFree(id: Id, removed: set<Id>, now: int): Step {
    EnqueueStep(FreeCommand(id), None, removed, now)
  }

  lemma EnqueueFreeEnabled(s: State, id: Id, removed: set<Id>, now: int)
    requires removed == TerminalIds(s.tracked) && forall x | x in removed :: Expired(s.tracked[x], now)
    ensures Enabled(s, EnqueueFree(id, removed, now))
  {
    var rest := s.tracked - ExpiredIds(s.tracked, now);
    assert ExpiredIds(s.tracked, now) == removed && removed - removed == {};
    assert TerminalIds(rest) == {} && TerminalIds(rest) - {} == {};
  }

  lemma EnqueueFreeStarts(s: State, id: Id, removed: set<Id>, now: int)
    requires id in {"A", "B"} && s.connected && s.queue == [] && |s.inFlight| < Limit(s)
    requires id !in s.tracked - removed && Enabled(s, EnqueueFree(id, removed, now))
    ensures var s' := Apply(s, EnqueueFree(id, removed, now));
      && s'.queue == [] && s'.connected && s'.maxInFlight == s.maxInFlight
      && s'.inFlight == s.inFlight[id := |s.log|]
      && s'.runs == s.runs[|s.log| := Run(id, None, None, false)]
      && s'.tracked.Keys == s.tracked.Keys - removed + {id}
      && s'.tracked[id].phase == Running && s'.tracked[id].ticket == |s.log|
      && |s'.log| == |s.log| + 1
  {
    hide Fill, DeriveLockKey, ValidateCommand, AddCommand, Enqueue, PruneAllows;
    FreeCommandIsValid(id);
    EnqueueIs(s, FreeCommand(id), None, removed);
    FreeCommandStarts(s.(tracked := s.tracked - removed), id);
  }

  lemma EndingLine(s: State, id: Id, now: int)
    requires 0 in s.runs && s.runs[0].id == id && s.tracked.Keys == {id} && s.tracked[id].phase.Running?
    ensures Enabled(s, LineStep(0, PLAIN_DONE, now))
    ensures var s' := Apply(s, LineStep(0, PLAIN_DONE, now));
      && s'.tracked.Keys == {id} && s'.tracked[id].phase == Terminal(Finished, now)
      && s'.runs == s.runs && s'.inFlight == s.inFlight && s'.queue == s.queue
      && s'.connected == s.connected && s'.maxInFlight == s.maxInFlight && |s'.log| == |s.log|
  {
    DoneFinishes();
    hide IsTerminalEvent, ResolveTerminalState;
  }

  lemma DoneFinishes()
    ensures IsTerminalEvent(PLAIN_DONE) && ResolveTerminalState(PLAIN_DONE) == Finished
  {
    OwnEvents(Command("", "", "", "", None, JNull), "", "", 0, true, JNull);
  }

  /** "A" is terminal, but its execution, ticket 0, has not returned yet. */
  ghost predicate EndedInFlight(s: State) {
    && s.queue == [] && s.connected && s.maxInFlight == 2 && |s.log| == 1
    && s.inFlight == map["A" := 0] && s.runs == map[0 := Run("A", None, None, false)]
    && s.tracked.Keys == {"A"} && s.tracked["A"].phase == Terminal(Finished, 1)
  }

  lemma ReachEndedInFlight() returns (states: seq<State>, steps: seq<Step>)
    ensures IsRun(states, steps) && states[0] == Init(2) && |steps| == 3 && EndedInFlight(states[3])
  {
    hide Enabled, Apply;
    var s0 := Init(2);
    ConnectIdle(2);
    var s1 := Apply(s0, SetConnected(true));
    EnqueueFreeEnabled(s1, "A", {}, 1);
    EnqueueFreeStarts(s1, "A", {}, 1);
    var s2 := Apply(s1, EnqueueFree("A", {}, 1));
    EndingLine(s2, "A", 1);
    var s3 := Apply(s2, LineStep(0, PLAIN_DONE, 1));
    states := [s0, s1, s2, s3];
    steps := [SetConnected(true), EnqueueFree("A", {}, 1), LineStep(0, PLAIN_DONE, 1)];
  }

  lemma OverrunFrom(s3: State) returns (s4: State, s5: State)
    requires EndedInFlight(s3)
    ensures Enabled(s3, EnqueueFree("A", {"A"}, 700000)) && s4 == Apply(s3, EnqueueFree("A", {"A"}, 700000))
    ensures Enabled(s4, EnqueueFree("B", {}, 700000)) && s5 == Apply(s4, EnqueueFree("B", {}, 700000))
    ensures |s5.runs| == 3
  {
    hide Enabled, Apply, EnqueueFree;
    s4 := SecondA(s3);
    hide EndedInFlight;
    s5 := ThirdRun(s4);
  }

  lemma ThirdRun(s4: State) returns (s5: State)
    requires s4.queue == [] && s4.connected && s4.maxInFlight == 2 && |s4.log| == 2 && s4.inFlight.Keys == {"A"}
    requires s4.runs.Keys == {0, 1} && |s4.runs| == 2 && s4.tracked.Keys == {"A"} && s4.tracked["A"].phase == Running
    ensures Enabled(s4, EnqueueFree("B", {}, 700000)) && s5 == Apply(s4, EnqueueFree("B", {}, 700000))
    ensures |s5.runs| == 3
  {
    hide Enabled, Apply, EnqueueFree;
    assert TerminalIds(s4.tracked) == {};
    assert |s4.inFlight.Keys| == 1;
    hide TerminalIds, Expired;
    EnqueueFreeEnabled(s4, "B", {}, 700000);
    EnqueueFreeStarts(s4, "B", {}, 700000);
    s5 := Apply(s4, EnqueueFree("B", {}, 700000));
    assert s5.runs == s4.runs[2 := Run("B", None, None, false)];
  }

  lemma SecondA(s3: State) returns (s4: State)
    requires EndedInFlight(s3)
    ensures Enabled(s3, EnqueueFree("A", {"A"}, 700000)) && s4 == Apply(s3, EnqueueFree("A", {"A"}, 700000))
    ensures s4.queue == [] && s4.connected && s4.maxInFlight == 2 && |s4.log| == 2 && s4.inFlight.Keys == {"A"}
    ensures s4.runs.Keys == {0, 1} && |s4.runs| == 2 && s4.tracked.Keys == {"A"} && s4.tracked["A"].phase == Running
  {
    hide Enabled, Apply;
    assert |s3.inFlight.Keys| == 1;
    assert TerminalIds(s3.tracked) == {"A"};
    EnqueueFreeEnabled(s3, "A", {"A"}, 700000);
    EnqueueFreeStarts(s3, "A", {"A"}, 700000);
    s4 := Apply(s3, EnqueueFree("A", {"A"}, 700000));
    assert |s4.runs.Keys| == 2;
  }

  /**
   * The limit is not unconditional. With two slots: "A" starts, its stream ends it, and before its
   * execution returns the ten minutes of retention pass and "A" is enqueued again. The new "A"
   * replaces the old one in the in-flight map, so that "B" starts as well: three executions at once.
   */
  lemma LateReenqueueOverruns() returns (states: seq<State>, steps: seq<Step>)
    ensures IsRun(states, steps) && states[0] == Init(2)
    ensures |steps| == 5 && !Clean(states[3], steps[3]) && |states[5].runs| == 3
  {
    hide Enabled, Apply;
    var states3, steps3 := ReachEndedInFlight();
    var s3 := states3[3];
    var s4, s5 := OverrunFrom(s3);
    FreeCommandIsValid("A");
    states, steps := states3 + [s4, s5], steps3 + [EnqueueFree("A", {"A"}, 700000), EnqueueFree("B", {}, 700000)];
  }

  lemma ConnectIdle(maxInFlight: int)
    ensures Enabled(Init(maxInFlight), SetConnected(true))
    ensures Apply(Init(maxInFlight), SetConnected(true)) == Init(maxInFlight).(connected := true)
  {
  }
}
