/**
 * Which commands exclude each other, said of the commands and their bodies alone: what the locks of
 * the scheduler come to in every reachable state.
 */
module ExecutorLocks {
  import opened Prelude
  import opened CommandTypes
  import opened ExecutorModel
  import opened ExecutorSafety
  import opened ExecutorRuns

  // ---------------------------------------------------------------------------------------------
  // The lock of a command
  // ---------------------------------------------------------------------------------------------

  /** The command names its lock itself. */
  ghost predicate NamesLock(c: Command, key: string) {
    c.lockKey.Some? && key != "" && Trimmed(c.lockKey.value, key)
  }

  /** It leaves the lock to its body. */
  ghost predicate NamesNone(c: Command) {
    c.lockKey.None? || Trimmed(c.lockKey.value, "")
  }

  predicate HasString(body: Json, name: string) {
    body.JObj? && name in body.fields && body.fields[name].JStr?
  }

  /** The body is an object with this string, trimmed, in this field. */
  ghost predicate FieldIs(body: Json, name: string, text: string) {
    HasString(body, name) && Trimmed(body.fields[name].s, text)
  }

  /** The first of the five path fields that holds a string holds this one, and it is not blank. */
  ghost predicate WorksOn(c: Command, text: string) {
    var body := c.body;
    text != "" &&
    if HasString(body, "repoPath") then FieldIs(body, "repoPath", text)
    else if HasString(body, "worktreePath") then FieldIs(body, "worktreePath", text)
    else if HasString(body, "workDir") then FieldIs(body, "workDir", text)
    else if HasString(body, "runDir") then FieldIs(body, "runDir", text)
    else FieldIs(body, "path", text)
  }

  /** The lock is the one the command names, or else its operation on the path it works on. */
  ghost predicate Locks(c: Command, key: string) {
    NamesLock(c, key) || (NamesNone(c) && exists text :: WorksOn(c, text) && key == c.operationId + ":" + text)
  }

  lemma FirstPresentIs(c: Command, text: string)
    ensures WorksOn(c, text) <==> text != "" && FirstPresent(AsRecord(c.body), SCOPE_FIELDS) == Some(text)
  {
    hide TextField, Trimmed;
    FieldIsText(c.body, "repoPath", text);
    FieldIsText(c.body, "worktreePath", text);
    FieldIsText(c.body, "workDir", text);
    FieldIsText(c.body, "runDir", text);
    FieldIsText(c.body, "path", text);
    hide FieldIs, HasString;
    FirstOfFive(AsRecord(c.body), "repoPath", "worktreePath", "workDir", "runDir", "path");
  }

  lemma FieldIsText(body: Json, name: string, text: string)
    ensures FieldIs(body, name, text) <==> TextField(AsRecord(body), name) == Some(text)
    ensures HasString(body, name) <==> TextField(AsRecord(body), name).Some?
  {
    if HasString(body, name) {
      TrimIs(body.fields[name].s, text);
    }
    hide Trimmed, Trim;
  }

  lemma FirstOfFive(r: map<string, Json>, a: string, b: string, c: string, d: string, e: string)
    ensures FirstPresent(r, [a, b, c, d, e])
         == if TextField(r, a).Some? then TextField(r, a)
            else if TextField(r, b).Some? then TextField(r, b)
            else if TextField(r, c).Some? then TextField(r, c)
            else if TextField(r, d).Some? then TextField(r, d)
            else TextField(r, e)
  {
    hide TextField;
    assert [a, b, c, d, e][1..] == [b, c, d, e] && [b, c, d, e][1..] == [c, d, e] && [c, d, e][1..] == [d, e];
    assert [d, e][1..] == [e] && [e][1..] == [];
    assert FirstPresent(r, [d, e]) == if TextField(r, d).Some? then TextField(r, d) else FirstPresent(r, [e]);
    assert FirstPresent(r, [c, d, e]) == if TextField(r, c).Some? then TextField(r, c) else FirstPresent(r, [d, e]);
    assert FirstPresent(r, [b, c, d, e]) == if TextField(r, b).Some? then TextField(r, b) else FirstPresent(r, [c, d, e]);
  }

  /** The key that the scheduler derives is that lock. */
  lemma LocksIff(c: Command, key: string)
    ensures Locks(c, key) <==> DeriveLockKey(c) == Some(key)
  {
    if c.lockKey.Some? {
      TrimIs(c.lockKey.value, key);
      TrimIs(c.lockKey.value, "");
    }
    var scoped := FirstPresent(AsRecord(c.body), SCOPE_FIELDS);
    hide Trimmed, Trim, WorksOn, FirstPresent;
    if scoped.Some? {
      FirstPresentIs(c, scoped.value);
    }
    if text :| WorksOn(c, text) && key == c.operationId + ":" + text {
      FirstPresentIs(c, text);
    }
  }

  ghost predicate Unlocked(c: Command) {
    forall key :: !Locks(c, key)
  }

  lemma UnlockedIff(c: Command)
    ensures Unlocked(c) <==> DeriveLockKey(c).None?
  {
    hide Locks;
    if DeriveLockKey(c).Some? {
      LocksIff(c, DeriveLockKey(c).value);
    } else {
      forall key ensures !Locks(c, key) {
        LocksIff(c, key);
      }
    }
  }

  /** A command that starts takes its lock and no other. */
  lemma TakesItsLock(s: State, c: Command)
    requires c.id in s.tracked
    ensures var owners := Execute(s, c).lockOwners;
      && (Unlocked(c) ==> owners == s.lockOwners)
      && (forall key | Locks(c, key) :: owners == s.lockOwners[key := c.id])
  {
    UnlockedIff(c);
    hide Unlocked, Locks, DeriveLockKey, RunningStatus;
    forall key | Locks(c, key) ensures DeriveLockKey(c) == Some(key) {
      LocksIff(c, key);
    }
  }

  // ---------------------------------------------------------------------------------------------
  // In every reachable state
  // ---------------------------------------------------------------------------------------------

  /** No two commands with one lock are in flight together. */
  lemma LocksExclude(states: seq<State>, steps: seq<Step>, k: nat, n: nat, m: nat, key: string)
    requires CleanRun(states, steps) && k < |states| && n in states[k].runs && m in states[k].runs && n != m
    ensures n < |states[k].log| && m < |states[k].log|
    ensures !(Locks(states[k].log[n].command, key) && Locks(states[k].log[m].command, key))
  {
    RunKeepsInv(states, steps, k);
    LocksAndLimit(states, steps, k);
    FlightAt(states[k], n);
    FlightAt(states[k], m);
    hide *;
    LocksIff(states[k].log[n].command, key);
    LocksIff(states[k].log[m].command, key);
  }

  lemma FlightAt(s: State, n: nat)
    requires FlightOk(s) && n in s.runs
    ensures n < |s.log| && s.runs[n].lockKey == DeriveLockKey(s.log[n].command)
  {
  }

  /**
   * In particular: one operation never runs twice at once on one path, unless a command names its own
   * lock; and two commands that name the same lock never run together.
   */
  lemma OneOperationPerPath(states: seq<State>, steps: seq<Step>, k: nat, n: nat, m: nat, text: string)
    requires CleanRun(states, steps) && k < |states| && n in states[k].runs && m in states[k].runs && n != m
    ensures n < |states[k].log| && m < |states[k].log|
    ensures var a, b := states[k].log[n].command, states[k].log[m].command;
      && !(NamesLock(a, text) && NamesLock(b, text))
      && !(NamesNone(a) && NamesNone(b) && a.operationId == b.operationId && WorksOn(a, text) && WorksOn(b, text))
  {
    LocksExclude(states, steps, k, n, m, text);
    var a, b := states[k].log[n].command, states[k].log[m].command;
    hide NamesLock, NamesNone, WorksOn, CleanRun;
    LocksExclude(states, steps, k, n, m, a.operationId + ":" + text);
    if WorksOn(a, text) && WorksOn(b, text) && a.operationId == b.operationId {
      assert NamesNone(a) ==> Locks(a, a.operationId + ":" + text);
      assert NamesNone(b) ==> Locks(b, a.operationId + ":" + text);
    }
  }

  /**
   * A queued command waits for a reason: between steps of a connected executor the limit is reached, or
   * an in-flight command has the same lock. So a command without a lock waits only for a free slot.
   */
  lemma WaitsForItsLock(states: seq<State>, steps: seq<Step>, k: nat, i: nat) returns (n: nat, key: string)
    requires CleanRun(states, steps) && k < |states| && states[k].connected && i < |states[k].queue|
    ensures var s := states[k];
      |s.runs| < Max(1, s.maxInFlight) ==>
        n in s.runs && n < |s.log| && Locks(s.log[n].command, key) && Locks(s.queue[i], key)
    ensures Unlocked(states[k].queue[i]) ==> |states[k].runs| == Max(1, states[k].maxInFlight)
  {
    WorkConserving(states, steps, k);
    RunKeepsInv(states, steps, k);
    LocksAndLimit(states, steps, k);
    var s := states[k];
    hide CleanRun, Locks, DeriveLockKey;
    n, key := 0, "";
    if |s.runs| < Max(1, s.maxInFlight) {
      n :| n in s.runs && s.runs[n].lockKey.Some? && s.runs[n].lockKey == DeriveLockKey(s.queue[i]);
      key := s.runs[n].lockKey.value;
      FlightAt(s, n);
      LocksIff(s.log[n].command, key);
      LocksIff(s.queue[i], key);
    }
  }

  /** Two commands that have one lock, or that both have none. */
  ghost predicate SameLane(a: Command, b: Command) {
    (Unlocked(a) && Unlocked(b)) || exists key :: Locks(a, key) && Locks(b, key)
  }

  /** Of two such commands the earlier one starts first, unless it was cancelled in the queue. */
  lemma EarlierStartsFirst(states: seq<State>, steps: seq<Step>, k: nat, a: nat, b: nat)
    requires CleanRun(states, steps) && k < |states| && a < b < |states[k].log|
    requires SameLane(states[k].log[a].command, states[k].log[b].command) && b in states[k].starts
    ensures Before(states[k].starts, a, b) || CancelledInQueue(states[k].log[a].history)
  {
    var c, d := states[k].log[a].command, states[k].log[b].command;
    UnlockedIff(c);
    UnlockedIff(d);
    hide Locks, CleanRun, Before, CancelledInQueue, Unlocked;
    if key :| Locks(c, key) && Locks(d, key) {
      LocksIff(c, key);
      LocksIff(d, key);
    }
    FirstComeFirstServed(states, steps, k, a, b);
  }
}
