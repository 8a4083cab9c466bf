/**
 * The persisted store of local jobs. Value-level functions specify it; the class updates its fields
 * in place. The main result relates `getById` to the history of upserts.
 */
module Jobs {
  import opened Prelude

  type Id = string

  datatype Status =
    QUEUED | STARTING | RUNNING | AWAITING_USER | STOPPED | CANCEL_PENDING | COMPLETED | FAILED | CANCELLED | UNKNOWN | TIMED_OUT

  predicate IsTerminal(status: Status) {
    status in {COMPLETED, FAILED, CANCELLED, STOPPED, UNKNOWN, TIMED_OUT}
  }

  const MAX_TERMINAL_JOBS := 100

  /** A job record; the fields no property depends on are left out. Times are `None` until set. */
  datatype LocalJob = LocalJob(
    id: Id,
    loopId: Id,
    status: Status,
    execute: bool,
    executeFinalized: bool,
    pid: Option<int>,
    hasClaudeWorkDir: bool,
    hasStatePath: bool,
    artifactsUploadedAt: Option<int>,
    completedEventPostedAt: Option<int>,
    finalStatusPersistedAt: Option<int>,
    cloudFinalizedAt: Option<int>,
    recoveryAttempts: nat,
    lastRecoveryError: Option<string>)

  /** The active jobs in the insertion order of the source's Map, and the terminal jobs, newest first. */
  datatype Store = Store(active: seq<LocalJob>, terminal: seq<LocalJob>)

  // ---------------------------------------------------------------------------------------------
  // Operations on values
  // ---------------------------------------------------------------------------------------------

  /** The first job of the list with this id. */
  function Find(jobs: seq<LocalJob>, id: Id): Option<LocalJob> {
    if jobs == [] then None
    else if jobs[0].id == id then Some(jobs[0])
    else Find(jobs[1..], id)
  }

  function FindLoop(jobs: seq<LocalJob>, loopId: Id): Option<LocalJob> {
    if jobs == [] then None
    else if jobs[0].loopId == loopId then Some(jobs[0])
    else FindLoop(jobs[1..], loopId)
  }

  /** Map.set: replaces the entry in place, or appends it. */
  function SetIn(jobs: seq<LocalJob>, job: LocalJob): seq<LocalJob> {
    if jobs == [] then [job]
    else if jobs[0].id == job.id then [job] + jobs[1..]
    else [jobs[0]] + SetIn(jobs[1..], job)
  }

  /** filter((j) => j.id !== id), which is also what Map.delete leaves. */
  function Dropped(jobs: seq<LocalJob>, id: Id): seq<LocalJob> {
    if jobs == [] then []
    else if jobs[0].id == id then Dropped(jobs[1..], id)
    else [jobs[0]] + Dropped(jobs[1..], id)
  }

  function Capped(jobs: seq<LocalJob>): seq<LocalJob> {
    jobs[..Min(MAX_TERMINAL_JOBS, |jobs|)]
  }

  function Upserted(st: Store, job: LocalJob): Store {
    if IsTerminal(job.status) then Store(Dropped(st.active, job.id), Capped([job] + Dropped(st.terminal, job.id)))
    else st.(active := SetIn(st.active, job))
  }

  function Get(st: Store, id: Id): Option<LocalJob> {
    var active := Find(st.active, id);
    if active.Some? then active else Find(st.terminal, id)
  }

  function GetByLoop(st: Store, loopId: Id): Option<LocalJob> {
    var active := FindLoop(st.active, loopId);
    if active.Some? then active else FindLoop(st.terminal, loopId)
  }

  /** Reading a persisted array back into a Map. */
  function FromEntries(jobs: seq<LocalJob>): seq<LocalJob> {
    if jobs == [] then [] else SetIn(FromEntries(jobs[..|jobs| - 1]), jobs[|jobs| - 1])
  }

  function Loaded(active: seq<LocalJob>, terminal: seq<LocalJob>): Store {
    Store(FromEntries(active), Capped(terminal))
  }

  // ---------------------------------------------------------------------------------------------
  // What the operations mean
  // ---------------------------------------------------------------------------------------------

  ghost predicate DistinctIds(jobs: seq<LocalJob>) {
    forall i, j | 0 <= i < j < |jobs| :: jobs[i].id != jobs[j].id
  }

  ghost predicate HasId(jobs: seq<LocalJob>, id: Id) {
    exists i :: 0 <= i < |jobs| && jobs[i].id == id
  }

  lemma {:induction false} FindIs(jobs: seq<LocalJob>, id: Id)
    ensures Find(jobs, id).Some? <==> HasId(jobs, id)
    ensures Find(jobs, id).Some? ==> Find(jobs, id).value in jobs && Find(jobs, id).value.id == id
    ensures DistinctIds(jobs) ==> forall j | 0 <= j < |jobs| && jobs[j].id == id :: Find(jobs, id) == Some(jobs[j])
  {
    if jobs != [] {
      var tail := jobs[1..];
      FindIs(tail, id);
      assert HasId(jobs, id) <==> jobs[0].id == id || HasId(tail, id) by {
        if HasId(tail, id) {
          var i :| 0 <= i < |tail| && tail[i].id == id;
          assert jobs[i + 1].id == id;
        }
        assert forall i | 0 < i < |jobs| :: jobs[i] == tail[i - 1];
      }
      if DistinctIds(jobs) {
        forall j | 0 <= j < |jobs| && jobs[j].id == id ensures Find(jobs, id) == Some(jobs[j]) {
          if j > 0 {
            assert jobs[j] == tail[j - 1];
          }
        }
      }
    }
  }

  lemma {:induction false} SetInIs(jobs: seq<LocalJob>, job: LocalJob, id: Id)
    ensures Find(SetIn(jobs, job), id) == if id == job.id then Some(job) else Find(jobs, id)
    ensures DistinctIds(jobs) ==> DistinctIds(SetIn(jobs, job))
    ensures !HasId(jobs, job.id) ==> SetIn(jobs, job) == jobs + [job]
  {
    SetInFinds(jobs, job, id);
    SetInMembers(jobs, job);
  }

  lemma {:induction false} SetInFinds(jobs: seq<LocalJob>, job: LocalJob, id: Id)
    ensures Find(SetIn(jobs, job), id) == if id == job.id then Some(job) else Find(jobs, id)
  {
    if jobs != [] {
      SetInFinds(jobs[1..], job, id);
    }
  }

  lemma {:induction false} SetInMembers(jobs: seq<LocalJob>, job: LocalJob)
    ensures forall j | 0 <= j < |SetIn(jobs, job)| :: SetIn(jobs, job)[j] == job || SetIn(jobs, job)[j] in jobs
    ensures DistinctIds(jobs) ==> DistinctIds(SetIn(jobs, job))
    ensures !HasId(jobs, job.id) ==> SetIn(jobs, job) == jobs + [job]
  {
    hide DistinctIds, HasId;
    if jobs == [] {
      NoJobs(job.id);
      ConsIds(job, [], job.id);
      assert [job] + [] == [job];
    } else {
      var head, tail := jobs[0], jobs[1..];
      SetInMembers(tail, job);
      assert jobs == [head] + tail;
      ConsIds(head, tail, job.id);
      if head.id == job.id {
        ConsIds(job, tail, job.id);
      } else {
        ConsIds(head, SetIn(tail, job), job.id);
        FewerIdsOrOne(SetIn(tail, job), tail, job, head.id);
      }
    }
  }

  /** Setting an entry that is there leaves it in its place, and the others alone. */
  lemma {:induction false} SetInPlace(jobs: seq<LocalJob>, job: LocalJob, i: nat)
    requires DistinctIds(jobs) && i < |jobs| && jobs[i].id == job.id
    ensures SetIn(jobs, job) == jobs[i := job]
  {
    if i > 0 {
      var tail := jobs[1..];
      assert forall j | 0 <= j < |tail| :: tail[j] == jobs[j + 1];
      SetInPlace(tail, job, i - 1);
      assert jobs[i := job] == [jobs[0]] + tail[i - 1 := job];
    } else {
      assert jobs[0 := job] == [job] + jobs[1..];
    }
  }

  lemma FewerIdsOrOne(some: seq<LocalJob>, jobs: seq<LocalJob>, one: LocalJob, id: Id)
    requires one.id != id && forall j | 0 <= j < |some| :: some[j] == one || some[j] in jobs
    ensures !HasId(jobs, id) ==> !HasId(some, id)
  {
  }

  lemma {:induction false} DroppedIs(jobs: seq<LocalJob>, dropped: Id)
    ensures forall j | 0 <= j < |Dropped(jobs, dropped)| ::
      Dropped(jobs, dropped)[j] in jobs && Dropped(jobs, dropped)[j].id != dropped
    ensures DistinctIds(jobs) ==> DistinctIds(Dropped(jobs, dropped))
    ensures |Dropped(jobs, dropped)| <= |jobs|
    ensures !HasId(jobs, dropped) ==> Dropped(jobs, dropped) == jobs
  {
    hide DistinctIds, HasId;
    if jobs == [] {
      NoJobs(dropped);
    } else {
      var head, tail := jobs[0], jobs[1..];
      DroppedIs(tail, dropped);
      assert jobs == [head] + tail;
      ConsIds(head, tail, dropped);
      ConsIds(head, Dropped(tail, dropped), dropped);
      FewerIds(Dropped(tail, dropped), tail, head.id);
    }
  }

  lemma NoJobs(id: Id)
    ensures !HasId([], id) && DistinctIds([])
  {
  }

  lemma ConsIds(head: LocalJob, tail: seq<LocalJob>, id: Id)
    ensures HasId([head] + tail, id) <==> head.id == id || HasId(tail, id)
    ensures DistinctIds([head] + tail) <==> DistinctIds(tail) && !HasId(tail, head.id)
  {
    var jobs := [head] + tail;
    assert jobs[0] == head && forall i | 0 <= i < |tail| :: jobs[i + 1] == tail[i];
    if i :| 0 <= i < |jobs| && jobs[i].id == id {
      assert i > 0 ==> tail[i - 1].id == id;
    }
  }

  lemma FewerIds(some: seq<LocalJob>, jobs: seq<LocalJob>, id: Id)
    requires forall j | 0 <= j < |some| :: some[j] in jobs
    ensures !HasId(jobs, id) ==> !HasId(some, id)
  {
  }

  lemma {:induction false} DroppedFinds(jobs: seq<LocalJob>, dropped: Id, id: Id)
    ensures Find(Dropped(jobs, dropped), id) == if id == dropped then None else Find(jobs, id)
  {
    if jobs != [] {
      DroppedFinds(jobs[1..], dropped, id);
    }
  }

  // ---------------------------------------------------------------------------------------------
  // Histories
  // ---------------------------------------------------------------------------------------------

  /** The store after these upserts, starting empty. */
  function After(history: seq<LocalJob>): Store {
    if history == [] then Store([], []) else Upserted(After(history[..|history| - 1]), history[|history| - 1])
  }

  /** The last version of `id` that was upserted. */
  function Latest(history: seq<LocalJob>, id: Id): Option<LocalJob> {
    if history == [] then None
    else if history[|history| - 1].id == id then Some(history[|history| - 1])
    else Latest(history[..|history| - 1], id)
  }

  /** The ids that were upserted as terminal since `id` last was: itself excluded, each counted once. */
  function NewerTerminal(history: seq<LocalJob>, id: Id): set<Id> {
    if history == [] then {}
    else
      var last := history[|history| - 1];
      if !IsTerminal(last.status) then NewerTerminal(history[..|history| - 1], id)
      else if last.id == id then {}
      else NewerTerminal(history[..|history| - 1], id) + {last.id}
  }

  /** The terminal list without its cap. */
  function Recency(history: seq<LocalJob>): seq<LocalJob> {
    if history == [] then []
    else
      var last, front := history[|history| - 1], history[..|history| - 1];
      if IsTerminal(last.status) then [last] + Dropped(Recency(front), last.id) else Recency(front)
  }

  lemma {:induction false} RecencyDistinct(history: seq<LocalJob>)
    ensures DistinctIds(Recency(history))
    ensures forall j | 0 <= j < |Recency(history)| :: IsTerminal(Recency(history)[j].status)
  {
    if history != [] {
      var last, front := history[|history| - 1], history[..|history| - 1];
      RecencyDistinct(front);
      DroppedIs(Recency(front), last.id);
      assert forall j | 0 <= j < |Dropped(Recency(front), last.id)| ::
        Dropped(Recency(front), last.id)[j] in Recency(front);
    }
  }

  /** Dropping and capping may be exchanged, so that the capped list is the uncapped one, cut. */
  lemma {:induction false} DropThenCut(jobs: seq<LocalJob>, id: Id, n: nat)
    requires DistinctIds(jobs) && n < |jobs|
    ensures |Dropped(jobs, id)| >= n && |Dropped(jobs[..n + 1], id)| >= n
    ensures Dropped(jobs[..n + 1], id)[..n] == Dropped(jobs, id)[..n]
  {
    hide DistinctIds, HasId;
    var head, tail := jobs[0], jobs[1..];
    assert jobs == [head] + tail;
    ConsIds(head, tail, id);
    assert jobs[..n + 1] == [head] + tail[..n];
    assert jobs[..n + 1][1..] == tail[..n];
    if head.id == id {
      FewerIds(tail[..n], tail, id);
      DroppedIs(tail, id);
      DroppedIs(tail[..n], id);
    } else if n > 0 {
      DropThenCut(tail, id, n - 1);
      ConsCut(head, Dropped(tail[..n], id), Dropped(tail, id), n);
    }
  }

  lemma ConsCut(head: LocalJob, a: seq<LocalJob>, b: seq<LocalJob>, n: nat)
    requires 0 < n && n - 1 <= |a| && n - 1 <= |b| && a[..n - 1] == b[..n - 1]
    ensures ([head] + a)[..n] == ([head] + b)[..n]
  {
    assert ([head] + a)[..n] == [head] + a[..n - 1];
    assert ([head] + b)[..n] == [head] + b[..n - 1];
  }

  lemma {:induction false} TerminalIsRecencyCut(history: seq<LocalJob>)
    ensures After(history).terminal == Recency(history)[..Min(100, |Recency(history)|)]
  {
    if history != [] {
      var last, front := history[|history| - 1], history[..|history| - 1];
      TerminalIsRecencyCut(front);
      RecencyDistinct(front);
      var r := Recency(front);
      if IsTerminal(last.status) {
        if |r| >= MAX_TERMINAL_JOBS {
          DropThenCut(r, last.id, MAX_TERMINAL_JOBS - 1);
          CutAfterHead(last, Dropped(r[..MAX_TERMINAL_JOBS], last.id), Dropped(r, last.id));
        } else {
          assert Capped(r) == r;
        }
      }
    }
  }

  lemma CutAfterHead(head: LocalJob, a: seq<LocalJob>, b: seq<LocalJob>)
    requires |a| >= MAX_TERMINAL_JOBS - 1 && |b| >= MAX_TERMINAL_JOBS - 1
    requires a[..MAX_TERMINAL_JOBS - 1] == b[..MAX_TERMINAL_JOBS - 1]
    ensures Capped([head] + a) == Capped([head] + b)
  {
    assert ([head] + a)[..MAX_TERMINAL_JOBS] == [head] + a[..MAX_TERMINAL_JOBS - 1];
    assert ([head] + b)[..MAX_TERMINAL_JOBS] == [head] + b[..MAX_TERMINAL_JOBS - 1];
  }

  /** Where `id` stands in the list. */
  function Position(jobs: seq<LocalJob>, id: Id): nat {
    if jobs == [] || jobs[0].id == id then 0 else 1 + Position(jobs[1..], id)
  }

  /** The ids in front of `id`. */
  function IdsBefore(jobs: seq<LocalJob>, id: Id): set<Id> {
    if jobs == [] || jobs[0].id == id then {} else {jobs[0].id} + IdsBefore(jobs[1..], id)
  }

  lemma {:induction false} PositionCounts(jobs: seq<LocalJob>, id: Id)
    requires DistinctIds(jobs)
    ensures |IdsBefore(jobs, id)| == Position(jobs, id) <= |jobs|
    ensures forall x | x in IdsBefore(jobs, id) :: HasId(jobs, x)
  {
    if jobs != [] && jobs[0].id != id {
      var tail := jobs[1..];
      assert forall j | 0 <= j < |tail| :: tail[j] == jobs[j + 1];
      PositionCounts(tail, id);
      forall x | x in IdsBefore(jobs, id) ensures HasId(jobs, x) {
        if x == jobs[0].id {
          assert jobs[0].id == x;
        } else {
          var j :| 0 <= j < |tail| && tail[j].id == x;
          assert jobs[j + 1].id == x;
        }
      }
      assert !HasId(tail, jobs[0].id);
    }
  }

  lemma {:induction false} IdsBeforeDropped(jobs: seq<LocalJob>, dropped: Id, id: Id)
    requires dropped != id
    ensures IdsBefore(Dropped(jobs, dropped), id) == IdsBefore(jobs, id) - {dropped}
  {
    if jobs != [] {
      IdsBeforeDropped(jobs[1..], dropped, id);
    }
  }

  /** The jobs in front of `id` in the uncapped list are the ones upserted as terminal after it. */
  lemma {:induction false} NewerAreInFront(history: seq<LocalJob>, id: Id)
    ensures HasId(Recency(history), id) ==> IdsBefore(Recency(history), id) == NewerTerminal(history, id)
  {
    if history != [] {
      var last, front := history[|history| - 1], history[..|history| - 1];
      NewerAreInFront(front, id);
      if IsTerminal(last.status) && last.id != id {
        var r := Dropped(Recency(front), last.id);
        IdsBeforeDropped(Recency(front), last.id, id);
        assert ([last] + r)[1..] == r;
        if HasId([last] + r, id) {
          var j :| 0 <= j < |[last] + r| && ([last] + r)[j].id == id;
          assert r[j - 1].id == id;
          DroppedIs(Recency(front), last.id);
          var i :| 0 <= i < |Recency(front)| && Recency(front)[i] == r[j - 1];
        }
      }
    }
  }

  lemma {:induction false} FindCut(jobs: seq<LocalJob>, id: Id, n: nat)
    requires n <= |jobs|
    ensures Find(jobs[..n], id) == if Position(jobs, id) < n then Find(jobs, id) else None
  {
    if n > 0 {
      assert jobs[..n][1..] == jobs[1..][..n - 1];
      if jobs[0].id != id {
        FindCut(jobs[1..], id, n - 1);
      }
    }
  }

  lemma {:induction false} ActiveIsLatest(history: seq<LocalJob>, id: Id)
    ensures Find(After(history).active, id)
         == if Latest(history, id).Some? && !IsTerminal(Latest(history, id).value.status) then Latest(history, id) else None
  {
    if history != [] {
      var last, front := history[|history| - 1], history[..|history| - 1];
      ActiveIsLatest(front, id);
      if IsTerminal(last.status) {
        DroppedFinds(After(front).active, last.id, id);
      } else {
        SetInFinds(After(front).active, last, id);
      }
    }
  }

  lemma {:induction false} RecencyIsLatest(history: seq<LocalJob>, id: Id)
    ensures Latest(history, id).None? ==> Find(Recency(history), id).None?
    ensures Latest(history, id).Some? && IsTerminal(Latest(history, id).value.status) ==> Find(Recency(history), id) == Latest(history, id)
  {
    if history != [] {
      var last, front := history[|history| - 1], history[..|history| - 1];
      RecencyIsLatest(front, id);
      DroppedFinds(Recency(front), last.id, id);
      assert ([last] + Dropped(Recency(front), last.id))[1..] == Dropped(Recency(front), last.id);
    }
  }

  /**
   * Whatever was upserted: `getById` returns the last version of the id if that version was not
   * terminal or fewer than 100 other ids became terminal after it, and nothing otherwise.
   */
  lemma GetIsLatest(history: seq<LocalJob>, id: Id)
    ensures Get(After(history), id)
         == if Latest(history, id).None? then None
            else if !IsTerminal(Latest(history, id).value.status) || |NewerTerminal(history, id)| < 100 then Latest(history, id)
            else None
  {
    ActiveIsLatest(history, id);
    RecencyIsLatest(history, id);
    TerminalIsRecencyCut(history);
    RecencyDistinct(history);
    var r := Recency(history);
    FindIs(r, id);
    FindCut(r, id, Min(MAX_TERMINAL_JOBS, |r|));
    PositionCounts(r, id);
    NewerAreInFront(history, id);
    if HasId(r, id) {
      PositionInside(r, id);
    }
  }

  lemma {:induction false} PositionInside(jobs: seq<LocalJob>, id: Id)
    requires HasId(jobs, id)
    ensures Position(jobs, id) < |jobs|
  {
    if jobs[0].id != id {
      var j :| 0 <= j < |jobs| && jobs[j].id == id;
      assert jobs[1..][j - 1].id == id;
      PositionInside(jobs[1..], id);
    }
  }

  // ---------------------------------------------------------------------------------------------
  // Invariants and reloading
  // ---------------------------------------------------------------------------------------------

  /** Unique ids in both lists, at most 100 terminal jobs, and each list only of its own kind. */
  ghost predicate StoreOk(st: Store) {
    && DistinctIds(st.active) && DistinctIds(st.terminal) && |st.terminal| <= 100
    && (forall j | 0 <= j < |st.active| :: !IsTerminal(st.active[j].status))
    && (forall j | 0 <= j < |st.terminal| :: IsTerminal(st.terminal[j].status))
  }

  lemma UpsertKeepsOk(st: Store, job: LocalJob)
    requires StoreOk(st)
    ensures StoreOk(Upserted(st, job))
  {
    hide DistinctIds, HasId, SetIn, Dropped;
    SetInMembers(st.active, job);
    DroppedIs(st.active, job.id);
    DroppedIs(st.terminal, job.id);
    var rest := Dropped(st.terminal, job.id);
    assert forall j | 0 <= j < |rest| :: rest[j] in st.terminal;
    NotAmong(rest, job.id);
    ConsIds(job, rest, job.id);
    PrefixIds([job] + rest, |Capped([job] + rest)|);
  }

  lemma NotAmong(jobs: seq<LocalJob>, id: Id)
    requires forall j | 0 <= j < |jobs| :: jobs[j].id != id
    ensures !HasId(jobs, id)
  {
  }

  lemma PrefixIds(jobs: seq<LocalJob>, n: nat)
    requires n <= |jobs|
    ensures DistinctIds(jobs) ==> DistinctIds(jobs[..n])
  {
  }

  /** Persisting and reading back is the identity on every reachable store. */
  lemma ReloadIsIdentity(st: Store)
    requires StoreOk(st)
    ensures Loaded(st.active, st.terminal) == st
  {
    FromDistinctEntries(st.active);
    assert st.terminal[..|st.terminal|] == st.terminal;
  }

  lemma {:induction false} FromDistinctEntries(jobs: seq<LocalJob>)
    requires DistinctIds(jobs)
    ensures FromEntries(jobs) == jobs
  {
    if jobs != [] {
      var front, last := jobs[..|jobs| - 1], jobs[|jobs| - 1];
      FromDistinctEntries(front);
      assert !HasId(front, last.id);
      SetInMembers(front, last);
      assert jobs == front + [last];
    }
  }

  /** Reading any persisted arrays gives a map with unique ids, in which the last entry of an id counts. */
  lemma {:induction false} FromEntriesIs(jobs: seq<LocalJob>, id: Id)
    ensures DistinctIds(FromEntries(jobs)) && Find(FromEntries(jobs), id) == Latest(jobs, id)
  {
    if jobs != [] {
      var front, last := jobs[..|jobs| - 1], jobs[|jobs| - 1];
      FromEntriesIs(front, id);
      SetInIs(FromEntries(front), last, id);
    }
  }

  // ---------------------------------------------------------------------------------------------
  // Lookup by loop
  // ---------------------------------------------------------------------------------------------

  /** Every record of the loop carries the same job id. */
  ghost predicate OneJob(st: Store, loopId: Id, id: Id) {
    AllOne(st.active, loopId, id) && AllOne(st.terminal, loopId, id)
  }

  lemma {:induction false} FindLoopIsFind(jobs: seq<LocalJob>, loopId: Id, id: Id)
    requires AllOne(jobs, loopId, id)
    ensures FindLoop(jobs, loopId) == Find(jobs, id)
  {
    if jobs != [] {
      assert jobs[0].loopId == loopId <==> jobs[0].id == id;
      FindLoopIsFind(jobs[1..], loopId, id);
    }
  }

  /** The first job of the loop in this list, if there is one. */
  ghost predicate FirstOfLoop(jobs: seq<LocalJob>, loopId: Id, found: Option<LocalJob>) {
    if found.None? then forall i | 0 <= i < |jobs| :: jobs[i].loopId != loopId
    else exists i :: FirstOfLoopAt(jobs, loopId, found.value, i)
  }

  ghost predicate FirstOfLoopAt(jobs: seq<LocalJob>, loopId: Id, job: LocalJob, i: int) {
    0 <= i < |jobs| && jobs[i] == job && job.loopId == loopId && forall j | 0 <= j < i :: jobs[j].loopId != loopId
  }

  lemma {:induction false} FindLoopIsFirst(jobs: seq<LocalJob>, loopId: Id)
    ensures FirstOfLoop(jobs, loopId, FindLoop(jobs, loopId))
  {
    if jobs != [] {
      if jobs[0].loopId == loopId {
        assert FirstOfLoopAt(jobs, loopId, jobs[0], 0);
      } else {
        FindLoopIsFirst(jobs[1..], loopId);
        if i :| FindLoop(jobs[1..], loopId).Some? && FirstOfLoopAt(jobs[1..], loopId, FindLoop(jobs[1..], loopId).value, i) {
          assert FirstOfLoopAt(jobs, loopId, FindLoop(jobs[1..], loopId).value, i + 1);
        } else {
          assert forall i | 0 < i < |jobs| :: jobs[i] == jobs[1..][i - 1];
        }
      }
    }
  }

  /** Looking up by loop prefers active jobs; among those of a list the first one counts: of terminal jobs, the newest. */
  lemma GetByLoopIs(st: Store, loopId: Id)
    ensures var found := GetByLoop(st, loopId);
      || (found.Some? && FirstOfLoop(st.active, loopId, found))
      || (FirstOfLoop(st.active, loopId, None) && FirstOfLoop(st.terminal, loopId, found))
  {
    hide FirstOfLoop, FindLoop;
    FindLoopIsFirst(st.active, loopId);
    FindLoopIsFirst(st.terminal, loopId);
  }

  ghost predicate AllOne(jobs: seq<LocalJob>, loopId: Id, id: Id) {
    forall j | 0 <= j < |jobs| :: jobs[j].loopId == loopId <==> jobs[j].id == id
  }

  lemma UpsertKeepsAllOne(jobs: seq<LocalJob>, job: LocalJob)
    requires AllOne(jobs, job.loopId, job.id)
    ensures AllOne(SetIn(jobs, job), job.loopId, job.id)
    ensures AllOne(Dropped(jobs, job.id), job.loopId, job.id)
    ensures AllOne(Capped([job] + Dropped(jobs, job.id)), job.loopId, job.id)
  {
    SetInMembers(jobs, job);
    DroppedIs(jobs, job.id);
    var updated, dropped := SetIn(jobs, job), Dropped(jobs, job.id);
    forall j | 0 <= j < |updated| ensures updated[j].loopId == job.loopId <==> updated[j].id == job.id {
      assert updated[j] == job || updated[j] in jobs;
    }
    forall j | 0 <= j < |dropped| ensures dropped[j].loopId == job.loopId <==> dropped[j].id == job.id {
      assert dropped[j] in jobs;
    }
  }

  /** When a loop has one job, looking it up by loop gives what was upserted last. */
  lemma UpsertThenGetByLoop(st: Store, job: LocalJob)
    requires OneJob(st, job.loopId, job.id)
    ensures OneJob(Upserted(st, job), job.loopId, job.id)
    ensures GetByLoop(Upserted(st, job), job.loopId) == Some(job)
  {
    UpsertKeepsAllOne(st.active, job);
    UpsertKeepsAllOne(st.terminal, job);
    var st' := Upserted(st, job);
    FindLoopIsFind(st'.active, job.loopId, job.id);
    SetInFinds(st.active, job, job.id);
    DroppedFinds(st.active, job.id, job.id);
  }

  /** Upserts of other loops' jobs leave the lookup alone, unless the cap pushes the loop's terminal job out. */
  lemma UpsertOfOther(st: Store, job: LocalJob, loopId: Id, id: Id)
    requires OneJob(st, loopId, id) && job.loopId != loopId && job.id != id
    ensures OneJob(Upserted(st, job), loopId, id)
    ensures GetByLoop(Upserted(st, job), loopId) in {GetByLoop(st, loopId), None}
    ensures GetByLoop(Upserted(st, job), loopId).None? && GetByLoop(st, loopId).Some? ==>
      IsTerminal(job.status) && |st.terminal| >= MAX_TERMINAL_JOBS && Find(st.active, id).None?
  {
    OtherKeepsAllOne(st.active, job, loopId, id);
    OtherKeepsAllOne(st.terminal, job, loopId, id);
    var st', rest := Upserted(st, job), Dropped(st.terminal, job.id);
    FindLoopIsFind(st.active, loopId, id);
    FindLoopIsFind(st.terminal, loopId, id);
    FindLoopIsFind(st'.active, loopId, id);
    FindLoopIsFind(st'.terminal, loopId, id);
    SetInFinds(st.active, job, id);
    DroppedFinds(st.active, job.id, id);
    DroppedFinds(st.terminal, job.id, id);
    DroppedIs(st.terminal, job.id);
    assert ([job] + rest)[1..] == rest;
    FindCut([job] + rest, id, Min(MAX_TERMINAL_JOBS, |rest| + 1));
    assert |rest| < MAX_TERMINAL_JOBS ==> Capped([job] + rest) == [job] + rest;
  }

  lemma OtherKeepsAllOne(jobs: seq<LocalJob>, job: LocalJob, loopId: Id, id: Id)
    requires AllOne(jobs, loopId, id) && job.loopId != loopId && job.id != id
    ensures AllOne(SetIn(jobs, job), loopId, id)
    ensures AllOne(Dropped(jobs, job.id), loopId, id)
    ensures AllOne(Capped([job] + Dropped(jobs, job.id)), loopId, id)
  {
    SetInMembers(jobs, job);
    DroppedIs(jobs, job.id);
    var updated, dropped := SetIn(jobs, job), Dropped(jobs, job.id);
    forall j | 0 <= j < |updated| ensures updated[j].loopId == loopId <==> updated[j].id == id {
      assert updated[j] == job || updated[j] in jobs;
    }
    forall j | 0 <= j < |dropped| ensures dropped[j].loopId == loopId <==> dropped[j].id == id {
      assert dropped[j] in jobs;
    }
  }

  // ---------------------------------------------------------------------------------------------
  // Reconciling at start-up
  // ---------------------------------------------------------------------------------------------

  /** The loop over a snapshot of the active jobs. */
  function ReconcileAll(st: Store, jobs: seq<LocalJob>, check: LocalJob -> LocalJob): (Store, seq<LocalJob>) {
    if jobs == [] then (st, [])
    else
      var job := jobs[|jobs| - 1];
      var (st1, reconciled) := ReconcileAll(st, jobs[..|jobs| - 1], check);
      var updated := check(job);
      if IsTerminal(updated.status) then (Upserted(st1, updated), reconciled + [updated])
      else if updated != job then (Upserted(st1, updated), reconciled)
      else (st1, reconciled)
  }

  lemma {:induction false} FindAppend(jobs: seq<LocalJob>, job: LocalJob, id: Id)
    ensures Find(jobs + [job], id) == if Find(jobs, id).Some? then Find(jobs, id) else if job.id == id then Some(job) else None
  {
    if jobs == [] {
      assert jobs + [job] == [job];
    } else {
      assert (jobs + [job])[1..] == jobs[1..] + [job];
      FindAppend(jobs[1..], job, id);
    }
  }

  /** What the check leaves of an active job: nothing if it ended, its checked version otherwise. */
  function Survivor(found: Option<LocalJob>, check: LocalJob -> LocalJob): Option<LocalJob> {
    if found.None? || IsTerminal(check(found.value).status) then None else Some(check(found.value))
  }

  ghost predicate KeepsIds(jobs: seq<LocalJob>, check: LocalJob -> LocalJob) {
    forall j | 0 <= j < |jobs| :: check(jobs[j]).id == jobs[j].id
  }

  lemma {:induction false} ReconcilePrefix(st: Store, n: nat, check: LocalJob -> LocalJob, id: Id)
    requires DistinctIds(st.active) && n <= |st.active| && KeepsIds(st.active, check)
    ensures var (st', reconciled) := ReconcileAll(st, st.active[..n], check);
      var found := Find(st.active[..n], id);
      && Find(st'.active, id) == (if found.None? then Find(st.active, id) else Survivor(found, check))
      && Find(reconciled, id) == (if found.Some? && Survivor(found, check).None? then Some(check(found.value)) else None)
  {
    if n > 0 {
      var front, job := st.active[..n - 1], st.active[n - 1];
      assert st.active[..n] == front + [job] && st.active[..n][..n - 1] == front;
      ReconcilePrefix(st, n - 1, check, id);
      FindAppend(front, job, id);
      FindIs(st.active, id);
      FindIs(front, id);
      assert job.id == id ==> !HasId(front, id);
      var (st1, reconciled) := ReconcileAll(st, front, check);
      assert check(job).id == job.id;
      assert job.id == id ==> Find(st.active, id) == Some(job);
      hide FindLoop, DistinctIds, HasId, Find, KeepsIds;
      ReconcileOne(st1, reconciled, job, check, id);
    }
  }

  /** One job of the loop. */
  lemma ReconcileOne(st: Store, reconciled: seq<LocalJob>, job: LocalJob, check: LocalJob -> LocalJob, id: Id)
    requires check(job).id == job.id
    ensures var updated := check(job);
      var st' := if IsTerminal(updated.status) || updated != job then Upserted(st, updated) else st;
      var reconciled' := if IsTerminal(updated.status) then reconciled + [updated] else reconciled;
      && Find(st'.active, id) == (if id != job.id then Find(st.active, id)
                                  else if IsTerminal(updated.status) then None
                                  else if updated != job then Some(updated) else Find(st.active, id))
      && Find(reconciled', id) == (if Find(reconciled, id).None? && id == job.id && IsTerminal(updated.status) then Some(updated)
                                   else Find(reconciled, id))
  {
    SetInFinds(st.active, check(job), id);
    DroppedFinds(st.active, check(job).id, id);
    FindAppend(reconciled, check(job), id);
  }

  /**
   * Afterwards a job is active exactly when it was active and its check did not end it, and then in
   * its checked version; the jobs handed back are the ended ones.
   */
  lemma ReconcileIs(st: Store, check: LocalJob -> LocalJob, id: Id)
    requires DistinctIds(st.active) && KeepsIds(st.active, check)
    ensures var (st', reconciled) := ReconcileAll(st, st.active, check);
      var found := Find(st.active, id);
      && Find(st'.active, id) == Survivor(found, check)
      && Find(reconciled, id) == (if found.Some? && Survivor(found, check).None? then Some(check(found.value)) else None)
  {
    ReconcilePrefix(st, |st.active|, check, id);
    assert st.active[..|st.active|] == st.active;
  }

  /** The store itself. Every change is written through to the two persisted arrays. */
  class JobStore {
    var activeJobs: seq<LocalJob>
    var terminalJobs: seq<LocalJob>
    var persistedActive: seq<LocalJob>
    var persistedTerminal: seq<LocalJob>

    ghost function Contents(): Store
      reads this
    {
      Store(activeJobs, terminalJobs)
    }

    /** Opens the store on whatever arrays are persisted. */
    constructor (active: seq<LocalJob>, terminal: seq<LocalJob>)
      ensures Contents() == Loaded(active, terminal)
    {
      var jobs := [];
      assert active[..0] == [];
      for i := 0 to |active|
        invariant jobs == FromEntries(active[..i])
      {
        assert active[..i + 1][..i] == active[..i];
        jobs := SetIn(jobs, active[i]);
      }
      assert active[..|active|] == active;
      activeJobs := jobs;
      terminalJobs := Capped(terminal);
      persistedActive, persistedTerminal := active, terminal;
    }

    /** What a restart reads back is this store. */
    method Persist()
      modifies `persistedActive, `persistedTerminal
      ensures persistedActive == activeJobs && persistedTerminal == terminalJobs
      ensures StoreOk(Contents()) ==> Loaded(persistedActive, persistedTerminal) == Contents()
    {
      persistedActive := activeJobs;
      persistedTerminal := terminalJobs;
      if StoreOk(Contents()) {
        ReloadIsIdentity(Contents());
      }
    }

    /** What is persisted afterwards reads back as the same store. */
    method Upsert(job: LocalJob)
      modifies this
      ensures Contents() == Upserted(old(Contents()), job)
      ensures StoreOk(old(Contents())) ==> StoreOk(Contents()) && Loaded(persistedActive, persistedTerminal) == Contents()
    {
      ghost var before := Contents();
      if IsTerminal(job.status) {
        activeJobs := Dropped(activeJobs, job.id);
        terminalJobs := Capped([job] + Dropped(terminalJobs, job.id));
      } else {
        activeJobs := SetIn(activeJobs, job);
      }
      Persist();
      if StoreOk(before) {
        UpsertKeepsOk(before, job);
      }
    }

    method GetById(id: Id) returns (found: Option<LocalJob>)
      ensures found == Get(Contents(), id)
    {
      found := Find(activeJobs, id);
      if found.None? {
        found := Find(terminalJobs, id);
      }
    }

    method GetByLoopId(loopId: Id) returns (found: Option<LocalJob>)
      ensures found == GetByLoop(Contents(), loopId)
    {
      for i := 0 to |activeJobs|
        invariant FindLoop(activeJobs, loopId) == FindLoop(activeJobs[i..], loopId)
      {
        assert activeJobs[i..][1..] == activeJobs[i + 1..];
        if activeJobs[i].loopId == loopId {
          return Some(activeJobs[i]);
        }
      }
      found := FindLoop(terminalJobs, loopId);
    }

    /** Checks every active job and upserts what changed; returns the jobs that ended. */
    method Reconcile(checkLiveness: LocalJob -> LocalJob) returns (reconciled: seq<LocalJob>)
      modifies this
      ensures (Contents(), reconciled) == ReconcileAll(old(Contents()), old(activeJobs), checkLiveness)
    {
      reconciled := [];
      var jobs := activeJobs;
      assert jobs[..0] == [];
      for i := 0 to |jobs|
        invariant (Contents(), reconciled) == ReconcileAll(old(Contents()), jobs[..i], checkLiveness)
      {
        assert jobs[..i + 1][..i] == jobs[..i];
        var updated := checkLiveness(jobs[i]);
        if IsTerminal(updated.status) {
          Upsert(updated);
          reconciled := reconciled + [updated];
        } else if updated != jobs[i] {
          Upsert(updated);
        }
      }
      assert jobs[..|jobs|] == jobs;
    }
  }
}
