/**
 * Runs of the sync service against a source whose sessions keep changing. A cycle of syncOnce is cut
 * at its awaits; what happens between two awaits is one step.
 */
module SessionSyncRuns {
  import opened Prelude
  import opened SessionSync

  /** Where a started cycle is suspended. `versions` are the session versions its batch carries. */
  datatype Cycle =
    | AwaitAll
    | AwaitUpdated(since: int, previous: set<Id>)
    | AwaitLoad(mode: Mode, ids: seq<Id>)
    | AwaitAck(mode: Mode, ids: seq<Id>, versions: map<Id, int>)

  /**
   * `src` is the source: the current `updated_at` of every session. `done` records the newest version
   * of each session that was fully accepted, dropped as invalid, or dead-lettered.
   */
  datatype State = State(
    src: map<Id, int>,
    top: Option<int>,
    atTop: set<Id>,
    incremental: Queue,
    backfill: Queue,
    retry: Retry,
    pending: Option<Pending>,
    lastIncrementalAt: int,
    cycles: map<nat, Cycle>,
    active: Option<nat>,
    started: nat,
    done: map<Id, int>,
    log: seq<(Id, Outcome)>)

  const EMPTY := Queue([], {})
  const NO_RETRY := Retry(map[], map[], map[], {})

  function Init(src: map<Id, int>): State {
    State(src, None, {}, EMPTY, EMPTY, NO_RETRY, None, 0, map[], None, 0, map[], [])
  }

  datatype Step =
    | Update(id: Id, updatedAt: int)
    | Begin
    | RowsAll(cycle: nat, rows: seq<Row>, now: int)
    | RowsUpdated(cycle: nat, rows: seq<Row>, now: int)
    | LoadedStep(cycle: nat, loaded: seq<Loaded>)
    | AckStep(cycle: nat, ack: Ack, healthy: bool, now: int)
    | Fails(cycle: nat)
    | Reset

  // ---------------------------------------------------------------------------------------------
  // Steps
  // ---------------------------------------------------------------------------------------------

  /** Rows that list exactly the sessions with `updated_at >= since`, each once, in any order. */
  ghost predicate Lists(src: map<Id, int>, rows: seq<Row>, since: Option<int>) {
    && (forall i | 0 <= i < |rows| :: rows[i].id in src && rows[i].updatedAt == src[rows[i].id])
    && (forall i, j | 0 <= i < j < |rows| :: rows[i].id != rows[j].id)
    && (forall i | 0 <= i < |rows| :: since.Some? ==> rows[i].updatedAt >= since.value)
    && (forall id | id in src && (since.Some? ==> src[id] >= since.value) :: Listed(rows, id))
  }

  ghost predicate Listed(rows: seq<Row>, id: Id) {
    exists i :: 0 <= i < |rows| && rows[i].id == id
  }

  /** The loaded sessions are the candidates, in any order, each at its current version. */
  ghost predicate Loads(src: map<Id, int>, ids: seq<Id>, loaded: seq<Loaded>) {
    && loaded != []
    && (forall i | 0 <= i < |loaded| :: loaded[i].id in ids && loaded[i].id in src && loaded[i].version == src[loaded[i].id])
    && (forall i, j | 0 <= i < j < |loaded| :: loaded[i].id != loaded[j].id)
  }

  predicate At(s: State, k: nat) {
    k in s.cycles
  }

  /** Updates never go back: a new timestamp is at least every present one and above the session's own. */
  predicate LaterThanAll(src: map<Id, int>, id: Id, updatedAt: int) {
    (forall x | x in src :: src[x] <= updatedAt) && (id in src ==> src[id] < updatedAt)
  }

  ghost predicate Enabled(s: State, step: Step) {
    match step
    case Update(id, updatedAt) => LaterThanAll(s.src, id, updatedAt)
    case Begin => s.active.None?
    case RowsAll(k, rows, _) => At(s, k) && s.cycles[k].AwaitAll? && Lists(s.src, rows, None)
    case RowsUpdated(k, rows, _) => At(s, k) && s.cycles[k].AwaitUpdated? && Lists(s.src, rows, Some(s.cycles[k].since))
    case LoadedStep(k, loaded) => At(s, k) && s.cycles[k].AwaitLoad? && Loads(s.src, s.cycles[k].ids, loaded)
    case AckStep(k, _, _, _) => At(s, k) && s.cycles[k].AwaitAck?
    case Fails(k) => At(s, k) && !s.cycles[k].AwaitAck?
    case Reset => true
  }

  /** The end of a cycle: its `finally` block. */
  function End(s: State, k: nat): State {
    s.(cycles := s.cycles - {k}, active := if s.active == Some(k) then None else s.active)
  }

  /** Picks the candidates of a cycle after the listing. */
  function Choose(s: State, k: nat, now: int): State {
    var inc := if now - s.lastIncrementalAt >= MIN_INCREMENTAL_SYNC_INTERVAL_MS
               then Pick(s.incremental.ids, s.retry.retryAfter, INCREMENTAL_SESSION_BATCH_SIZE, now) else [];
    if inc != [] then s.(lastIncrementalAt := now, cycles := s.cycles[k := AwaitLoad(Incremental, inc)])
    else
      var bf := Pick(s.backfill.ids, s.retry.retryAfter, BACKFILL_SESSION_BATCH_SIZE, now);
      if bf != [] then s.(cycles := s.cycles[k := AwaitLoad(Backfill, bf)]) else End(s, k)
  }

  function BeginCycle(s: State): State {
    var k := s.started;
    var s1 := s.(active := Some(k), started := k + 1);
    if s.pending.Some? then
      var p := s.pending.value;
      s1.(pending := if p.left > 1 then Some(p.(left := p.left - 1)) else None,
          cycles := s.cycles[k := AwaitAck(p.mode, [p.sessionId], map[p.sessionId := p.version])])
    else if s.top.None? then s1.(cycles := s.cycles[k := AwaitAll])
    else s1.(cycles := s.cycles[k := AwaitUpdated(s.top.value, s.atTop)])
  }

  /** initializeBackfillQueueIfNeeded after its await, then up to the next await. */
  function AfterAll(s: State, k: nat, rows: seq<Row>, now: int): State {
    if rows == [] then
      if s.top.None? then Choose(s, k, now) else s.(cycles := s.cycles[k := AwaitUpdated(s.top.value, s.atTop)])
    else
      var top := rows[0].updatedAt;
      var atTop := LeadingIds(rows, top);
      s.(top := Some(top), atTop := atTop, backfill := PushAll(rows, s.backfill),
         cycles := s.cycles[k := AwaitUpdated(top, atTop)])
  }

  /** enqueueIncrementalUpdates after its await, then up to the next await. */
  function AfterUpdated(s: State, k: nat, rows: seq<Row>, now: int): State
    requires At(s, k) && s.cycles[k].AwaitUpdated?
  {
    if rows == [] then Choose(s, k, now)
    else
      var c := Scan(rows, s.cycles[k].since, s.cycles[k].previous, s.incremental);
      Choose(s.(top := Some(c.top), atTop := c.atTop, incremental := c.queue), k, now)
  }

  function AfterLoad(s: State, k: nat, loaded: seq<Loaded>): State
    requires At(s, k) && s.cycles[k].AwaitLoad?
  {
    var mode := s.cycles[k].mode;
    var batch := Assemble(loaded, mode, Batch([], 0, s.pending));
    s.(pending := batch.pending,
       cycles := s.cycles[k := AwaitAck(mode, batch.ids, Versions(loaded))])
  }

  function Versions(loaded: seq<Loaded>): map<Id, int> {
    if loaded == [] then map[]
    else Versions(loaded[..|loaded| - 1])[loaded[|loaded| - 1].id := loaded[|loaded| - 1].version]
  }

  function Dequeue(s: State, mode: Mode, ids: set<Id>): State {
    if mode.Incremental? then s.(incremental := Remove(s.incremental, ids))
    else s.(backfill := Remove(s.backfill, ids))
  }

  /** Records these sessions as finished at the versions the batch carried. */
  function FinishAt(done: map<Id, int>, ids: set<Id>, versions: map<Id, int>): map<Id, int> {
    map id | id in done.Keys + ids && (id in done || id in versions) ::
      if id in ids && id in versions then (if id in done then Max(done[id], versions[id]) else versions[id]) else done[id]
  }

  function ToSet(ids: seq<Id>): set<Id> {
    set id | id in ids
  }

  function WithOutcomes(s: State, ids: seq<Id>, kind: AckKind): State {
    var (retry, more) := OutcomeAll(s.retry, ids, kind);
    s.(retry := retry, log := s.log + more)
  }

  /** handleBatchAck */
  function HandleAck(s: State, mode: Mode, ids: seq<Id>, versions: map<Id, int>, ack: Ack, healthy: bool, now: int): State {
    if ack.AckAccepted? then
      var hasMoreChunks := s.pending.Some? && |ids| == 1 && s.pending.value.sessionId == ids[0];
      if hasMoreChunks then s
      else
        var complete := ToSet(ids) - (if s.pending.Some? then {s.pending.value.sessionId} else {});
        Dequeue(WithOutcomes(s, ids, Accepts).(done := FinishAt(s.done, complete, versions)), mode, ToSet(ids))
    else
      var s1 := if s.pending.Some? && s.pending.value.sessionId in ids then s.(pending := None) else s;
      match ack
      case ValidationFailed =>
        Dequeue(WithOutcomes(s1, ids, Neither).(done := FinishAt(s.done, ToSet(ids), versions)), mode, ToSet(ids))
      case AckTimeout => GiveUp(s1, mode, ids, versions, Timeouts)
      case RateLimited => GiveUp(s1, mode, ids, versions, Limits(healthy, now + RATE_LIMIT_BACKOFF_MS))
      case _ => WithOutcomes(s1, ids, Neither)
  }

  /** Counts the failure and takes the sessions that reached a cap out of the queue they were sent from. */
  function GiveUp(s: State, mode: Mode, ids: seq<Id>, versions: map<Id, int>, kind: AckKind): State {
    var dead := DeadIn(OutcomeAll(s.retry, ids, kind).1);
    Dequeue(WithOutcomes(s, ids, kind).(done := FinishAt(s.done, dead, versions)), mode, dead)
  }

  /** resetSourceState */
  function ResetAll(s: State): State {
    s.(top := None, atTop := {}, incremental := EMPTY, backfill := EMPTY, retry := NO_RETRY, pending := None,
       lastIncrementalAt := 0, active := None, log := [])
  }

  ghost function Apply(s: State, step: Step): State
    requires Enabled(s, step)
  {
    match step
    case Update(id, updatedAt) => s.(src := s.src[id := updatedAt])
    case Begin => BeginCycle(s)
    case RowsAll(k, rows, now) => AfterAll(s, k, rows, now)
    case RowsUpdated(k, rows, now) => AfterUpdated(s, k, rows, now)
    case LoadedStep(k, loaded) => AfterLoad(s, k, loaded)
    case AckStep(k, ack, healthy, now) =>
      var c := s.cycles[k];
      End(if s.active == Some(k) then HandleAck(s, c.mode, c.ids, c.versions, ack, healthy, now) else s, k)
    case Fails(k) => End(s, k)
    case Reset => ResetAll(s)
  }

  // ---------------------------------------------------------------------------------------------
  // The invariant
  // ---------------------------------------------------------------------------------------------

  /** The current version of `id` will show up in the next listing. */
  predicate Unseen(s: State, id: Id)
    requires id in s.src
  {
    s.top.None? || s.src[id] > s.top.value || (s.src[id] == s.top.value && id !in s.atTop)
  }

  predicate Queued(s: State, id: Id) {
    id in s.incremental.members || id in s.backfill.members
  }

  predicate Finished(s: State, id: Id)
    requires id in s.src
  {
    id in s.done && s.done[id] >= s.src[id]
  }

  /** No update is lost: every session's current version is still to be seen, queued, or finished. */
  ghost predicate NothingLost(s: State) {
    forall id | id in s.src :: Unseen(s, id) || Queued(s, id) || Finished(s, id)
  }

  /** The version is the current one, or a newer one is still to be seen. */
  predicate VersionOk(s: State, id: Id, version: int) {
    id in s.src && (s.src[id] == version || (s.src[id] > version && Unseen(s, id)))
  }

  ghost predicate CursorOk(s: State) {
    && (s.top.Some? ==> exists x :: x in s.src && s.src[x] >= s.top.value)
    && (forall id | id in s.atTop :: s.top.Some? && id in s.src && s.src[id] >= s.top.value)
  }

  ghost predicate CycleOk(s: State, c: Cycle) {
    match c
    case AwaitAll => s.top.None? && s.pending.None?
    case AwaitUpdated(since, previous) => s.top == Some(since) && s.atTop == previous && s.pending.None?
    case AwaitLoad(mode, ids) =>
      s.pending.None? && forall id | id in ids :: id in (if mode.Incremental? then s.incremental else s.backfill).members
    case AwaitAck(mode, ids, versions) =>
      && (forall id | id in ids :: id in versions && VersionOk(s, id, versions[id]))
      && (s.pending.Some? ==> ids == [s.pending.value.sessionId])
  }

  ghost predicate CyclesOk(s: State) {
    && (forall k | k in s.cycles :: k < s.started && (s.cycles[k].AwaitAck? || s.active == Some(k)))
    && (s.active.Some? ==> s.active.value in s.cycles && CycleOk(s, s.cycles[s.active.value]))
  }

  ghost predicate PendingOk(s: State) {
    s.pending.Some? ==> s.pending.value.left > 0 && VersionOk(s, s.pending.value.sessionId, s.pending.value.version)
  }

  ghost predicate Inv(s: State) {
    && QueueOk(s.incremental) && QueueOk(s.backfill)
    && CountersOk(s.retry, s.log)
    && CursorOk(s) && CyclesOk(s) && PendingOk(s)
    && NothingLost(s)
  }

  /**
   * The two things the working invariant cannot survive: a reset while a cycle waits for a listing or
   * for its sessions, and a split session whose first chunk shares its batch with other sessions.
   * Neither need lose an update; `SessionSyncLoss` says which later step does, and when.
   */
  predicate Clean(s: State, step: Step) {
    match step
    case Reset => s.active.Some? && At(s, s.active.value) ==> s.cycles[s.active.value].AwaitAck?
    case LoadedStep(k, loaded) =>
      At(s, k) && s.cycles[k].AwaitLoad? ==>
        var batch := Assemble(loaded, s.cycles[k].mode, Batch([], 0, s.pending));
        batch.pending.Some? ==> |batch.ids| == 1
    case _ => true
  }

  // ---------------------------------------------------------------------------------------------
  // Every clean step keeps the invariant
  // ---------------------------------------------------------------------------------------------

  /** What the invariant says of sessions depends on these fields only. */
  ghost predicate SameView(s: State, s': State) {
    s'.src == s.src && s'.top == s.top && s'.atTop == s.atTop
  }

  lemma SameViewKeeps(s: State, s': State)
    requires SameView(s, s')
    ensures CursorOk(s) ==> CursorOk(s')
    ensures forall id, v {:trigger VersionOk(s', id, v)} :: VersionOk(s, id, v) <==> VersionOk(s', id, v)
    ensures forall id | id in s.src :: Unseen(s', id) <==> Unseen(s, id)
  {
  }

  lemma UpdateKeepsInv(s: State, id: Id, updatedAt: int)
    requires Inv(s) && LaterThanAll(s.src, id, updatedAt)
    ensures Inv(s.(src := s.src[id := updatedAt]))
  {
    var s' := s.(src := s.src[id := updatedAt]);
    assert Unseen(s', id);
    assert forall x | x in s.src && x != id :: Unseen(s', x) <==> Unseen(s, x);
    forall x, v | VersionOk(s, x, v) ensures VersionOk(s', x, v) {
    }
    assert CursorOk(s') by {
      if s.top.Some? {
        var x :| x in s.src && s.src[x] >= s.top.value;
        assert x in s'.src && s'.src[x] >= s.top.value;
      }
    }
    assert forall x | x in s'.src && x != id :: Finished(s', x) <==> Finished(s, x);
    CycleAfterUpdate(s, s', id);
  }

  lemma CycleAfterUpdate(s: State, s': State, id: Id)
    requires s' == s.(src := s'.src) && CyclesOk(s)
    requires forall x, v {:trigger VersionOk(s', x, v)} :: VersionOk(s, x, v) ==> VersionOk(s', x, v)
    ensures CyclesOk(s')
  {
  }

  lemma BeginKeepsInv(s: State)
    requires Inv(s) && s.active.None?
    ensures Inv(BeginCycle(s))
  {
    hide CountersOk, QueueOk, NothingLost, CursorOk, Unseen, VersionOk;
    var s' := BeginCycle(s);
    SameViewKeeps(s, s');
    SameQueuesKeepNothingLost(s, s');
    BegunCycleOk(s);
    hide SameView, CycleOk;
  }

  /** The new cycle starts in order, and the others wait for their answers as before. */
  lemma BegunCycleOk(s: State)
    requires CyclesOk(s) && PendingOk(s) && s.active.None?
    ensures CyclesOk(BeginCycle(s)) && PendingOk(BeginCycle(s))
  {
    hide Unseen, CursorOk, VersionOk;
    var s' := BeginCycle(s);
    SameViewKeeps(s, s');
    assert CycleOk(s', s'.cycles[s.started]) && PendingOk(s');
    assert s'.cycles == s.cycles[s.started := s'.cycles[s.started]];
    hide CycleOk, PendingOk, BeginCycle, SameView;
    OthersWait(s, s');
  }

  lemma OthersWait(s: State, s': State)
    requires CyclesOk(s) && s.active.None? && s'.active == Some(s.started) && s'.started == s.started + 1
    requires s.started in s'.cycles && s'.cycles == s.cycles[s.started := s'.cycles[s.started]]
    requires CycleOk(s', s'.cycles[s.started])
    ensures CyclesOk(s')
  {
    hide CycleOk;
  }

  lemma SameQueuesKeepNothingLost(s: State, s': State)
    requires SameView(s, s') && NothingLost(s) && s'.done == s.done
    requires s.incremental.members <= s'.incremental.members && s.backfill.members <= s'.backfill.members
    ensures NothingLost(s')
  {
  }

  /** Choosing candidates keeps the invariant, from any state in which cycle `k` has finished its listing. */
  lemma ChooseKeepsInv(s: State, k: nat, now: int)
    requires QueueOk(s.incremental) && QueueOk(s.backfill) && CountersOk(s.retry, s.log) && CursorOk(s) && NothingLost(s)
    requires s.pending.None? && s.active == Some(k) && k in s.cycles
    requires forall n | n in s.cycles :: n < s.started && (s.cycles[n].AwaitAck? || n == k)
    ensures Inv(Choose(s, k, now))
  {
    hide CountersOk, ReadyIds, Pick, NothingLost, CursorOk, Unseen, VersionOk;
    var s' := Choose(s, k, now);
    SameViewKeeps(s, s');
    SameQueuesKeepNothingLost(s, s');
    PickedAreReady(s.incremental.ids, s.retry.retryAfter, INCREMENTAL_SESSION_BATCH_SIZE, now);
    PickedAreReady(s.backfill.ids, s.retry.retryAfter, BACKFILL_SESSION_BATCH_SIZE, now);
  }

  lemma RowsAllKeepsInv(s: State, k: nat, rows: seq<Row>, now: int)
    requires Inv(s) && At(s, k) && s.cycles[k].AwaitAll? && Lists(s.src, rows, None)
    ensures Inv(AfterAll(s, k, rows, now))
  {
    if rows == [] {
      ChooseKeepsInv(s, k, now);
    } else {
      var s' := AfterAll(s, k, rows, now);
      PushAllIs(rows, s.backfill);
      LeadingIdsAreAtTop(rows, rows[0].updatedAt);
      assert forall id | id in s.src :: id in s'.backfill.members by {
        forall id | id in s.src ensures id in s'.backfill.members { assert Listed(rows, id); }
      }
      assert CursorOk(s') by {
        assert rows[0].id in s.src;
      }
    }
  }

  lemma RowsUpdatedKeepsInv(s: State, k: nat, rows: seq<Row>, now: int)
    requires Inv(s) && At(s, k) && s.cycles[k].AwaitUpdated? && Lists(s.src, rows, Some(s.cycles[k].since))
    ensures Inv(AfterUpdated(s, k, rows, now))
  {
    if rows == [] {
      ChooseKeepsInv(s, k, now);
    } else {
      var since, previous := s.cycles[k].since, s.cycles[k].previous;
      var c := Scan(rows, since, previous, s.incremental);
      var s1 := s.(top := Some(c.top), atTop := c.atTop, incremental := c.queue);
      ScanIs(rows, since, previous, s.incremental);
      assert c.queue.members == s.incremental.members + Fresh(rows, since, previous);
      ScannedLosesNothing(s, s1, rows);
      ScannedCursorOk(s, s1, rows);
      hide Scan;
      ChooseKeepsInv(s1, k, now);
    }
  }

  lemma ScannedLosesNothing(s: State, s1: State, rows: seq<Row>)
    requires NothingLost(s) && s.top.Some? && Lists(s.src, rows, s.top)
    requires s1 == s.(top := s1.top, atTop := s1.atTop, incremental := s1.incremental)
    requires s1.incremental.members == s.incremental.members + Fresh(rows, s.top.value, s.atTop)
    ensures NothingLost(s1)
  {
    forall id | id in s1.src ensures Unseen(s1, id) || Queued(s1, id) || Finished(s1, id) {
      if Unseen(s, id) {
        assert Listed(rows, id);
        var i :| 0 <= i < |rows| && rows[i].id == id;
        assert id in Fresh(rows, s.top.value, s.atTop);
      }
    }
  }

  lemma ScannedCursorOk(s: State, s1: State, rows: seq<Row>)
    requires CursorOk(s) && s.top.Some? && Lists(s.src, rows, s.top)
    requires s1 == s.(top := s1.top, atTop := s1.atTop, incremental := s1.incremental) && s1.top.Some?
    requires s1.top.value == s.top.value || exists i :: 0 <= i < |rows| && rows[i].updatedAt == s1.top.value
    requires s1.atTop == AtTop(rows, s1.top.value) + (if s1.top == s.top then s.atTop else {})
    ensures CursorOk(s1)
  {
    if s1.top.value != s.top.value {
      var i :| 0 <= i < |rows| && rows[i].updatedAt == s1.top.value;
      assert s.src[rows[i].id] >= s1.top.value;
    }
  }

  lemma {:induction false} VersionsAre(loaded: seq<Loaded>)
    requires forall i, j | 0 <= i < j < |loaded| :: loaded[i].id != loaded[j].id
    ensures forall i | 0 <= i < |loaded| :: loaded[i].id in Versions(loaded) && Versions(loaded)[loaded[i].id] == loaded[i].version
  {
    if loaded != [] {
      VersionsAre(loaded[..|loaded| - 1]);
    }
  }

  lemma LoadKeepsInv(s: State, k: nat, loaded: seq<Loaded>)
    requires Inv(s) && At(s, k) && s.cycles[k].AwaitLoad? && Loads(s.src, s.cycles[k].ids, loaded)
    ensures Inv(AfterLoad(s, k, loaded)) <==> Clean(s, LoadedStep(k, loaded))
  {
    hide CountersOk, QueueOk, NothingLost, CursorOk, Assemble, Versions, Unseen;
    var s' := AfterLoad(s, k, loaded);
    var batch := Assemble(loaded, s.cycles[k].mode, Batch([], 0, s.pending));
    SameViewKeeps(s, s');
    SameQueuesKeepNothingLost(s, s');
    BatchIsOk(s, s.cycles[k].mode, s.cycles[k].ids, loaded);
    hide Loads, VersionOk;
  }

  /** The batch carries current versions; the rest of a split session is that of its first one. */
  lemma BatchIsOk(s: State, mode: Mode, ids: seq<Id>, loaded: seq<Loaded>)
    requires Loads(s.src, ids, loaded)
    ensures var batch := Assemble(loaded, mode, Batch([], 0, None));
      && (forall id | id in batch.ids :: id in Versions(loaded) && VersionOk(s, id, Versions(loaded)[id]))
      && (batch.pending.Some? ==>
            && batch.pending.value.left > 0
            && VersionOk(s, batch.pending.value.sessionId, batch.pending.value.version)
            && (|batch.ids| == 1 <==> batch.ids == [batch.pending.value.sessionId]))
  {
    var batch := Assemble(loaded, mode, Batch([], 0, None));
    AssembleIs(loaded, mode, Batch([], 0, None));
    VersionsAre(loaded);
    hide Assemble, Versions;
    forall id | id in batch.ids ensures id in Versions(loaded) && VersionOk(s, id, Versions(loaded)[id]) {
      var i :| 0 <= i < |loaded| && loaded[i].id == id;
    }
  }

  /** Taking sessions out of a queue is safe when they are finished at a version that is still theirs. */
  lemma DequeueKeepsNothingLost(s: State, s': State, mode: Mode, gone: set<Id>, versions: map<Id, int>)
    requires SameView(s, s') && NothingLost(s)
    requires forall id | id in gone :: id in versions && VersionOk(s, id, versions[id])
    requires s'.done == FinishAt(s.done, gone, versions)
    requires s'.incremental.members == (if mode.Incremental? then s.incremental.members - gone else s.incremental.members)
    requires s'.backfill.members == (if mode.Incremental? then s.backfill.members else s.backfill.members - gone)
    ensures NothingLost(s')
  {
    forall id | id in s'.src ensures Unseen(s', id) || Queued(s', id) || Finished(s', id) {
      if id in gone { assert VersionOk(s, id, versions[id]); }
    }
  }

  lemma {:induction false} DeadAreOurs(r: Retry, ids: seq<Id>, kind: AckKind)
    ensures DeadIn(OutcomeAll(r, ids, kind).1) <= ToSet(ids)
  {
    if ids != [] {
      var front, last := ids[..|ids| - 1], ids[|ids| - 1];
      DeadAreOurs(r, front, kind);
      var (r1, log1) := OutcomeAll(r, front, kind);
      var log2 := OutcomeOne(r1, last, kind).1;
      forall id | id in DeadIn(log1 + log2) ensures id in ids {
        var i :| 0 <= i < |log1 + log2| && (log1 + log2)[i].1.DeadLettered? && (log1 + log2)[i].0 == id;
        if i < |log1| { assert log1[i].0 in DeadIn(log1); assert id in ToSet(front); } else { assert log2[i - |log1|].0 == last; }
      }
    }
  }

  /** Handling an acknowledgement of the active cycle, whose batch versions are in order. */
  lemma HandleKeeps(s: State, mode: Mode, ids: seq<Id>, versions: map<Id, int>, ack: Ack, healthy: bool, now: int)
    requires QueueOk(s.incremental) && QueueOk(s.backfill) && CountersOk(s.retry, s.log) && CursorOk(s) && NothingLost(s)
    requires PendingOk(s) && CycleOk(s, AwaitAck(mode, ids, versions))
    ensures var s' := HandleAck(s, mode, ids, versions, ack, healthy, now);
      && SameView(s, s') && s'.cycles == s.cycles && s'.active == s.active && s'.started == s.started
      && QueueOk(s'.incremental) && QueueOk(s'.backfill) && CountersOk(s'.retry, s'.log)
      && NothingLost(s') && (s'.pending == s.pending || s'.pending.None?)
  {
    hide CountersOk, CursorOk, QueueOk, NothingLost, OutcomeAll, DeadIn, FinishAt, Remove, VersionOk, Unseen;
    var s' := HandleAck(s, mode, ids, versions, ack, healthy, now);
    match ack
    case AckAccepted => AcceptedKeeps(s, mode, ids, versions, healthy, now);
    case ValidationFailed => DroppedKeeps(s, mode, ids, versions, healthy, now);
    case FeatureDisabled =>
      OutcomesKeepCounters(s.retry, s.log, ids, Neither);
      SameQueuesKeepNothingLost(s, s');
    case AckTimeout => GiveUpKeeps(s, mode, ids, versions, Timeouts, s');
    case RateLimited => GiveUpKeeps(s, mode, ids, versions, Limits(healthy, now + RATE_LIMIT_BACKOFF_MS), s');
  }

  lemma AcceptedKeeps(s: State, mode: Mode, ids: seq<Id>, versions: map<Id, int>, healthy: bool, now: int)
    requires QueueOk(s.incremental) && QueueOk(s.backfill) && CountersOk(s.retry, s.log) && NothingLost(s)
    requires CycleOk(s, AwaitAck(mode, ids, versions))
    ensures var s' := HandleAck(s, mode, ids, versions, AckAccepted, healthy, now);
      QueueOk(s'.incremental) && QueueOk(s'.backfill) && CountersOk(s'.retry, s'.log) && NothingLost(s')
  {
    hide CountersOk, QueueOk, OutcomeAll, FinishAt, Without;
    RemoveKeepsOk(s.incremental, ToSet(ids));
    RemoveKeepsOk(s.backfill, ToSet(ids));
    OutcomesKeepCounters(s.retry, s.log, ids, Accepts);
    if !(s.pending.Some? && |ids| == 1 && s.pending.value.sessionId == ids[0]) {
      assert s.pending.None?;
      assert ToSet(ids) - {} == ToSet(ids);
      DequeueKeepsNothingLost(s, HandleAck(s, mode, ids, versions, AckAccepted, healthy, now), mode, ToSet(ids), versions);
    }
  }

  lemma DroppedKeeps(s: State, mode: Mode, ids: seq<Id>, versions: map<Id, int>, healthy: bool, now: int)
    requires QueueOk(s.incremental) && QueueOk(s.backfill) && CountersOk(s.retry, s.log) && NothingLost(s)
    requires CycleOk(s, AwaitAck(mode, ids, versions))
    ensures var s' := HandleAck(s, mode, ids, versions, ValidationFailed, healthy, now);
      QueueOk(s'.incremental) && QueueOk(s'.backfill) && CountersOk(s'.retry, s'.log) && NothingLost(s')
  {
    hide CountersOk, QueueOk, OutcomeAll, FinishAt, Without;
    RemoveKeepsOk(s.incremental, ToSet(ids));
    RemoveKeepsOk(s.backfill, ToSet(ids));
    OutcomesKeepCounters(s.retry, s.log, ids, Neither);
    DequeueKeepsNothingLost(s, HandleAck(s, mode, ids, versions, ValidationFailed, healthy, now), mode, ToSet(ids), versions);
  }

  lemma GiveUpKeeps(s: State, mode: Mode, ids: seq<Id>, versions: map<Id, int>, kind: AckKind, s': State)
    requires QueueOk(s.incremental) && QueueOk(s.backfill) && CountersOk(s.retry, s.log) && NothingLost(s)
    requires forall id | id in ids :: id in versions && VersionOk(s, id, versions[id])
    requires s' == GiveUp(s, mode, ids, versions, kind) || s' == GiveUp(s.(pending := None), mode, ids, versions, kind)
    ensures QueueOk(s'.incremental) && QueueOk(s'.backfill) && CountersOk(s'.retry, s'.log) && NothingLost(s')
  {
    hide CountersOk, OutcomeAll, DeadIn;
    var dead := DeadIn(OutcomeAll(s.retry, ids, kind).1);
    OutcomesKeepCounters(s.retry, s.log, ids, kind);
    DeadAreOurs(s.retry, ids, kind);
    RemoveKeepsOk(s.incremental, dead);
    RemoveKeepsOk(s.backfill, dead);
    DequeueKeepsNothingLost(s, s', mode, dead, versions);
  }

  lemma EndKeepsInv(s: State, k: nat)
    requires QueueOk(s.incremental) && QueueOk(s.backfill) && CountersOk(s.retry, s.log) && CursorOk(s) && NothingLost(s)
    requires PendingOk(s) && CyclesOk(s)
    ensures Inv(End(s, k))
  {
    var s' := End(s, k);
    hide CountersOk;
    SameViewKeeps(s, s');
    SameQueuesKeepNothingLost(s, s');
  }

  lemma AckKeepsInv(s: State, k: nat, ack: Ack, healthy: bool, now: int)
    requires Inv(s) && At(s, k) && s.cycles[k].AwaitAck?
    ensures Inv(Apply(s, AckStep(k, ack, healthy, now)))
  {
    if s.active == Some(k) {
      var c := s.cycles[k];
      var s1 := HandleAck(s, c.mode, c.ids, c.versions, ack, healthy, now);
      HandleKeeps(s, c.mode, c.ids, c.versions, ack, healthy, now);
      hide HandleAck;
      AnsweredKeepsInv(s, s1, k);
    } else {
      EndKeepsInv(s, k);
    }
  }

  /** The end of the active cycle whose answer has been handled. */
  lemma AnsweredKeepsInv(s: State, s1: State, k: nat)
    requires CyclesOk(s) && PendingOk(s) && CursorOk(s) && s.active == Some(k)
    requires SameView(s, s1) && s1.cycles == s.cycles && s1.active == s.active && s1.started == s.started
    requires QueueOk(s1.incremental) && QueueOk(s1.backfill) && CountersOk(s1.retry, s1.log)
    requires NothingLost(s1) && (s1.pending == s.pending || s1.pending.None?)
    ensures Inv(End(s1, k))
  {
    hide CountersOk, QueueOk, CursorOk, NothingLost, Unseen, CycleOk;
    SameViewKeeps(s, s1);
    SameViewKeeps(s, End(s1, k));
    SameQueuesKeepNothingLost(s1, End(s1, k));
  }

  lemma ResetKeepsInv(s: State)
    requires Inv(s)
    ensures Inv(ResetAll(s)) <==> Clean(s, Reset)
  {
    var s' := ResetAll(s);
    assert CountersOk(s'.retry, s'.log);
    hide CountersOk;
    if s.active.Some? && !s.cycles[s.active.value].AwaitAck? {
      assert !CyclesOk(s');
    }
  }

  /** A step keeps the working invariant exactly when it is clean. */
  lemma StepKeepsInvExactly(s: State, step: Step)
    requires Inv(s) && Enabled(s, step)
    ensures Inv(Apply(s, step)) <==> Clean(s, step)
  {
    match step
    case Update(id, updatedAt) => UpdateKeepsInv(s, id, updatedAt);
    case Begin => BeginKeepsInv(s);
    case RowsAll(k, rows, now) => RowsAllKeepsInv(s, k, rows, now);
    case RowsUpdated(k, rows, now) => RowsUpdatedKeepsInv(s, k, rows, now);
    case LoadedStep(k, loaded) => LoadKeepsInv(s, k, loaded);
    case AckStep(k, ack, healthy, now) => AckKeepsInv(s, k, ack, healthy, now);
    case Fails(k) => EndKeepsInv(s, k);
    case Reset => ResetKeepsInv(s);
  }

  ghost predicate IsRun(states: seq<State>, steps: seq<Step>) {
    && |states| == |steps| + 1
    && states[0] == Init(states[0].src)
    && forall i | 0 <= i < |steps| :: Enabled(states[i], steps[i]) && states[i + 1] == Apply(states[i], steps[i])
  }

  lemma InitInv(src: map<Id, int>)
    ensures Inv(Init(src))
  {
  }

  lemma {:induction false} RunKeepsInv(states: seq<State>, steps: seq<Step>, k: nat)
    requires IsRun(states, steps) && k < |states| && forall i | 0 <= i < |steps| :: Clean(states[i], steps[i])
    ensures Inv(states[k])
  {
    hide Inv, Apply, Clean;
    if k == 0 {
      InitInv(states[0].src);
    } else {
      RunKeepsInv(states, steps, k - 1);
      StepKeepsInvExactly(states[k - 1], steps[k - 1]);
    }
  }

  /**
   * In every state of a clean run, no session update is lost, each queue is free of duplicates and
   * equal to its id set, and every counter is what the log says, so that a session survives at most
   * six counted failures between clearings.
   */
  lemma NoUpdateLost(states: seq<State>, steps: seq<Step>, k: nat)
    requires IsRun(states, steps) && k < |states| && forall i | 0 <= i < |steps| :: Clean(states[i], steps[i])
    ensures forall id | id in states[k].src :: Unseen(states[k], id) || Queued(states[k], id) || Finished(states[k], id)
    ensures QueueOk(states[k].incremental) && QueueOk(states[k].backfill)
    ensures forall id :: Since(states[k].log, id, TimedOut) + Since(states[k].log, id, Throttled) <= 6
    ensures CountersOk(states[k].retry, states[k].log)
  {
    RunKeepsInv(states, steps, k);
    forall id ensures Since(states[k].log, id, TimedOut) + Since(states[k].log, id, Throttled) <= 6 {
      SurvivalBound(states[k].retry, states[k].log, id);
    }
  }
}
