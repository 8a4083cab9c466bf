/**
 * AgentSessionSyncService as the class it is: the code between two awaits of syncOnce is one method,
 * which updates the fields in place and is proved equal to the step of the same name in the model.
 */
module SessionSyncService {
  import opened Prelude
  import opened SessionSync
  import opened SessionSyncRuns

  lemma {:induction false} ReadyIdsOfPrefix(ids: seq<Id>, retryAfter: map<Id, int>, now: int, n: nat)
    requires n <= |ids|
    ensures ReadyIds(ids[..n], retryAfter, now) <= ReadyIds(ids, retryAfter, now)
  {
    if n == |ids| {
      assert ids[..n] == ids;
    } else {
      var front := ids[..|ids| - 1];
      ReadyIdsOfPrefix(front, retryAfter, now, n);
      assert front[..n] == ids[..n];
    }
  }

  lemma OutcomeAllSnoc(r: Retry, ids: seq<Id>, n: nat, kind: AckKind)
    requires n < |ids|
    ensures var (r1, log1) := OutcomeAll(r, ids[..n], kind);
      var (r2, log2) := OutcomeOne(r1, ids[n], kind);
      OutcomeAll(r, ids[..n + 1], kind) == (r2, log1 + log2)
  {
    assert ids[..n + 1][..n] == ids[..n];
  }

  lemma DeadInSnoc(log: seq<(Id, Outcome)>, more: seq<(Id, Outcome)>)
    ensures DeadIn(log + more) == DeadIn(log) + DeadIn(more)
  {
    forall id ensures id in DeadIn(log + more) <==> id in DeadIn(log) || id in DeadIn(more) {
      if id in DeadIn(log) {
        var i :| 0 <= i < |log| && log[i].1.DeadLettered? && log[i].0 == id;
        assert (log + more)[i].0 == id;
      }
      if id in DeadIn(more) {
        var i :| 0 <= i < |more| && more[i].1.DeadLettered? && more[i].0 == id;
        assert (log + more)[|log| + i] == more[i];
      }
    }
  }

  lemma NothingDead()
    ensures DeadIn([]) == {}
  {
  }

  /** A failed batch discards the outstanding chunks of its session. */
  ghost function WithoutPending(s: State, ids: seq<Id>): State {
    if s.pending.Some? && s.pending.value.sessionId in ids then s.(pending := None) else s
  }

  lemma AcceptedIgnoresClock(s: State, mode: Mode, ids: seq<Id>, versions: map<Id, int>, healthy: bool, now: int)
    ensures HandleAck(s, mode, ids, versions, AckAccepted, healthy, now) == HandleAck(s, mode, ids, versions, AckAccepted, true, 0)
  {
    hide OutcomeAll, FinishAt, Remove;
  }

  lemma RejectedIs(s: State, mode: Mode, ids: seq<Id>, versions: map<Id, int>, ack: Ack, healthy: bool, now: int)
    requires !ack.AckAccepted?
    ensures var s1 := WithoutPending(s, ids);
      HandleAck(s, mode, ids, versions, ack, healthy, now) ==
      match ack
      case ValidationFailed => Dequeue(WithOutcomes(s1, ids, Neither).(done := FinishAt(s.done, ToSet(ids), versions)), mode, ToSet(ids))
      case AckTimeout => GiveUp(s1, mode, ids, versions, Timeouts)
      case RateLimited => GiveUp(s1, mode, ids, versions, Limits(healthy, now + RATE_LIMIT_BACKOFF_MS))
      case _ => WithOutcomes(s1, ids, Neither)
  {
    hide OutcomeAll, FinishAt, Remove, GiveUp, Dequeue, ToSet;
  }

  class AgentSessionSyncService {
    var syncing: bool
    var activeSyncToken: Option<nat>
    var observedTopUpdatedAt: Option<int>
    var observedIdsAtTopUpdatedAt: set<Id>
    var lastIncrementalBatchAttemptedAtMs: int
    var incrementalQueue: seq<Id>
    var incrementalQueuedIds: set<Id>
    var backfillQueue: seq<Id>
    var backfillQueuedIds: set<Id>
    var timeoutCountById: map<Id, nat>
    var rateLimitedCountById: map<Id, nat>
    var nextRetryAfterMs: map<Id, int>
    var deadLetteredIds: set<Id>
    var pendingChunks: Option<Pending>

    /** The fields are those of this state of the model. */
    ghost predicate Shows(s: State)
      reads this
    {
      && syncing == s.active.Some? && activeSyncToken == s.active
      && observedTopUpdatedAt == s.top && observedIdsAtTopUpdatedAt == s.atTop
      && lastIncrementalBatchAttemptedAtMs == s.lastIncrementalAt
      && Incremental() == s.incremental && Backfill() == s.backfill
      && Counters() == s.retry
      && pendingChunks == s.pending
    }

    ghost function Incremental(): Queue
      reads `incrementalQueue, `incrementalQueuedIds
    {
      Queue(incrementalQueue, incrementalQueuedIds)
    }

    ghost function Backfill(): Queue
      reads `backfillQueue, `backfillQueuedIds
    {
      Queue(backfillQueue, backfillQueuedIds)
    }

    ghost function Counters(): Retry
      reads `timeoutCountById, `rateLimitedCountById, `nextRetryAfterMs, `deadLetteredIds
    {
      Retry(timeoutCountById, rateLimitedCountById, nextRetryAfterMs, deadLetteredIds)
    }

    constructor (ghost src: map<Id, int>)
      ensures Shows(Init(src))
    {
      syncing, activeSyncToken := false, None;
      observedTopUpdatedAt, observedIdsAtTopUpdatedAt := None, {};
      lastIncrementalBatchAttemptedAtMs := 0;
      incrementalQueue, incrementalQueuedIds := [], {};
      backfillQueue, backfillQueuedIds := [], {};
      timeoutCountById, rateLimitedCountById, nextRetryAfterMs, deadLetteredIds := map[], map[], map[], {};
      pendingChunks := None;
    }

    method ResetSourceState(ghost s: State)
      modifies this
      ensures Shows(ResetAll(s))
    {
      activeSyncToken := None;
      syncing := false;
      observedTopUpdatedAt := None;
      observedIdsAtTopUpdatedAt := {};
      lastIncrementalBatchAttemptedAtMs := 0;
      ClearQueues();
      pendingChunks := None;
    }

    /** The queues and counters of a source. */
    method ClearQueues()
      modifies `incrementalQueue, `incrementalQueuedIds, `backfillQueue, `backfillQueuedIds
      modifies `timeoutCountById, `rateLimitedCountById, `nextRetryAfterMs, `deadLetteredIds
      ensures Incremental() == EMPTY && Backfill() == EMPTY && Counters() == NO_RETRY
    {
      incrementalQueue := [];
      incrementalQueuedIds := {};
      backfillQueue := [];
      backfillQueuedIds := {};
      timeoutCountById := map[];
      rateLimitedCountById := map[];
      nextRetryAfterMs := map[];
      deadLetteredIds := {};
    }

    /** A cycle up to its first await. The result is what it sends if chunks are outstanding. */
    method BeginSync(token: nat, ghost s: State) returns (chunkOf: Option<(Mode, Id)>)
      requires Shows(s) && s.active.None? && token == s.started
      requires s.pending.Some? ==> s.pending.value.left > 0
      modifies this
      ensures Shows(BeginCycle(s))
      ensures chunkOf.Some? <==> s.pending.Some?
      ensures chunkOf.Some? ==> chunkOf.value == (s.pending.value.mode, s.pending.value.sessionId)
    {
      activeSyncToken, syncing := Some(token), true;
      chunkOf := None;
      if pendingChunks.Some? && pendingChunks.value.left > 0 {
        var chunks := pendingChunks.value;
        chunkOf := Some((chunks.mode, chunks.sessionId));
        pendingChunks := if chunks.left - 1 == 0 then None else Some(chunks.(left := chunks.left - 1));
      }
    }

    /** The `finally` block: only the cycle that still owns the token gives it back. */
    method EndSync(token: nat, ghost s: State)
      requires Shows(s)
      modifies this
      ensures Shows(End(s, token))
    {
      if activeSyncToken == Some(token) {
        activeSyncToken, syncing := None, false;
      }
    }

    // -------------------------------------------------------------------------------------------
    // Listing
    // -------------------------------------------------------------------------------------------

    /** collectIdsAtTimestamp: stops at the first row with another timestamp. */
    static method CollectIdsAtTimestamp(rows: seq<Row>, updatedAt: int) returns (ids: set<Id>)
      ensures ids == LeadingIds(rows, updatedAt)
    {
      ids := {};
      for i := 0 to |rows|
        invariant ids + LeadingIds(rows[i..], updatedAt) == LeadingIds(rows, updatedAt)
      {
        assert rows[i..][1..] == rows[i + 1..];
        if rows[i].updatedAt != updatedAt {
          break;
        }
        ids := ids + {rows[i].id};
      }
    }

    /** initializeBackfillQueueIfNeeded, after its await. */
    method InitializeBackfillQueue(rows: seq<Row>, ghost s: State, ghost k: nat, ghost now: int)
      requires Shows(s)
      modifies this
      ensures Shows(if rows == [] then s else AfterAll(s, k, rows, now))
    {
      if rows == [] {
        return;
      }
      hide LeadingIds;
      observedTopUpdatedAt := Some(rows[0].updatedAt);
      observedIdsAtTopUpdatedAt := CollectIdsAtTimestamp(rows, rows[0].updatedAt);
      QueueRows(rows, s);
    }

    /** The loop over the rows. */
    method QueueRows(rows: seq<Row>, ghost s: State)
      requires Backfill() == s.backfill
      modifies `backfillQueue, `backfillQueuedIds
      ensures Backfill() == PushAll(rows, s.backfill)
    {
      assert rows[..0] == [];
      for i := 0 to |rows|
        invariant Backfill() == PushAll(rows[..i], s.backfill)
      {
        assert rows[..i + 1][..i] == rows[..i];
        if rows[i].id in backfillQueuedIds {
          continue;
        }
        backfillQueuedIds := backfillQueuedIds + {rows[i].id};
        backfillQueue := backfillQueue + [rows[i].id];
      }
      assert rows[..|rows|] == rows;
    }

    /** enqueueIncrementalUpdates, after its await. `since` and `previous` were read before it. */
    method EnqueueIncrementalUpdates(rows: seq<Row>, since: int, previous: set<Id>, ghost s: State)
      requires Shows(s)
      modifies this
      ensures var c := Scan(rows, since, previous, s.incremental);
        Shows(if rows == [] then s else s.(top := Some(c.top), atTop := c.atTop, incremental := c.queue))
    {
      if rows == [] {
        return;
      }
      var nextTop, nextIds := ScanRows(rows, since, previous, s);
      observedTopUpdatedAt := Some(nextTop);
      observedIdsAtTopUpdatedAt := nextIds;
    }

    /** The loop over the rows. */
    method ScanRows(rows: seq<Row>, since: int, previous: set<Id>, ghost s: State) returns (nextTop: int, nextIds: set<Id>)
      requires Incremental() == s.incremental
      modifies `incrementalQueue, `incrementalQueuedIds
      ensures Cursor(nextTop, nextIds, Incremental()) == Scan(rows, since, previous, s.incremental)
    {
      nextTop, nextIds := since, previous;
      assert rows[..0] == [];
      hide Scan;
      ScanNothing(since, previous, s.incremental);
      for i := 0 to |rows|
        invariant Cursor(nextTop, nextIds, Incremental()) == Scan(rows[..i], since, previous, s.incremental)
      {
        ScanNext(rows, i, since, previous, s.incremental);
        var row := rows[i];
        if row.updatedAt > nextTop {
          nextTop, nextIds := row.updatedAt, {};
        }
        if row.updatedAt == nextTop {
          nextIds := nextIds + {row.id};
        }
        if row.updatedAt == since && row.id in previous {
          continue;
        }
        if row.id in incrementalQueuedIds {
          continue;
        }
        incrementalQueuedIds := incrementalQueuedIds + {row.id};
        incrementalQueue := incrementalQueue + [row.id];
      }
      assert rows[..|rows|] == rows;
    }

    static lemma ScanNothing(since: int, previous: set<Id>, queue: Queue)
      ensures Scan([], since, previous, queue) == Cursor(since, previous, queue)
    {
    }

    /** One turn of the loop over the rows. */
    static lemma ScanNext(rows: seq<Row>, i: nat, since: int, previous: set<Id>, queue: Queue)
      requires i < |rows|
      ensures var c, row := Scan(rows[..i], since, previous, queue), rows[i];
        Scan(rows[..i + 1], since, previous, queue)
        == Cursor(Max(c.top, row.updatedAt),
                  if row.updatedAt > c.top then {row.id} else if row.updatedAt == c.top then c.atTop + {row.id} else c.atTop,
                  if row.updatedAt == since && row.id in previous then c.queue else Push(c.queue, row.id))
    {
      assert rows[..i + 1][..i] == rows[..i];
    }

    /** From the answer of the full listing to the next await, or to the choice of a batch when nothing is listed yet. */
    method ResumeAfterListing(token: nat, rows: seq<Row>, now: int, ghost s: State) returns (choice: Option<(Mode, seq<Id>)>)
      requires Shows(s) && s.top.None?
      modifies this
      ensures Shows(AfterAll(s, token, rows, now))
      ensures choice.Some? ==> rows == [] && AfterAll(s, token, rows, now).cycles == s.cycles[token := AwaitLoad(choice.value.0, choice.value.1)]
    {
      InitializeBackfillQueue(rows, s, token, now);
      if observedTopUpdatedAt.Some? {
        return None;
      }
      choice := ChooseCandidates(token, now, s);
    }

    /** From the answer of the incremental listing to the choice of a batch. */
    method ResumeAfterUpdates(token: nat, rows: seq<Row>, since: int, previous: set<Id>, now: int, ghost s: State)
      returns (choice: Option<(Mode, seq<Id>)>)
      requires Shows(s) && At(s, token) && s.cycles[token] == AwaitUpdated(since, previous)
      modifies this
      ensures Shows(AfterUpdated(s, token, rows, now))
      ensures choice.Some? ==> AfterUpdated(s, token, rows, now).cycles == s.cycles[token := AwaitLoad(choice.value.0, choice.value.1)]
    {
      EnqueueIncrementalUpdates(rows, since, previous, s);
      ghost var c := Scan(rows, since, previous, s.incremental);
      choice := ChooseCandidates(token, now,
                                 if rows == [] then s else s.(top := Some(c.top), atTop := c.atTop, incremental := c.queue));
    }

    // -------------------------------------------------------------------------------------------
    // Choosing and assembling
    // -------------------------------------------------------------------------------------------

    method PickReadyCandidates(queue: seq<Id>, limit: nat, now: int) returns (picked: seq<Id>)
      requires limit > 0
      ensures picked == Pick(queue, nextRetryAfterMs, limit, now)
    {
      picked := [];
      assert queue[..0] == [];
      for i := 0 to |queue|
        invariant picked == ReadyIds(queue[..i], nextRetryAfterMs, now) && |picked| < limit
      {
        assert queue[..i + 1][..i] == queue[..i];
        ReadyIdsOfPrefix(queue, nextRetryAfterMs, now, i + 1);
        var id := queue[i];
        if id in nextRetryAfterMs && nextRetryAfterMs[id] > now {
          continue;
        }
        picked := picked + [id];
        if |picked| >= limit {
          return;
        }
      }
      assert queue[..|queue|] == queue;
    }

    /** The candidates: from the throttled incremental queue, else from the back-fill queue. */
    static ghost function Chosen(s: State, now: int): Option<(Mode, seq<Id>)> {
      var inc := Pick(s.incremental.ids, s.retry.retryAfter, INCREMENTAL_SESSION_BATCH_SIZE, now);
      var bf := Pick(s.backfill.ids, s.retry.retryAfter, BACKFILL_SESSION_BATCH_SIZE, now);
      if now - s.lastIncrementalAt >= MIN_INCREMENTAL_SYNC_INTERVAL_MS && inc != [] then Some((Mode.Incremental, inc))
      else if bf != [] then Some((Mode.Backfill, bf))
      else None
    }

    static lemma ChooseIs(s: State, token: nat, now: int)
      ensures var choice := Chosen(s, now);
        Choose(s, token, now) ==
        if choice.None? then End(s, token)
        else s.(lastIncrementalAt := if choice.value.0.Incremental? then now else s.lastIncrementalAt,
                cycles := s.cycles[token := AwaitLoad(choice.value.0, choice.value.1)])
    {
      hide Pick, End;
    }

    static lemma PickNothing(retryAfter: map<Id, int>, limit: nat, now: int)
      ensures Pick([], retryAfter, limit, now) == []
    {
    }

    /** The two attempts to pick candidates. */
    method PickCandidates(now: int, ghost s: State) returns (choice: Option<(Mode, seq<Id>)>)
      requires Shows(s)
      ensures choice == Chosen(s, now)
    {
      PickNothing(s.retry.retryAfter, INCREMENTAL_SESSION_BATCH_SIZE, now);
      PickNothing(s.retry.retryAfter, BACKFILL_SESSION_BATCH_SIZE, now);
      hide Pick;
      if |incrementalQueue| > 0 && now - lastIncrementalBatchAttemptedAtMs >= MIN_INCREMENTAL_SYNC_INTERVAL_MS {
        var candidates := PickReadyCandidates(incrementalQueue, INCREMENTAL_SESSION_BATCH_SIZE, now);
        if |candidates| > 0 {
          return Some((Mode.Incremental, candidates));
        }
      }
      if |backfillQueue| > 0 {
        var candidates := PickReadyCandidates(backfillQueue, BACKFILL_SESSION_BATCH_SIZE, now);
        if |candidates| > 0 {
          return Some((Mode.Backfill, candidates));
        }
      }
      choice := None;
    }

    method ChooseCandidates(token: nat, now: int, ghost s: State) returns (choice: Option<(Mode, seq<Id>)>)
      requires Shows(s)
      modifies this
      ensures Shows(Choose(s, token, now))
      ensures choice.Some? ==> Choose(s, token, now).cycles == s.cycles[token := AwaitLoad(choice.value.0, choice.value.1)]
      ensures choice.None? ==> Choose(s, token, now) == End(s, token)
    {
      choice := PickCandidates(now, s);
      ChooseIs(s, token, now);
      hide Choose, Chosen, End;
      if choice.None? {
        EndSync(token, s);
      } else if choice.value.0.Incremental? {
        lastIncrementalBatchAttemptedAtMs := now;
      }
    }

    /** The batch of a cycle: the loaded sessions that fit, in their order. */
    method AssembleBatch(token: nat, mode: Mode, loaded: seq<Loaded>, ghost s: State) returns (syncIds: seq<Id>, bytes: nat)
      requires Shows(s) && At(s, token) && s.cycles[token].AwaitLoad? && s.cycles[token].mode == mode
      modifies this
      ensures Shows(AfterLoad(s, token, loaded))
      ensures Batch(syncIds, bytes, pendingChunks) == Assemble(loaded, mode, Batch([], 0, s.pending))
      ensures exists n :: Fills(Batch(syncIds, bytes, pendingChunks), n, loaded, mode, s.pending)
    {
      syncIds, bytes := FillBatch(token, mode, loaded, s);
      hide Fills, Assemble;
      ghost var n := AssembleFills(loaded, mode, s.pending);
    }

    /** The loop that fills the batch from the loaded sessions. */
    method FillBatch(token: nat, mode: Mode, loaded: seq<Loaded>, ghost s: State) returns (syncIds: seq<Id>, bytes: nat)
      requires Shows(s) && At(s, token) && s.cycles[token].AwaitLoad? && s.cycles[token].mode == mode
      modifies this
      ensures Shows(AfterLoad(s, token, loaded))
      ensures Batch(syncIds, bytes, pendingChunks) == Assemble(loaded, mode, Batch([], 0, s.pending))
    {
      syncIds, bytes := [], 0;
      for i := 0 to |loaded|
        invariant Shows(s.(pending := pendingChunks))
        invariant Assemble(loaded[i..], mode, Batch(syncIds, bytes, pendingChunks)) == Assemble(loaded, mode, Batch([], 0, s.pending))
      {
        assert loaded[i..][1..] == loaded[i + 1..];
        var session := loaded[i];
        if session.bytes > SESSION_PAYLOAD_BYTE_CAP && |syncIds| == 0 {
          if session.moreChunks > 0 {
            pendingChunks := Some(Pending(session.id, mode, session.moreChunks, session.version));
          }
          assert syncIds + [session.id] == [session.id];
          syncIds := syncIds + [session.id];
          bytes := bytes + session.firstChunkBytes;
          continue;
        }
        if |syncIds| > 0 && bytes + session.bytes > SESSION_PAYLOAD_BYTE_CAP {
          break;
        }
        syncIds := syncIds + [session.id];
        bytes := bytes + session.bytes;
      }
    }

    // -------------------------------------------------------------------------------------------
    // Acknowledgements
    // -------------------------------------------------------------------------------------------

    method DequeueIds(mode: Mode, ids: seq<Id>, ghost s: State)
      requires Shows(s)
      modifies this
      ensures Shows(Dequeue(s, mode, ToSet(ids)))
    {
      var removed := ToSet(ids);
      if mode.Incremental? {
        incrementalQueue := Without(incrementalQueue, removed);
        incrementalQueuedIds := incrementalQueuedIds - removed;
        return;
      }
      backfillQueue := Without(backfillQueue, removed);
      backfillQueuedIds := backfillQueuedIds - removed;
    }

    method ClearCounters(ids: seq<Id>, ghost s: State)
      requires Shows(s)
      modifies this
      ensures Shows(WithOutcomes(s, ids, Accepts))
    {
      assert ids[..0] == [];
      for i := 0 to |ids|
        modifies `timeoutCountById, `rateLimitedCountById, `nextRetryAfterMs
        invariant Counters() == OutcomeAll(s.retry, ids[..i], Accepts).0
      {
        OutcomeAllSnoc(s.retry, ids, i, Accepts);
        timeoutCountById := timeoutCountById - {ids[i]};
        rateLimitedCountById := rateLimitedCountById - {ids[i]};
        nextRetryAfterMs := nextRetryAfterMs - {ids[i]};
      }
      assert ids[..|ids|] == ids;
    }

    /** One session of a batch that timed out; true when it is dead-lettered. */
    method CountTimeout(id: Id) returns (dead: bool)
      modifies this`timeoutCountById, this`rateLimitedCountById, this`nextRetryAfterMs, this`deadLetteredIds
      ensures Counters() == OutcomeOne(old(Counters()), id, Timeouts).0
      ensures DeadIn(OutcomeOne(old(Counters()), id, Timeouts).1) == if dead then {id} else {}
    {
      ghost var more := OutcomeOne(Counters(), id, Timeouts).1;
      var count := CountOf(timeoutCountById, id) + 1;
      dead := count >= MAX_CONSECUTIVE_TIMEOUTS;
      if dead {
        assert more[1] == (id, DeadLettered);
        timeoutCountById := timeoutCountById - {id};
        rateLimitedCountById := rateLimitedCountById - {id};
        nextRetryAfterMs := nextRetryAfterMs - {id};
        deadLetteredIds := deadLetteredIds + {id};
      } else {
        timeoutCountById := timeoutCountById[id := count];
      }
    }

    /** One session of a rate-limited batch; true when it is dead-lettered. */
    method CountRateLimit(id: Id, relayHealthy: bool, deadline: int) returns (dead: bool)
      modifies this`timeoutCountById, this`rateLimitedCountById, this`nextRetryAfterMs, this`deadLetteredIds
      ensures Counters() == OutcomeOne(old(Counters()), id, Limits(relayHealthy, deadline)).0
      ensures DeadIn(OutcomeOne(old(Counters()), id, Limits(relayHealthy, deadline)).1) == if dead then {id} else {}
    {
      ghost var more := OutcomeOne(Counters(), id, Limits(relayHealthy, deadline)).1;
      var previousCount := CountOf(rateLimitedCountById, id);
      var count := if relayHealthy then previousCount + 1 else previousCount;
      dead := relayHealthy && count >= MAX_CONSECUTIVE_RATE_LIMITED;
      if dead {
        assert more[1] == (id, DeadLettered);
        rateLimitedCountById := rateLimitedCountById - {id};
        nextRetryAfterMs := nextRetryAfterMs - {id};
        timeoutCountById := timeoutCountById - {id};
        deadLetteredIds := deadLetteredIds + {id};
      } else {
        if relayHealthy {
          rateLimitedCountById := rateLimitedCountById[id := count];
        }
        nextRetryAfterMs := nextRetryAfterMs[id := deadline];
      }
    }

    /** The loop over the ids of a failed batch. The result lists the sessions it gives up on. */
    method CountFailures(ids: seq<Id>, kind: AckKind, ghost s: State) returns (deadLettered: seq<Id>)
      requires Shows(s) && (kind.Timeouts? || kind.Limits?)
      modifies this
      ensures Shows(WithOutcomes(s, ids, kind))
      ensures ToSet(deadLettered) == DeadIn(OutcomeAll(s.retry, ids, kind).1)
    {
      hide OutcomeOne, DeadIn;
      deadLettered := [];
      assert ids[..0] == [];
      NothingDead();
      for i := 0 to |ids|
        modifies `timeoutCountById, `rateLimitedCountById, `nextRetryAfterMs, `deadLetteredIds
        invariant Counters() == OutcomeAll(s.retry, ids[..i], kind).0
        invariant ToSet(deadLettered) == DeadIn(OutcomeAll(s.retry, ids[..i], kind).1)
      {
        OutcomeAllSnoc(s.retry, ids, i, kind);
        DeadInSnoc(OutcomeAll(s.retry, ids[..i], kind).1, OutcomeOne(Counters(), ids[i], kind).1);
        var dead;
        if kind.Timeouts? {
          dead := CountTimeout(ids[i]);
        } else {
          dead := CountRateLimit(ids[i], kind.healthy, kind.deadline);
        }
        if dead {
          deadLettered := deadLettered + [ids[i]];
        }
      }
      assert ids[..|ids|] == ids;
    }

    method HandleAccepted(mode: Mode, ids: seq<Id>, ghost versions: map<Id, int>, ghost s: State)
      requires Shows(s)
      modifies this
      ensures Shows(HandleAck(s, mode, ids, versions, AckAccepted, true, 0))
    {
      hide OutcomeAll, FinishAt, Remove;
      var hasMoreChunks := pendingChunks.Some? && |ids| == 1 && pendingChunks.value.sessionId == ids[0];
      if !hasMoreChunks {
        ClearCounters(ids, s);
        ghost var complete := ToSet(ids) - (if s.pending.Some? then {s.pending.value.sessionId} else {});
        ghost var s1 := WithOutcomes(s, ids, Accepts).(done := FinishAt(s.done, complete, versions));
        hide WithOutcomes;
        DequeueIds(mode, ids, s1);
        hide Shows;
      }
    }

    method HandleFailure(mode: Mode, ids: seq<Id>, kind: AckKind, ghost versions: map<Id, int>, ghost s: State)
      requires Shows(s) && (kind.Timeouts? || kind.Limits?)
      modifies this
      ensures Shows(GiveUp(s, mode, ids, versions, kind))
    {
      hide OutcomeAll, DeadIn, FinishAt, Remove;
      var deadLettered := CountFailures(ids, kind, s);
      DropDeadLettered(mode, deadLettered, WithOutcomes(s, ids, kind));
    }

    /** handleBatchAck */
    method HandleBatchAck(mode: Mode, ids: seq<Id>, ack: Ack, relayHealthy: bool, now: int,
                          ghost versions: map<Id, int>, ghost s: State)
      requires Shows(s)
      modifies this
      ensures Shows(HandleAck(s, mode, ids, versions, ack, relayHealthy, now))
    {
      if ack.AckAccepted? {
        hide HandleAck, Shows;
        AcceptedIgnoresClock(s, mode, ids, versions, relayHealthy, now);
        HandleAccepted(mode, ids, versions, s);
        return;
      }
      ghost var s1 := WithoutPending(s, ids);
      if pendingChunks.Some? && pendingChunks.value.sessionId in ids {
        pendingChunks := None;
      }
      assert Shows(s1);
      RejectedIs(s, mode, ids, versions, ack, relayHealthy, now);
      hide HandleAck, WithoutPending, GiveUp, Shows;
      if ack.ValidationFailed? {
        ghost var s2 := WithOutcomes(s1, ids, Neither).(done := FinishAt(s.done, ToSet(ids), versions));
        ShowsAsWell(s1, s2, ids);
        DequeueIds(mode, ids, s2);
      } else if ack.AckTimeout? {
        HandleFailure(mode, ids, Timeouts, versions, s1);
      } else if ack.RateLimited? {
        HandleFailure(mode, ids, Limits(relayHealthy, now + RATE_LIMIT_BACKOFF_MS), versions, s1);
      } else {
        ShowsAsWell(s1, WithOutcomes(s1, ids, Neither), ids);
      }
    }

    lemma ShowsAsWell(s1: State, s2: State, ids: seq<Id>)
      requires Shows(s1) && s2 == WithOutcomes(s1, ids, Neither).(done := s2.done)
      ensures Shows(s2)
    {
      hide OutcomeAll;
      NeitherKeeps(s1.retry, ids);
    }

    method DropDeadLettered(mode: Mode, deadLettered: seq<Id>, ghost s: State)
      requires Shows(s)
      modifies this
      ensures Shows(Dequeue(s, mode, ToSet(deadLettered)))
    {
      WithoutNothing(incrementalQueue);
      WithoutNothing(backfillQueue);
      if |deadLettered| > 0 {
        DequeueIds(mode, deadLettered, s);
      } else {
        assert ToSet(deadLettered) == {};
      }
    }

    /** The end of a cycle that sent a batch: a cycle whose token was taken from it ignores the answer. */
    method ResumeAfterSend(token: nat, mode: Mode, ids: seq<Id>, ack: Ack, relayHealthy: bool, now: int,
                           ghost versions: map<Id, int>, ghost s: State)
      requires Shows(s) && At(s, token) && s.cycles[token] == AwaitAck(mode, ids, versions)
      modifies this
      ensures Shows(Apply(s, AckStep(token, ack, relayHealthy, now)))
    {
      if activeSyncToken != Some(token) {
        EndSync(token, s);
        return;
      }
      HandleBatchAck(mode, ids, ack, relayHealthy, now, versions, s);
      EndSync(token, HandleAck(s, mode, ids, versions, ack, relayHealthy, now));
    }
  }

  lemma {:induction false} NeitherKeeps(r: Retry, ids: seq<Id>)
    ensures OutcomeAll(r, ids, Neither).0 == r
  {
    if ids != [] {
      NeitherKeeps(r, ids[..|ids| - 1]);
    }
  }
}
