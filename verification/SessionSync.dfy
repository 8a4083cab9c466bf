/**
 * The agent session sync service: cursor, queues, retry counters and acknowledgements. These
 * functions specify the pieces; the class in `SessionSyncService` updates its fields in place.
 */
module SessionSync {
  import opened Prelude

  type Id = string

  const MIN_INCREMENTAL_SYNC_INTERVAL_MS := 30000
  const INCREMENTAL_SESSION_BATCH_SIZE := 10
  const BACKFILL_SESSION_BATCH_SIZE := 3
  const SESSION_PAYLOAD_BYTE_CAP := 262144
  const MAX_CONSECUTIVE_TIMEOUTS := 3
  const MAX_CONSECUTIVE_RATE_LIMITED := 5
  const RATE_LIMIT_BACKOFF_MS := 30000

  datatype Mode = Incremental | Backfill

  datatype Row = Row(id: Id, updatedAt: int)

  datatype Ack = AckAccepted | ValidationFailed | FeatureDisabled | AckTimeout | RateLimited

  /** The chunks of a split session that have not been sent yet; `version` is the one that was split. */
  datatype Pending = Pending(sessionId: Id, mode: Mode, left: nat, version: int)

  // ---------------------------------------------------------------------------------------------
  // Cursor and queues
  // ---------------------------------------------------------------------------------------------

  /** A queue with the set of the ids in it. */
  datatype Queue = Queue(ids: seq<Id>, members: set<Id>)

  ghost predicate Distinct(ids: seq<Id>) {
    forall i, j | 0 <= i < j < |ids| :: ids[i] != ids[j]
  }

  /** Free of duplicates, and equal as a set to its id set. */
  ghost predicate QueueOk(q: Queue) {
    q.members == (set id | id in q.ids) && Distinct(q.ids)
  }

  function Push(q: Queue, id: Id): Queue {
    if id in q.members then q else Queue(q.ids + [id], q.members + {id})
  }

  function Without(ids: seq<Id>, removed: set<Id>): seq<Id> {
    if ids == [] then []
    else
      var last := ids[|ids| - 1];
      Without(ids[..|ids| - 1], removed) + (if last in removed then [] else [last])
  }

  function Remove(q: Queue, removed: set<Id>): Queue {
    Queue(Without(q.ids, removed), q.members - removed)
  }

  lemma PushKeepsOk(q: Queue, id: Id)
    requires QueueOk(q)
    ensures QueueOk(Push(q, id)) && Push(q, id).members == q.members + {id}
  {
    assert forall x :: x in (q.ids + [id]) <==> x in q.ids || x == id;
  }

  lemma {:induction false} WithoutIs(ids: seq<Id>, removed: set<Id>)
    ensures forall x :: x in Without(ids, removed) <==> x in ids && x !in removed
    ensures Distinct(ids) ==> Distinct(Without(ids, removed))
  {
    if ids != [] {
      var front, last := ids[..|ids| - 1], ids[|ids| - 1];
      WithoutIs(front, removed);
      assert ids == front + [last];
      assert Distinct(ids) ==> Distinct(front) && last !in front;
    }
  }

  lemma {:induction false} WithoutNothing(ids: seq<Id>)
    ensures Without(ids, {}) == ids
  {
    if ids != [] {
      WithoutNothing(ids[..|ids| - 1]);
    }
  }

  lemma RemoveKeepsOk(q: Queue, removed: set<Id>)
    requires QueueOk(q)
    ensures QueueOk(Remove(q, removed))
  {
    WithoutIs(q.ids, removed);
  }

  /** The cursor of the incremental listing: watermark, the ids seen at it, and the queue being filled. */
  datatype Cursor = Cursor(top: int, atTop: set<Id>, queue: Queue)

  /** The loop over the listed rows, from the cursor (`since`, `previous`). */
  function Scan(rows: seq<Row>, since: int, previous: set<Id>, queue: Queue): Cursor {
    if rows == [] then Cursor(since, previous, queue)
    else
      var c, row := Scan(rows[..|rows| - 1], since, previous, queue), rows[|rows| - 1];
      var top := if row.updatedAt > c.top then row.updatedAt else c.top;
      var atTop := if row.updatedAt > c.top then {row.id} else if row.updatedAt == c.top then c.atTop + {row.id} else c.atTop;
      Cursor(top, atTop,
             if row.updatedAt == since && row.id in previous then c.queue else Push(c.queue, row.id))
  }

  /** Whatever the order of the rows: the new watermark is the largest timestamp, and exactly the ids at it are remembered. */
  lemma {:induction false} ScanIs(rows: seq<Row>, since: int, previous: set<Id>, queue: Queue)
    requires QueueOk(queue) && forall i | 0 <= i < |rows| :: rows[i].updatedAt >= since
    ensures var c := Scan(rows, since, previous, queue);
      && c.top >= since && (forall i | 0 <= i < |rows| :: rows[i].updatedAt <= c.top)
      && (c.top == since || exists i :: 0 <= i < |rows| && rows[i].updatedAt == c.top)
      && c.atTop == AtTop(rows, c.top) + (if c.top == since then previous else {})
      && QueueOk(c.queue)
      && c.queue.members == queue.members + Fresh(rows, since, previous)
  {
    hide QueueOk, Push, AtTop, Fresh;
    if rows == [] {
      NoneAtTop(rows, since);
      NoneFresh(since, previous);
    } else {
      var front, row := rows[..|rows| - 1], rows[|rows| - 1];
      ScanIs(front, since, previous, queue);
      var c := Scan(front, since, previous, queue);
      PushKeepsOk(c.queue, row.id);
      assert rows == front + [row];
      var top := Max(c.top, row.updatedAt);
      OneMoreAtTop(front, row, top);
      OneMoreFresh(front, row, since, previous);
      if row.updatedAt > c.top {
        NoneAtTop(front, top);
      }
      assert rows[|front|].updatedAt == row.updatedAt;
      assert forall i | 0 <= i < |front| :: rows[i] == front[i];
    }
  }

  ghost function AtTop(rows: seq<Row>, top: int): set<Id> {
    set i | 0 <= i < |rows| && rows[i].updatedAt == top :: rows[i].id
  }

  ghost function Fresh(rows: seq<Row>, since: int, previous: set<Id>): set<Id> {
    set i | 0 <= i < |rows| && !(rows[i].updatedAt == since && rows[i].id in previous) :: rows[i].id
  }

  lemma NoneAtTop(rows: seq<Row>, top: int)
    requires forall i | 0 <= i < |rows| :: rows[i].updatedAt < top
    ensures AtTop(rows, top) == {}
  {
  }

  lemma NoneFresh(since: int, previous: set<Id>)
    ensures Fresh([], since, previous) == {}
  {
  }

  lemma OneMoreAtTop(front: seq<Row>, row: Row, top: int)
    ensures AtTop(front + [row], top) == AtTop(front, top) + (if row.updatedAt == top then {row.id} else {})
  {
    var rows := front + [row];
    assert forall i | 0 <= i < |front| :: rows[i] == front[i];
    assert rows[|front|] == row;
  }

  lemma OneMoreFresh(front: seq<Row>, row: Row, since: int, previous: set<Id>)
    ensures Fresh(front + [row], since, previous)
         == Fresh(front, since, previous) + (if row.updatedAt == since && row.id in previous then {} else {row.id})
  {
    var rows := front + [row];
    assert forall i | 0 <= i < |front| :: rows[i] == front[i];
    assert rows[|front|] == row;
  }

  /** collectIdsAtTimestamp: the ids of the leading rows with this timestamp. */
  function LeadingIds(rows: seq<Row>, top: int): set<Id> {
    if rows == [] || rows[0].updatedAt != top then {} else {rows[0].id} + LeadingIds(rows[1..], top)
  }

  lemma {:induction false} LeadingIdsAreAtTop(rows: seq<Row>, top: int)
    ensures LeadingIds(rows, top) <= AtTop(rows, top)
  {
    if rows != [] && rows[0].updatedAt == top {
      LeadingIdsAreAtTop(rows[1..], top);
      forall id | id in LeadingIds(rows[1..], top) ensures id in AtTop(rows, top) {
        var i :| 0 <= i < |rows[1..]| && rows[1..][i].updatedAt == top && rows[1..][i].id == id;
        assert rows[i + 1].id == id;
      }
    }
  }

  function PushAll(rows: seq<Row>, queue: Queue): Queue {
    if rows == [] then queue else Push(PushAll(rows[..|rows| - 1], queue), rows[|rows| - 1].id)
  }

  lemma {:induction false} PushAllIs(rows: seq<Row>, queue: Queue)
    requires QueueOk(queue)
    ensures QueueOk(PushAll(rows, queue))
    ensures PushAll(rows, queue).members == queue.members + set i | 0 <= i < |rows| :: rows[i].id
  {
    hide QueueOk, Push;
    if rows != [] {
      var front, row := rows[..|rows| - 1], rows[|rows| - 1];
      PushAllIs(front, queue);
      PushKeepsOk(PushAll(front, queue), row.id);
      hide PushAll;
      assert rows == front + [row];
      OneMoreId(front, row);
    }
  }

  lemma OneMoreId(front: seq<Row>, row: Row)
    ensures (set i | 0 <= i < |front + [row]| :: (front + [row])[i].id) == (set i | 0 <= i < |front| :: front[i].id) + {row.id}
  {
    var rows := front + [row];
    assert forall i | 0 <= i < |front| :: rows[i] == front[i];
    assert rows[|front|] == row;
  }

  // ---------------------------------------------------------------------------------------------
  // Picking and assembling
  // ---------------------------------------------------------------------------------------------

  predicate Ready(retryAfter: map<Id, int>, id: Id, now: int) {
    id !in retryAfter || retryAfter[id] <= now
  }

  function ReadyIds(ids: seq<Id>, retryAfter: map<Id, int>, now: int): seq<Id> {
    if ids == [] then []
    else
      var last := ids[|ids| - 1];
      ReadyIds(ids[..|ids| - 1], retryAfter, now) + (if Ready(retryAfter, last, now) then [last] else [])
  }

  /** pickReadyCandidates: the first `limit` ids whose back-off is over, in queue order. */
  function Pick(ids: seq<Id>, retryAfter: map<Id, int>, limit: nat, now: int): seq<Id> {
    var ready := ReadyIds(ids, retryAfter, now);
    ready[..Min(limit, |ready|)]
  }

  lemma {:induction false} ReadyIdsAre(ids: seq<Id>, retryAfter: map<Id, int>, now: int)
    ensures forall id :: id in ReadyIds(ids, retryAfter, now) <==> id in ids && Ready(retryAfter, id, now)
    ensures Distinct(ids) ==> Distinct(ReadyIds(ids, retryAfter, now))
  {
    if ids != [] {
      var front, last := ids[..|ids| - 1], ids[|ids| - 1];
      ReadyIdsAre(front, retryAfter, now);
      assert ids == front + [last];
      assert Distinct(ids) ==> Distinct(front) && last !in front;
    }
  }

  /** No id is picked before its back-off deadline. */
  lemma PickedAreReady(ids: seq<Id>, retryAfter: map<Id, int>, limit: nat, now: int)
    ensures var picked := Pick(ids, retryAfter, limit, now);
      && |picked| <= limit
      && (forall id | id in picked :: id in ids && Ready(retryAfter, id, now))
      && (Distinct(ids) ==> Distinct(picked))
  {
    ReadyIdsAre(ids, retryAfter, now);
    var ready := ReadyIds(ids, retryAfter, now);
    assert forall id | id in ready[..Min(limit, |ready|)] :: id in ready;
  }

  predicate IsDue(retryAfter: map<Id, int>, id: Id, now: int) {
    id in retryAfter ==> retryAfter[id] <= now
  }

  /** `ready` are the ids whose back-off is over, at these positions. */
  ghost predicate ReadyAt(ids: seq<Id>, retryAfter: map<Id, int>, now: int, ready: seq<Id>, at: seq<nat>) {
    && |at| == |ready| && Rising(at, |ids|)
    && (forall j | 0 <= j < |at| :: ready[j] == ids[at[j]] && IsDue(retryAfter, ready[j], now))
    && (forall i | 0 <= i < |ids| && IsDue(retryAfter, ids[i], now) :: StandsAt(at, i))
  }

  lemma {:induction false} ReadyPositions(ids: seq<Id>, retryAfter: map<Id, int>, now: int) returns (at: seq<nat>)
    ensures ReadyAt(ids, retryAfter, now, ReadyIds(ids, retryAfter, now), at)
  {
    at := [];
    if ids != [] {
      hide *;
      var front, last := ids[..|ids| - 1], ids[|ids| - 1];
      assert ids == front + [last];
      at := ReadyPositions(front, retryAfter, now);
      ReadyLast(front, last, retryAfter, now);
      if IsDue(retryAfter, last, now) {
        OneMoreReady(front, last, retryAfter, now, ReadyIds(front, retryAfter, now), at);
        at := at + [|front|];
      } else {
        OneMoreWaiting(front, last, retryAfter, now, ReadyIds(front, retryAfter, now), at);
      }
    }
  }

  lemma ReadyLast(front: seq<Id>, last: Id, retryAfter: map<Id, int>, now: int)
    ensures ReadyIds(front + [last], retryAfter, now)
         == if IsDue(retryAfter, last, now) then ReadyIds(front, retryAfter, now) + [last] else ReadyIds(front, retryAfter, now)
  {
    assert (front + [last])[..|front|] == front;
  }

  lemma OneMoreReady(front: seq<Id>, last: Id, retryAfter: map<Id, int>, now: int, ready: seq<Id>, at: seq<nat>)
    requires ReadyAt(front, retryAfter, now, ready, at) && IsDue(retryAfter, last, now)
    ensures ReadyAt(front + [last], retryAfter, now, ready + [last], at + [|front|])
  {
    hide IsDue, StandsAt;
    var ids, ready', at' := front + [last], ready + [last], at + [|front|];
    OneMorePosition(at, |front|);
    assert ids[|front|] == last && forall i | 0 <= i < |front| :: ids[i] == front[i];
    assert at'[|at|] == |front| && ready'[|at|] == last && forall j | 0 <= j < |at| :: at'[j] == at[j] && ready'[j] == ready[j];
  }

  lemma OneMoreWaiting(front: seq<Id>, last: Id, retryAfter: map<Id, int>, now: int, ready: seq<Id>, at: seq<nat>)
    requires ReadyAt(front, retryAfter, now, ready, at) && !IsDue(retryAfter, last, now)
    ensures ReadyAt(front + [last], retryAfter, now, ready, at)
  {
    hide IsDue, StandsAt;
    var ids := front + [last];
    MorePositions(at, |front|);
    assert ids[|front|] == last && forall i | 0 <= i < |front| :: ids[i] == front[i];
  }

  /**
   * The picked ids stand in queue order, each with its back-off over; and when one that is ready was not
   * picked, the limit was reached by ids that all stand before it.
   */
  lemma PickIsFirst(ids: seq<Id>, retryAfter: map<Id, int>, limit: nat, now: int) returns (at: seq<nat>)
    ensures var picked := Pick(ids, retryAfter, limit, now);
      && |picked| == |at| <= limit && Rising(at, |ids|)
      && (forall j | 0 <= j < |at| :: picked[j] == ids[at[j]] && (picked[j] in retryAfter ==> retryAfter[picked[j]] <= now))
      && (forall i | 0 <= i < |ids| && (ids[i] in retryAfter ==> retryAfter[ids[i]] <= now) ::
            StandsAt(at, i) || (|picked| == limit && forall j | 0 <= j < |at| :: at[j] < i))
  {
    var all := ReadyPositions(ids, retryAfter, now);
    at := all[..Min(limit, |all|)];
    hide StandsAt;
    forall i | 0 <= i < |ids| && IsDue(retryAfter, ids[i], now)
      ensures StandsAt(at, i) || (|at| == limit && forall j | 0 <= j < |at| :: at[j] < i)
    {
      CutPositions(all, |at|, |ids|, i);
    }
    CutPositions(all, |at|, |ids|, 0);
  }

  lemma CutPositions(all: seq<nat>, n: nat, below: nat, i: int)
    requires Rising(all, below) && n <= |all|
    ensures Rising(all[..n], below)
    ensures StandsAt(all, i) ==> StandsAt(all[..n], i) || (n < |all| && forall j | 0 <= j < n :: all[j] < i)
  {
    if k :| 0 <= k < |all| && all[k] == i {
      if k < n {
        assert all[..n][k] == i;
      }
    }
  }

  /**
   * A loaded session: its payload size and, should it have to be split, its first chunk's size and how
   * many chunks follow. All sizes are allowed, those that the chunker cuts among them.
   */
  datatype Loaded = Loaded(id: Id, bytes: nat, version: int, firstChunkBytes: nat, moreChunks: nat)

  /** What a batch carries: the ids in it, its bytes, and the rest of a session split for it. */
  datatype Batch = Batch(ids: seq<Id>, bytes: nat, pending: Option<Pending>)

  /** The loop that fills a batch. Only its first session can be split. */
  function Assemble(loaded: seq<Loaded>, mode: Mode, batch: Batch): Batch {
    if loaded == [] then batch
    else
      if batch.ids != [] && batch.bytes + loaded[0].bytes > SESSION_PAYLOAD_BYTE_CAP then batch
      else Assemble(loaded[1..], mode, AddSession(loaded[0], mode, batch))
  }

  /** Adds a session to the batch, splitting it when it is oversized and the batch is empty. */
  function AddSession(session: Loaded, mode: Mode, batch: Batch): Batch {
    if session.bytes > SESSION_PAYLOAD_BYTE_CAP && batch.ids == [] then
      Batch([session.id], batch.bytes + session.firstChunkBytes,
            if session.moreChunks > 0 then Some(Pending(session.id, mode, session.moreChunks, session.version))
            else batch.pending)
    else Batch(batch.ids + [session.id], batch.bytes + session.bytes, batch.pending)
  }

  lemma {:induction false} AssembleIs(loaded: seq<Loaded>, mode: Mode, batch: Batch)
    requires forall i, j | 0 <= i < j < |loaded| :: loaded[i].id != loaded[j].id
    requires forall i | 0 <= i < |loaded| :: loaded[i].id !in batch.ids
    requires Distinct(batch.ids)
    ensures var r := Assemble(loaded, mode, batch);
      && batch.ids <= r.ids && Distinct(r.ids)
      && (forall id | id in r.ids :: id in batch.ids || exists i :: 0 <= i < |loaded| && loaded[i].id == id)
      && (loaded != [] ==> r.ids != [])
      && (r.pending == batch.pending
          || (batch.ids == [] && loaded != [] && r.ids[0] == loaded[0].id && r.pending.Some? && r.pending.value.sessionId == loaded[0].id
              && r.pending.value.left > 0 && r.pending.value.version == loaded[0].version && r.pending.value.mode == mode))
    decreases |loaded|
  {
    if loaded != [] {
      var session, rest := loaded[0], loaded[1..];
      assert forall i | 0 <= i < |rest| :: rest[i] == loaded[i + 1];
      var next := AddSession(session, mode, batch);
      assert forall id :: id in next.ids <==> id in batch.ids || id == session.id;
      AssembleIs(rest, mode, next);
    }
  }

  function TotalBytes(loaded: seq<Loaded>): nat {
    if loaded == [] then 0 else loaded[0].bytes + TotalBytes(loaded[1..])
  }

  /** What the first `n` loaded sessions take up: only the first chunk of an oversized first session. */
  function BytesOf(loaded: seq<Loaded>, n: nat): nat
    requires n <= |loaded|
  {
    if n > 0 && loaded[0].bytes > 262144 then loaded[0].firstChunkBytes + TotalBytes(loaded[1..n])
    else TotalBytes(loaded[..n])
  }

  /**
   * The batch holds the first `n` loaded sessions and their bytes. It goes over the cap of 256 KiB with
   * a single session only, and stops where the next session would exceed it. Chunks are outstanding
   * exactly for an oversized first session that was cut into several.
   */
  ghost predicate Fills(batch: Batch, n: nat, loaded: seq<Loaded>, mode: Mode, before: Option<Pending>) {
    && n <= |loaded| && |batch.ids| == n && (forall i | 0 <= i < n :: batch.ids[i] == loaded[i].id)
    && batch.bytes == BytesOf(loaded, n)
    && (batch.bytes > 262144 ==> n == 1)
    && (n == 0 <==> loaded == [])
    && (n < |loaded| ==> batch.bytes + loaded[n].bytes > 262144)
    && batch.pending == (if loaded != [] && loaded[0].bytes > 262144 && loaded[0].moreChunks > 0
                         then Some(Pending(loaded[0].id, mode, loaded[0].moreChunks, loaded[0].version)) else before)
  }

  lemma AssembleFills(loaded: seq<Loaded>, mode: Mode, before: Option<Pending>) returns (n: nat)
    ensures Fills(Assemble(loaded, mode, Batch([], 0, before)), n, loaded, mode, before)
  {
    var empty := Batch([], 0, before);
    if loaded == [] {
      n := 0;
    } else {
      var first := AddSession(loaded[0], mode, empty);
      assert loaded[..1] == [loaded[0]] && loaded[1..1] == [] && [loaded[0]][1..] == [];
      assert first.bytes == BytesOf(loaded, 1) && first.ids == [loaded[0].id];
      n := AssembleOn(loaded, 1, mode, first);
    }
  }

  /** The loop goes on after its first `k` sessions. */
  lemma {:induction false} AssembleOn(loaded: seq<Loaded>, k: nat, mode: Mode, batch: Batch) returns (n: nat)
    requires 0 < k <= |loaded| && |batch.ids| == k && batch.bytes == BytesOf(loaded, k) && (batch.bytes > 262144 ==> k == 1)
    requires forall i | 0 <= i < k :: batch.ids[i] == loaded[i].id
    ensures var r := Assemble(loaded[k..], mode, batch);
      && k <= n <= |loaded| && |r.ids| == n && (forall i | 0 <= i < n :: r.ids[i] == loaded[i].id)
      && r.bytes == BytesOf(loaded, n) && (r.bytes > 262144 ==> n == 1)
      && (n < |loaded| ==> r.bytes + loaded[n].bytes > 262144)
      && r.pending == batch.pending
    decreases |loaded| - k
  {
    n := k;
    if k < |loaded| && batch.bytes + loaded[k].bytes <= 262144 {
      OneMoreSession(loaded, k);
      assert loaded[k..][1..] == loaded[k + 1..];
      n := AssembleOn(loaded, k + 1, mode, Batch(batch.ids + [loaded[k].id], batch.bytes + loaded[k].bytes, batch.pending));
    }
  }

  lemma OneMoreSession(loaded: seq<Loaded>, k: nat)
    requires 0 < k < |loaded|
    ensures BytesOf(loaded, k + 1) == BytesOf(loaded, k) + loaded[k].bytes
  {
    TotalSnoc(loaded[..k], loaded[k]);
    TotalSnoc(loaded[1..k], loaded[k]);
    assert loaded[..k + 1] == loaded[..k] + [loaded[k]] && loaded[1..k + 1] == loaded[1..k] + [loaded[k]];
  }

  lemma {:induction false} TotalSnoc(loaded: seq<Loaded>, one: Loaded)
    ensures TotalBytes(loaded + [one]) == TotalBytes(loaded) + one.bytes
  {
    if loaded == [] {
      assert [] + [one] == [one] && [one][1..] == [];
    } else {
      assert (loaded + [one])[1..] == loaded[1..] + [one];
      TotalSnoc(loaded[1..], one);
    }
  }

  // ---------------------------------------------------------------------------------------------
  // Acknowledgements
  // ---------------------------------------------------------------------------------------------

  datatype Retry = Retry(timeouts: map<Id, nat>, limited: map<Id, nat>, retryAfter: map<Id, int>, dead: set<Id>)

  /** What an acknowledgement meant for one session. */
  datatype Outcome = FullyAccepted | TimedOut | Throttled | Deferred | DeadLettered | OtherFailure

  function CountOf(counts: map<Id, nat>, id: Id): nat {
    if id in counts then counts[id] else 0
  }

  function Cleared(r: Retry, id: Id): Retry {
    Retry(r.timeouts - {id}, r.limited - {id}, r.retryAfter - {id}, r.dead)
  }

  /** The handling of one id of a batch that got no acknowledgement in time. */
  function TimeoutOne(r: Retry, id: Id): (Retry, seq<(Id, Outcome)>) {
    var count := CountOf(r.timeouts, id) + 1;
    if count >= MAX_CONSECUTIVE_TIMEOUTS then (Cleared(r, id).(dead := r.dead + {id}), [(id, TimedOut), (id, DeadLettered)])
    else (r.(timeouts := r.timeouts[id := count]), [(id, TimedOut)])
  }

  /** The handling of one id of a rate-limited batch. */
  function LimitOne(r: Retry, id: Id, healthy: bool, deadline: int): (Retry, seq<(Id, Outcome)>) {
    var count := CountOf(r.limited, id) + (if healthy then 1 else 0);
    if healthy && count >= MAX_CONSECUTIVE_RATE_LIMITED then
      (Cleared(r, id).(dead := r.dead + {id}), [(id, Throttled), (id, DeadLettered)])
    else
      (r.(limited := if healthy then r.limited[id := count] else r.limited, retryAfter := r.retryAfter[id := deadline]),
       [(id, if healthy then Throttled else Deferred)])
  }

  datatype AckKind = Timeouts | Limits(healthy: bool, deadline: int) | Accepts | Neither

  function OutcomeOne(r: Retry, id: Id, kind: AckKind): (Retry, seq<(Id, Outcome)>) {
    match kind
    case Timeouts => TimeoutOne(r, id)
    case Limits(healthy, deadline) => LimitOne(r, id, healthy, deadline)
    case Accepts => (Cleared(r, id), [(id, FullyAccepted)])
    case Neither => (r, [(id, OtherFailure)])
  }

  /** The loop over the ids of the batch. */
  function OutcomeAll(r: Retry, ids: seq<Id>, kind: AckKind): (Retry, seq<(Id, Outcome)>) {
    if ids == [] then (r, [])
    else
      var (r1, log1) := OutcomeAll(r, ids[..|ids| - 1], kind);
      var (r2, log2) := OutcomeOne(r1, ids[|ids| - 1], kind);
      (r2, log1 + log2)
  }

  function DeadIn(log: seq<(Id, Outcome)>): set<Id> {
    set i | 0 <= i < |log| && log[i].1.DeadLettered? :: log[i].0
  }

  // ---------------------------------------------------------------------------------------------
  // Counters against the log of outcomes
  // ---------------------------------------------------------------------------------------------

  predicate Clears(o: Outcome) {
    o.FullyAccepted? || o.DeadLettered?
  }

  /** How often `what` happened to `id` since it was last fully accepted or dead-lettered. */
  function Since(log: seq<(Id, Outcome)>, id: Id, what: Outcome): nat {
    if log == [] then 0
    else
      var last := log[|log| - 1];
      if last.0 != id then Since(log[..|log| - 1], id, what)
      else if Clears(last.1) then 0
      else Since(log[..|log| - 1], id, what) + (if last.1 == what then 1 else 0)
  }

  lemma SinceSnoc(log: seq<(Id, Outcome)>, e: (Id, Outcome), id: Id, what: Outcome)
    ensures Since(log + [e], id, what)
         == if e.0 != id then Since(log, id, what)
            else if Clears(e.1) then 0
            else Since(log, id, what) + (if e.1 == what then 1 else 0)
  {
    assert (log + [e])[..|log|] == log;
  }

  ghost predicate CountsAre(counts: map<Id, nat>, log: seq<(Id, Outcome)>, what: Outcome) {
    forall id {:trigger CountOf(counts, id)} :: CountOf(counts, id) == Since(log, id, what)
  }

  ghost predicate Below(counts: map<Id, nat>, cap: nat) {
    forall id {:trigger CountOf(counts, id)} :: CountOf(counts, id) < cap
  }

  /** Each counter is the number of counted failures since the last full acceptance or dead-letter, below its cap. */
  ghost predicate CountersOk(r: Retry, log: seq<(Id, Outcome)>) {
    && CountsAre(r.timeouts, log, TimedOut) && Below(r.timeouts, MAX_CONSECUTIVE_TIMEOUTS)
    && CountsAre(r.limited, log, Throttled) && Below(r.limited, MAX_CONSECUTIVE_RATE_LIMITED)
  }

  /** What one more event does to a counter. */
  function Counted(counts: map<Id, nat>, e: (Id, Outcome), what: Outcome): map<Id, nat> {
    if Clears(e.1) then counts - {e.0}
    else if e.1 == what then counts[e.0 := CountOf(counts, e.0) + 1]
    else counts
  }

  lemma CountedIs(counts: map<Id, nat>, log: seq<(Id, Outcome)>, e: (Id, Outcome), what: Outcome)
    requires CountsAre(counts, log, what) && !Clears(what)
    ensures CountsAre(Counted(counts, e, what), log + [e], what)
  {
    forall id ensures CountOf(Counted(counts, e, what), id) == Since(log + [e], id, what) {
      SinceSnoc(log, e, id, what);
      assert CountOf(counts, id) == Since(log, id, what);
    }
  }

  lemma OutcomeCounts(r: Retry, id: Id, kind: AckKind)
    ensures var (r', more) := OutcomeOne(r, id, kind);
      && (more == [more[0]] || (|more| == 2 && more[1] == (id, DeadLettered)))
      && r'.timeouts == CountedAll(r.timeouts, more, TimedOut) && r'.limited == CountedAll(r.limited, more, Throttled)
      && (Below(r.timeouts, MAX_CONSECUTIVE_TIMEOUTS) ==> Below(r'.timeouts, MAX_CONSECUTIVE_TIMEOUTS))
      && (Below(r.limited, MAX_CONSECUTIVE_RATE_LIMITED) ==> Below(r'.limited, MAX_CONSECUTIVE_RATE_LIMITED))
  {
    match kind
    case Timeouts => TimeoutCounts(r, id);
    case Limits(healthy, deadline) => LimitCounts(r, id, healthy, deadline);
    case _ => {
      ClearedStaysBelow(r.timeouts, id, MAX_CONSECUTIVE_TIMEOUTS);
      ClearedStaysBelow(r.limited, id, MAX_CONSECUTIVE_RATE_LIMITED);
      hide Below;
    }
  }

  function CountedAll(counts: map<Id, nat>, more: seq<(Id, Outcome)>, what: Outcome): map<Id, nat> {
    if more == [] then counts
    else if |more| == 1 then Counted(counts, more[0], what)
    else Counted(Counted(counts, more[0], what), more[1], what)
  }

  lemma ClearedStaysBelow(counts: map<Id, nat>, id: Id, cap: nat)
    requires cap > 0
    ensures Below(counts, cap) ==> Below(counts - {id}, cap)
  {
    var cleared := counts - {id};
    if Below(counts, cap) {
      forall x ensures CountOf(cleared, x) < cap {
        assert CountOf(counts, x) < cap;
      }
    }
  }

  lemma RaisedStaysBelow(counts: map<Id, nat>, id: Id, count: nat, cap: nat)
    requires count < cap
    ensures Below(counts, cap) ==> Below(counts[id := count], cap)
  {
    var raised := counts[id := count];
    if Below(counts, cap) {
      forall x ensures CountOf(raised, x) < cap {
        assert CountOf(counts, x) < cap;
      }
    }
  }

  lemma TimeoutCounts(r: Retry, id: Id)
    ensures var (r', more) := TimeoutOne(r, id);
      && (more == [more[0]] || (|more| == 2 && more[1] == (id, DeadLettered)))
      && r'.timeouts == CountedAll(r.timeouts, more, TimedOut) && r'.limited == CountedAll(r.limited, more, Throttled)
      && (Below(r.timeouts, MAX_CONSECUTIVE_TIMEOUTS) ==> Below(r'.timeouts, MAX_CONSECUTIVE_TIMEOUTS))
      && (Below(r.limited, MAX_CONSECUTIVE_RATE_LIMITED) ==> Below(r'.limited, MAX_CONSECUTIVE_RATE_LIMITED))
  {
    hide Below;
    var count := CountOf(r.timeouts, id) + 1;
    ClearedStaysBelow(r.timeouts, id, MAX_CONSECUTIVE_TIMEOUTS);
    ClearedStaysBelow(r.limited, id, MAX_CONSECUTIVE_RATE_LIMITED);
    if count < MAX_CONSECUTIVE_TIMEOUTS {
      RaisedStaysBelow(r.timeouts, id, count, MAX_CONSECUTIVE_TIMEOUTS);
    } else {
      assert r.timeouts[id := count] - {id} == r.timeouts - {id};
    }
  }

  lemma LimitCounts(r: Retry, id: Id, healthy: bool, deadline: int)
    ensures var (r', more) := LimitOne(r, id, healthy, deadline);
      && (more == [more[0]] || (|more| == 2 && more[1] == (id, DeadLettered)))
      && r'.timeouts == CountedAll(r.timeouts, more, TimedOut) && r'.limited == CountedAll(r.limited, more, Throttled)
      && (Below(r.timeouts, MAX_CONSECUTIVE_TIMEOUTS) ==> Below(r'.timeouts, MAX_CONSECUTIVE_TIMEOUTS))
      && (Below(r.limited, MAX_CONSECUTIVE_RATE_LIMITED) ==> Below(r'.limited, MAX_CONSECUTIVE_RATE_LIMITED))
  {
    hide Below;
    var count := CountOf(r.limited, id) + (if healthy then 1 else 0);
    ClearedStaysBelow(r.timeouts, id, MAX_CONSECUTIVE_TIMEOUTS);
    ClearedStaysBelow(r.limited, id, MAX_CONSECUTIVE_RATE_LIMITED);
    if healthy && count < MAX_CONSECUTIVE_RATE_LIMITED {
      RaisedStaysBelow(r.limited, id, count, MAX_CONSECUTIVE_RATE_LIMITED);
    } else if healthy {
      assert r.limited[id := count] - {id} == r.limited - {id};
    }
  }

  lemma OutcomeKeepsCounters(r: Retry, log: seq<(Id, Outcome)>, id: Id, kind: AckKind)
    requires CountersOk(r, log)
    ensures var (r', more) := OutcomeOne(r, id, kind); CountersOk(r', log + more)
  {
    OutcomeCounts(r, id, kind);
    var (r', more) := OutcomeOne(r, id, kind);
    hide OutcomeOne, CountsAre, Below, Counted;
    CountedIs(r.timeouts, log, more[0], TimedOut);
    CountedIs(r.limited, log, more[0], Throttled);
    if |more| == 2 {
      assert log + more == log + [more[0]] + [more[1]];
      CountedIs(Counted(r.timeouts, more[0], TimedOut), log + [more[0]], more[1], TimedOut);
      CountedIs(Counted(r.limited, more[0], Throttled), log + [more[0]], more[1], Throttled);
    }
  }

  lemma {:induction false} OutcomesKeepCounters(r: Retry, log: seq<(Id, Outcome)>, ids: seq<Id>, kind: AckKind)
    requires CountersOk(r, log)
    ensures var (r', more) := OutcomeAll(r, ids, kind); CountersOk(r', log + more)
  {
    hide CountersOk, OutcomeOne;
    if ids == [] {
      assert log + [] == log;
    } else {
      var front, last := ids[..|ids| - 1], ids[|ids| - 1];
      OutcomesKeepCounters(r, log, front, kind);
      var (r1, log1) := OutcomeAll(r, front, kind);
      OutcomeKeepsCounters(r1, log + log1, last, kind);
      var (r2, log2) := OutcomeOne(r1, last, kind);
      assert log + (log1 + log2) == (log + log1) + log2;
    }
  }

  /** A session survives at most (3 - 1) + (5 - 1) counted failures between clearings. */
  lemma SurvivalBound(r: Retry, log: seq<(Id, Outcome)>, id: Id)
    requires CountersOk(r, log)
    ensures Since(log, id, TimedOut) + Since(log, id, Throttled)
         <= (MAX_CONSECUTIVE_TIMEOUTS - 1) + (MAX_CONSECUTIVE_RATE_LIMITED - 1)
  {
    assert CountOf(r.timeouts, id) == Since(log, id, TimedOut) && CountOf(r.limited, id) == Since(log, id, Throttled);
  }
}
