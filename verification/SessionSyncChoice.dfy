/**
 * How the sync service orders its queues, chooses the sessions of a batch and gives sessions up; the
 * limits and intervals are spelled out.
 */
module SessionSyncChoice {
  import opened Prelude
  import opened SessionSync
  import opened SessionSyncRuns
  import L = SessionSyncLoss

  // ---------------------------------------------------------------------------------------------
  // The order of the queues
  // ---------------------------------------------------------------------------------------------

  /** The queue goes on with ids of these rows, in the order of the rows. */
  ghost predicate AppendedAt(rows: seq<Row>, before: seq<Id>, after: seq<Id>, at: seq<nat>) {
    && before <= after && |after| == |before| + |at| && Rising(at, |rows|)
    && forall k | 0 <= k < |at| :: after[|before| + k] == rows[at[k]].id
  }

  lemma PushAppends(front: seq<Row>, row: Row, before: seq<Id>, queue: Queue, at: seq<nat>) returns (at': seq<nat>)
    requires AppendedAt(front, before, queue.ids, at)
    ensures AppendedAt(front + [row], before, Push(queue, row.id).ids, at')
  {
    var rows := front + [row];
    assert rows[|front|] == row && forall k | 0 <= k < |at| :: rows[at[k]] == front[at[k]];
    at' := if row.id in queue.members then at else at + [|front|];
    if row.id !in queue.members {
      assert at'[|at|] == |front| && forall k | 0 <= k < |at| :: at'[k] == at[k];
    }
  }

  lemma SkipAppends(front: seq<Row>, row: Row, before: seq<Id>, after: seq<Id>, at: seq<nat>)
    requires AppendedAt(front, before, after, at)
    ensures AppendedAt(front + [row], before, after, at)
  {
    var rows := front + [row];
    assert forall k | 0 <= k < |at| :: rows[at[k]] == front[at[k]];
  }

  /** The back-fill queue lists the sessions in the order of the listing, behind those that it held. */
  lemma {:induction false} BackfillInOrder(rows: seq<Row>, queue: Queue) returns (at: seq<nat>)
    ensures AppendedAt(rows, queue.ids, PushAll(rows, queue).ids, at)
  {
    hide AppendedAt, Push;
    at := [];
    if rows == [] {
      NothingAppended(rows, queue.ids);
    } else {
      var front, row := rows[..|rows| - 1], rows[|rows| - 1];
      at := BackfillInOrder(front, queue);
      assert rows == front + [row];
      at := PushAppends(front, row, queue.ids, PushAll(front, queue), at);
    }
  }

  lemma NothingAppended(rows: seq<Row>, ids: seq<Id>)
    ensures AppendedAt(rows, ids, ids, [])
  {
  }

  /** So does the incremental queue with the rows that are new. */
  lemma {:induction false} UpdatesInOrder(rows: seq<Row>, since: int, previous: set<Id>, queue: Queue) returns (at: seq<nat>)
    ensures AppendedAt(rows, queue.ids, Scan(rows, since, previous, queue).queue.ids, at)
  {
    hide AppendedAt, Push;
    at := [];
    if rows == [] {
      NothingAppended(rows, queue.ids);
    } else {
      var front, row := rows[..|rows| - 1], rows[|rows| - 1];
      at := UpdatesInOrder(front, since, previous, queue);
      var c := Scan(front, since, previous, queue);
      assert rows == front + [row];
      if row.updatedAt == since && row.id in previous {
        SkipAppends(front, row, queue.ids, c.queue.ids, at);
      } else {
        at := PushAppends(front, row, queue.ids, c.queue, at);
      }
    }
  }

  /** What is left of a queue stands in its order. */
  ghost predicate LeftAt(ids: seq<Id>, left: seq<Id>, at: seq<nat>) {
    |at| == |left| && Rising(at, |ids|) && forall k | 0 <= k < |at| :: left[k] == ids[at[k]]
  }

  lemma {:induction false} DequeueInOrder(ids: seq<Id>, removed: set<Id>) returns (at: seq<nat>)
    ensures LeftAt(ids, Without(ids, removed), at)
  {
    at := [];
    if ids != [] {
      var front, last := ids[..|ids| - 1], ids[|ids| - 1];
      hide *;
      assert ids == front + [last];
      at := DequeueInOrder(front, removed);
      WithoutLast(front, last, removed);
      if last in removed {
        SkipLeft(front, last, Without(front, removed), at);
      } else {
        OneMoreLeft(front, last, Without(front, removed), at);
        at := at + [|front|];
      }
    }
  }

  lemma WithoutLast(front: seq<Id>, last: Id, removed: set<Id>)
    ensures Without(front + [last], removed) == if last in removed then Without(front, removed) else Without(front, removed) + [last]
  {
    assert (front + [last])[..|front|] == front;
  }

  lemma SkipLeft(front: seq<Id>, last: Id, left: seq<Id>, at: seq<nat>)
    requires LeftAt(front, left, at)
    ensures LeftAt(front + [last], left, at)
  {
    assert forall k | 0 <= k < |at| :: (front + [last])[at[k]] == front[at[k]];
  }

  lemma OneMoreLeft(front: seq<Id>, last: Id, left: seq<Id>, at: seq<nat>)
    requires LeftAt(front, left, at)
    ensures LeftAt(front + [last], left + [last], at + [|front|])
  {
    var ids, left', at' := front + [last], left + [last], at + [|front|];
    assert ids[|front|] == last && forall i | 0 <= i < |front| :: ids[i] == front[i];
    assert at'[|at|] == |front| && left'[|at|] == last && forall k | 0 <= k < |at| :: at'[k] == at[k] && left'[k] == left[k];
  }

  // ---------------------------------------------------------------------------------------------
  // Giving sessions up
  // ---------------------------------------------------------------------------------------------

  /** The third time-out in a row, or the fifth rate limit of a healthy relay, counting this one. */
  predicate LastStraw(log: seq<(Id, Outcome)>, id: Id, kind: AckKind) {
    || (kind.Timeouts? && Since(log, id, TimedOut) == 2)
    || (kind.Limits? && kind.healthy && Since(log, id, Throttled) == 4)
  }

  lemma OneIsDead(r: Retry, log: seq<(Id, Outcome)>, id: Id, kind: AckKind, x: Id)
    requires CountersOk(r, log)
    ensures var (r', more) := OutcomeOne(r, id, kind);
      && (x in DeadIn(more) <==> x == id && LastStraw(log, id, kind))
      && (kind.Limits? && x == id && !LastStraw(log, id, kind) ==> x in r'.retryAfter && r'.retryAfter[x] == kind.deadline)
      && (x != id ==> (x in r'.retryAfter <==> x in r.retryAfter) && (x in r.retryAfter ==> r'.retryAfter[x] == r.retryAfter[x]))
  {
    assert CountOf(r.timeouts, id) == Since(log, id, TimedOut) && CountOf(r.limited, id) == Since(log, id, Throttled);
    hide CountersOk, Since;
    var (r', more) := OutcomeOne(r, id, kind);
    if x == id && LastStraw(log, id, kind) {
      assert more[1].1.DeadLettered? && more[1].0 == x;
    }
  }

  lemma {:induction false} SinceOthers(log: seq<(Id, Outcome)>, more: seq<(Id, Outcome)>, id: Id, what: Outcome)
    requires forall i | 0 <= i < |more| :: more[i].0 != id
    ensures Since(log + more, id, what) == Since(log, id, what)
  {
    if more == [] {
      assert log + more == log;
    } else {
      var front, last := more[..|more| - 1], more[|more| - 1];
      SinceOthers(log, front, id, what);
      assert log + more == log + front + [last];
      SinceSnoc(log + front, last, id, what);
    }
  }

  ghost predicate SpeaksOf(log: seq<(Id, Outcome)>, ids: seq<Id>) {
    forall i | 0 <= i < |log| :: log[i].0 in ids
  }

  /** The log of a batch speaks of the sessions in it. */
  lemma {:induction false} OutcomesAreOf(r: Retry, ids: seq<Id>, kind: AckKind)
    ensures SpeaksOf(OutcomeAll(r, ids, kind).1, ids)
  {
    hide SpeaksOf, OutcomeOne;
    if ids == [] {
      NothingSaid(ids);
    } else {
      var front, last := ids[..|ids| - 1], ids[|ids| - 1];
      OutcomesAreOf(r, front, kind);
      assert ids == front + [last];
      var (r1, log1) := OutcomeAll(r, front, kind);
      OneSpeaksOf(r1, last, kind);
      MoreSaid(log1, OutcomeOne(r1, last, kind).1, front, last);
    }
  }

  lemma NothingSaid(ids: seq<Id>)
    ensures SpeaksOf([], ids)
  {
  }

  lemma OneSpeaksOf(r: Retry, id: Id, kind: AckKind)
    ensures SpeaksOf(OutcomeOne(r, id, kind).1, [id])
  {
  }

  lemma MoreSaid(log: seq<(Id, Outcome)>, more: seq<(Id, Outcome)>, front: seq<Id>, last: Id)
    requires SpeaksOf(log, front) && SpeaksOf(more, [last])
    ensures SpeaksOf(log + more, front + [last])
  {
  }

  lemma DeadInAppend(a: seq<(Id, Outcome)>, b: seq<(Id, Outcome)>)
    ensures DeadIn(a + b) == DeadIn(a) + DeadIn(b)
  {
    var c := a + b;
    assert forall i | 0 <= i < |a| :: c[i] == a[i];
    assert forall i | 0 <= i < |b| :: c[|a| + i] == b[i];
  }

  /**
   * A failed batch gives up exactly the sessions for which it was the last straw; a rate-limited session
   * that is not given up waits for the deadline.
   */
  lemma {:induction false} GivenUpIff(r: Retry, log: seq<(Id, Outcome)>, ids: seq<Id>, kind: AckKind, x: Id)
    requires CountersOk(r, log) && Distinct(ids)
    ensures var (r', more) := OutcomeAll(r, ids, kind);
      && (x in DeadIn(more) <==> x in ids && LastStraw(log, x, kind))
      && (kind.Limits? && x in ids && x !in DeadIn(more) ==> x in r'.retryAfter && r'.retryAfter[x] == kind.deadline)
  {
    hide CountersOk, OutcomeOne, LastStraw, DeadIn, Since;
    if ids == [] {
      NoneDead();
    } else {
      var front, last := ids[..|ids| - 1], ids[|ids| - 1];
      assert ids == front + [last];
      GivenUpIff(r, log, front, kind, x);
      var (r1, log1) := OutcomeAll(r, front, kind);
      OutcomesKeepCounters(r, log, front, kind);
      OneIsDead(r1, log + log1, last, kind, x);
      OutcomesAreOf(r, front, kind);
      OthersSaid(log1, front, last);
      LastStrawOf(log, log1, last, kind);
      DeadInAppend(log1, OutcomeOne(r1, last, kind).1);
    }
  }

  lemma OthersSaid(log: seq<(Id, Outcome)>, front: seq<Id>, last: Id)
    requires SpeaksOf(log, front) && Distinct(front + [last])
    ensures forall i | 0 <= i < |log| :: log[i].0 != last
    ensures last !in front
  {
    assert (front + [last])[|front|] == last && forall i | 0 <= i < |front| :: (front + [last])[i] == front[i];
  }

  lemma NoneDead()
    ensures DeadIn([]) == {}
  {
  }

  lemma LastStrawOf(log: seq<(Id, Outcome)>, more: seq<(Id, Outcome)>, id: Id, kind: AckKind)
    requires forall i | 0 <= i < |more| :: more[i].0 != id
    ensures LastStraw(log + more, id, kind) <==> LastStraw(log, id, kind)
  {
    SinceOthers(log, more, id, TimedOut);
    SinceOthers(log, more, id, Throttled);
  }

  /** What is kept of a session's failures: time-outs, rate limits, and the time before which it has to wait. */
  function Kept(r: Retry, id: Id): (nat, nat, Option<int>) {
    (if id in r.timeouts then r.timeouts[id] else 0, if id in r.limited then r.limited[id] else 0,
     if id in r.retryAfter then Some(r.retryAfter[id]) else None)
  }

  /** What an answer makes of that: nothing is left after an acceptance, the third time-out or the fifth rate limit. */
  function Answered(kept: (nat, nat, Option<int>), kind: AckKind): (nat, nat, Option<int>) {
    match kind
    case Accepts => (0, 0, None)
    case Neither => kept
    case Timeouts => if kept.0 >= 2 then (0, 0, None) else (kept.0 + 1, kept.1, kept.2)
    case Limits(healthy, deadline) =>
      if !healthy then (kept.0, kept.1, Some(deadline))
      else if kept.1 >= 4 then (0, 0, None) else (kept.0, kept.1 + 1, Some(deadline))
  }

  lemma OneAnswered(r: Retry, id: Id, kind: AckKind, x: Id)
    ensures Kept(OutcomeOne(r, id, kind).0, x) == if x == id then Answered(Kept(r, x), kind) else Kept(r, x)
  {
  }

  /** Every session of the batch is answered once, and the others are left alone. */
  lemma {:induction false} AllAnswered(r: Retry, ids: seq<Id>, kind: AckKind, x: Id)
    requires Distinct(ids)
    ensures Kept(OutcomeAll(r, ids, kind).0, x) == if x in ids then Answered(Kept(r, x), kind) else Kept(r, x)
  {
    hide Kept, OutcomeOne, Answered;
    if ids != [] {
      var front, last := ids[..|ids| - 1], ids[|ids| - 1];
      assert ids == front + [last];
      assert last !in front;
      AllAnswered(r, front, kind, x);
      OneAnswered(OutcomeAll(r, front, kind).0, last, kind, x);
    }
  }

  /** The answer takes this session out of the queue that the batch came from. */
  ghost predicate TakesOut(s: State, ids: seq<Id>, ack: Ack, healthy: bool, id: Id) {
    id in ids && match ack
      case AckAccepted => s.pending.None? || ids != [s.pending.value.sessionId]
      case ValidationFailed => true
      case AckTimeout => Since(s.log, id, TimedOut) == 2
      case RateLimited => healthy && Since(s.log, id, Throttled) == 4
      case FeatureDisabled => false
  }

  /**
   * An accepted batch leaves its queue unless it is a chunk and more of them are outstanding; an invalid one
   * leaves it too; of a failed one those that are given up; a refused one stays. A failure drops the
   * outstanding chunks of a session in the batch. The other queue is left alone.
   */
  lemma AnswerTakesOut(s: State, mode: Mode, ids: seq<Id>, versions: map<Id, int>, ack: Ack, healthy: bool, now: int, id: Id)
    requires CountersOk(s.retry, s.log) && Distinct(ids)
    ensures var s' := HandleAck(s, mode, ids, versions, ack, healthy, now);
      && (if mode == Incremental
          then s'.backfill == s.backfill && (id in s'.incremental.members <==> id in s.incremental.members && !TakesOut(s, ids, ack, healthy, id))
          else s'.incremental == s.incremental && (id in s'.backfill.members <==> id in s.backfill.members && !TakesOut(s, ids, ack, healthy, id)))
      && s'.pending == (if ack != AckAccepted && s.pending.Some? && s.pending.value.sessionId in ids then None else s.pending)
  {
    GivenUpIff(s.retry, s.log, ids, L.KindOf(ack, healthy, now), id);
    L.HandleAckIs(s, mode, ids, versions, ack, healthy, now);
    RestIs(s, mode, ids, versions, ack, healthy, now);
    hide CountersOk, DeadIn, Since, OutcomeAll, HandleAck, Without, L.Settled, SameView;
    TakenOutIs(s, ids, ack, healthy, now, id);
    hide TakesOut, L.Dequeued;
  }

  lemma TakenOutIs(s: State, ids: seq<Id>, ack: Ack, healthy: bool, now: int, id: Id)
    requires var kind := L.KindOf(ack, healthy, now); id in DeadIn(OutcomeAll(s.retry, ids, kind).1) <==> id in ids && LastStraw(s.log, id, kind)
    ensures id in L.Dequeued(s, ids, ack, healthy, now) <==> TakesOut(s, ids, ack, healthy, id)
  {
    hide DeadIn, OutcomeAll, Since;
    assert s.pending.Some? ==> (ids == [s.pending.value.sessionId] <==> |ids| == 1 && ids[0] == s.pending.value.sessionId);
  }

  lemma RestIs(s: State, mode: Mode, ids: seq<Id>, versions: map<Id, int>, ack: Ack, healthy: bool, now: int)
    ensures var s' := HandleAck(s, mode, ids, versions, ack, healthy, now);
      && s'.pending == (if ack != AckAccepted && s.pending.Some? && s.pending.value.sessionId in ids then None else s.pending)
      && s'.retry == (if ack == AckAccepted && s.pending.Some? && ids == [s.pending.value.sessionId] then s.retry
                      else OutcomeAll(s.retry, ids, L.KindOf(ack, healthy, now)).0)
  {
    hide OutcomeAll, DeadIn, FinishAt, Remove, ToSet;
    assert s.pending.Some? ==> (ids == [s.pending.value.sessionId] <==> |ids| == 1 && ids[0] == s.pending.value.sessionId);
  }

  /** And counts the failure of its sessions, or clears what was kept of them. */
  lemma AnswerCounts(s: State, mode: Mode, ids: seq<Id>, versions: map<Id, int>, ack: Ack, healthy: bool, now: int, id: Id)
    requires Distinct(ids)
    ensures var kept, kept' := Kept(s.retry, id), Kept(HandleAck(s, mode, ids, versions, ack, healthy, now).retry, id);
      if id !in ids || ack == ValidationFailed || ack == FeatureDisabled then kept' == kept
      else if ack == AckAccepted then
        kept' == if s.pending.Some? && ids == [s.pending.value.sessionId] then kept else (0, 0, None)
      else if ack == AckTimeout then kept' == if kept.0 >= 2 then (0, 0, None) else (kept.0 + 1, kept.1, kept.2)
      else if !healthy then kept' == (kept.0, kept.1, Some(now + 30000))
      else kept' == if kept.1 >= 4 then (0, 0, None) else (kept.0, kept.1 + 1, Some(now + 30000))
  {
    AllAnswered(s.retry, ids, L.KindOf(ack, healthy, now), id);
    RestIs(s, mode, ids, versions, ack, healthy, now);
    hide Kept, OutcomeAll, HandleAck, Remove;
  }

  /** After a reset the service is as new, but for the cycles that are still under way. */
  lemma ResetIsNew(s: State)
    ensures Apply(s, Reset) == Init(s.src).(cycles := s.cycles, started := s.started, done := s.done)
  {
  }

  ghost predicate Descending(rows: seq<Row>) {
    forall i, j | 0 <= i < j < |rows| :: rows[i].updatedAt >= rows[j].updatedAt
  }

  /** Rows that come newest first set the first cursor to the newest of them, and to all the sessions at it. */
  lemma FirstCursorIs(s: State, k: nat, rows: seq<Row>, now: int)
    requires rows != [] && Descending(rows)
    ensures var s' := AfterAll(s, k, rows, now);
      && s'.top == Some(rows[0].updatedAt) && (forall i | 0 <= i < |rows| :: rows[i].updatedAt <= rows[0].updatedAt)
      && s'.atTop == (set i | 0 <= i < |rows| && rows[i].updatedAt == rows[0].updatedAt :: rows[i].id)
  {
    LeadingIdsAreAtTop(rows, rows[0].updatedAt);
    AllAreLeading(rows, rows[0].updatedAt);
    hide LeadingIds, PushAll;
  }

  lemma {:induction false} AllAreLeading(rows: seq<Row>, top: int)
    requires Descending(rows) && forall i | 0 <= i < |rows| :: rows[i].updatedAt <= top
    ensures forall i | 0 <= i < |rows| && rows[i].updatedAt == top :: rows[i].id in LeadingIds(rows, top)
  {
    if rows != [] && rows[0].updatedAt == top {
      var rest := rows[1..];
      assert forall i | 0 <= i < |rest| :: rest[i] == rows[i + 1];
      AllAreLeading(rest, top);
      assert forall i | 0 < i < |rows| :: rows[i] == rest[i - 1];
    }
  }

  /** A session that was rate-limited and not given up is in no batch chosen within the next 30 seconds. */
  lemma LimitedWaits(s: State, mode: Mode, ids: seq<Id>, versions: map<Id, int>, healthy: bool, now: int, id: Id, queue: seq<Id>, limit: nat, t: int)
    requires CountersOk(s.retry, s.log) && Distinct(ids) && id in ids && t < now + 30000
    requires !(healthy && Since(s.log, id, Throttled) == 4)
    ensures id !in Pick(queue, HandleAck(s, mode, ids, versions, RateLimited, healthy, now).retry.retryAfter, limit, t)
  {
    GivenUpIff(s.retry, s.log, ids, Limits(healthy, now + RATE_LIMIT_BACKOFF_MS), id);
    hide Pick, OutcomeAll, CountersOk, DeadIn, FinishAt;
    PickedAreReady(queue, HandleAck(s, mode, ids, versions, RateLimited, healthy, now).retry.retryAfter, limit, t);
  }

  // ---------------------------------------------------------------------------------------------
  // Choosing a batch
  // ---------------------------------------------------------------------------------------------

  ghost predicate SomeReady(ids: seq<Id>, retryAfter: map<Id, int>, now: int) {
    exists id :: id in ids && (id in retryAfter ==> retryAfter[id] <= now)
  }

  /**
   * A cycle goes on with at most ten sessions from the incremental queue, if the last such batch was chosen
   * at least 30 seconds ago and some of them are ready; otherwise with at most three from the back-fill
   * queue; and it ends when none is ready.
   */
  lemma ChosenIs(s: State, k: nat, now: int)
    ensures var s' := Choose(s, k, now);
      var due := now - s.lastIncrementalAt >= 30000 && SomeReady(s.incremental.ids, s.retry.retryAfter, now);
      var more := SomeReady(s.backfill.ids, s.retry.retryAfter, now);
      if due then
        && s'.lastIncrementalAt == now && k in s'.cycles && s'.cycles[k].AwaitLoad? && s'.cycles[k].mode == Incremental
        && 0 < |s'.cycles[k].ids| <= 10 && s'.cycles[k].ids == Pick(s.incremental.ids, s.retry.retryAfter, 10, now)
      else if more then
        && s'.lastIncrementalAt == s.lastIncrementalAt && k in s'.cycles && s'.cycles[k].AwaitLoad? && s'.cycles[k].mode == Backfill
        && 0 < |s'.cycles[k].ids| <= 3 && s'.cycles[k].ids == Pick(s.backfill.ids, s.retry.retryAfter, 3, now)
      else s' == s.(cycles := s.cycles - {k}, active := if s.active == Some(k) then None else s.active)
  {
    PickIsEmpty(s.incremental.ids, s.retry.retryAfter, 10, now);
    PickIsEmpty(s.backfill.ids, s.retry.retryAfter, 3, now);
    PickedAreReady(s.incremental.ids, s.retry.retryAfter, 10, now);
    PickedAreReady(s.backfill.ids, s.retry.retryAfter, 3, now);
    hide Pick, SomeReady;
  }

  lemma PickIsEmpty(ids: seq<Id>, retryAfter: map<Id, int>, limit: nat, now: int)
    requires limit > 0
    ensures Pick(ids, retryAfter, limit, now) != [] <==> SomeReady(ids, retryAfter, now)
  {
    ReadyIdsAre(ids, retryAfter, now);
    var ready := ReadyIds(ids, retryAfter, now);
    if ready != [] {
      assert ready[0] in ready;
    }
  }

  /** In this step a cycle chooses an incremental batch. */
  ghost predicate ChoosesIncremental(s: State, step: Step)
    requires Enabled(s, step)
  {
    (step.RowsAll? || step.RowsUpdated?) && step.cycle in Apply(s, step).cycles
    && Apply(s, step).cycles[step.cycle].AwaitLoad? && Apply(s, step).cycles[step.cycle].mode == Incremental
  }

  lemma StepThrottles(s: State, step: Step)
    requires Enabled(s, step) && !step.Reset?
    ensures var s' := Apply(s, step);
      if ChoosesIncremental(s, step) then step.now - s.lastIncrementalAt >= 30000 && s'.lastIncrementalAt == step.now
      else s'.lastIncrementalAt == s.lastIncrementalAt
  {
    hide Lists, Loads, LaterThanAll, AfterAll, AfterUpdated, HandleAck;
    match step
    case RowsAll(k, rows, now) => ListingThrottles(s, k, rows, now);
    case RowsUpdated(k, rows, now) => UpdatesThrottle(s, k, rows, now);
    case AckStep(k, ack, healthy, now) => {
      var c := s.cycles[k];
      AckKeepsThrottle(s, c.mode, c.ids, c.versions, ack, healthy, now);
    }
    case _ =>
  }

  lemma ChooseThrottles(s: State, k: nat, now: int)
    ensures var s' := Choose(s, k, now);
      if k in s'.cycles && s'.cycles[k].AwaitLoad? && s'.cycles[k].mode == Incremental
      then now - s.lastIncrementalAt >= 30000 && s'.lastIncrementalAt == now else s'.lastIncrementalAt == s.lastIncrementalAt
  {
    hide Pick;
  }

  lemma ListingThrottles(s: State, k: nat, rows: seq<Row>, now: int)
    ensures var s' := AfterAll(s, k, rows, now);
      if k in s'.cycles && s'.cycles[k].AwaitLoad? && s'.cycles[k].mode == Incremental
      then now - s.lastIncrementalAt >= 30000 && s'.lastIncrementalAt == now else s'.lastIncrementalAt == s.lastIncrementalAt
  {
    hide Choose, PushAll, LeadingIds;
    ChooseThrottles(s, k, now);
  }

  lemma UpdatesThrottle(s: State, k: nat, rows: seq<Row>, now: int)
    requires At(s, k) && s.cycles[k].AwaitUpdated?
    ensures var s' := AfterUpdated(s, k, rows, now);
      if k in s'.cycles && s'.cycles[k].AwaitLoad? && s'.cycles[k].mode == Incremental
      then now - s.lastIncrementalAt >= 30000 && s'.lastIncrementalAt == now else s'.lastIncrementalAt == s.lastIncrementalAt
  {
    hide Choose, Scan;
    var c := Scan(rows, s.cycles[k].since, s.cycles[k].previous, s.incremental);
    ChooseThrottles(s, k, now);
    ChooseThrottles(s.(top := Some(c.top), atTop := c.atTop, incremental := c.queue), k, now);
  }

  lemma AckKeepsThrottle(s: State, mode: Mode, ids: seq<Id>, versions: map<Id, int>, ack: Ack, healthy: bool, now: int)
    ensures HandleAck(s, mode, ids, versions, ack, healthy, now).lastIncrementalAt == s.lastIncrementalAt
  {
    hide OutcomeAll, FinishAt, Remove;
  }

  lemma {:induction false} ThrottleLasts(states: seq<State>, steps: seq<Step>, i: nat, j: nat)
    requires IsRun(states, steps) && i < j <= |steps| && ChoosesIncremental(states[i], steps[i])
    requires forall l | i < l < j :: !steps[l].Reset?
    ensures states[j].lastIncrementalAt >= steps[i].now
  {
    hide Apply, ChoosesIncremental, Enabled;
    if j == i + 1 {
      NoReset(states[i], steps[i]);
      StepThrottles(states[i], steps[i]);
    } else {
      ThrottleLasts(states, steps, i, j - 1);
      StepThrottles(states[j - 1], steps[j - 1]);
    }
  }

  lemma NoReset(s: State, step: Step)
    requires Enabled(s, step) && ChoosesIncremental(s, step)
    ensures !step.Reset?
  {
  }

  /** Over every run: without a reset in between, two incremental batches are chosen at least 30 seconds apart. */
  lemma IncrementalBatchesAreApart(states: seq<State>, steps: seq<Step>, i: nat, j: nat)
    requires IsRun(states, steps) && i < j < |steps| && ChoosesIncremental(states[i], steps[i]) && ChoosesIncremental(states[j], steps[j])
    requires forall l | i < l < j :: !steps[l].Reset?
    ensures steps[j].now - steps[i].now >= 30000
  {
    hide Apply, ChoosesIncremental, Enabled;
    NoReset(states[j], steps[j]);
    ThrottleLasts(states, steps, i, j);
    StepThrottles(states[j], steps[j]);
  }

  // ---------------------------------------------------------------------------------------------
  // The chunks of a split session
  // ---------------------------------------------------------------------------------------------

  /** A cycle begins and what it sends is accepted, at these times. */
  ghost predicate AcceptedRounds(states: seq<State>, steps: seq<Step>) {
    && |states| == |steps| + 1 && |steps| % 2 == 0
    && (forall i | 0 <= i < |steps| :: Enabled(states[i], steps[i]) && states[i + 1] == Apply(states[i], steps[i]))
    && (forall i | 0 <= i < |steps| ::
          if i % 2 == 0 then steps[i].Begin? else steps[i].AckStep? && steps[i].cycle == states[i - 1].started && steps[i].ack.AckAccepted?)
  }

  /** What a cycle sends when chunks are outstanding: one chunk of that session, before anything else. */
  lemma ChunkComesFirst(s: State)
    requires s.active.None? && s.pending.Some? && s.pending.value.left > 0
    ensures var s', p := Apply(s, Begin), s.pending.value;
      && s.started in s'.cycles && s'.cycles[s.started] == AwaitAck(p.mode, [p.sessionId], map[p.sessionId := p.version])
      && s'.pending == (if p.left == 1 then None else Some(p.(left := p.left - 1)))
  {
  }

  /** One round: a chunk fewer, or after the last one the session is finished and out of its queue. */
  lemma RoundIs(s: State, step: Step)
    requires s.active.None? && s.pending.Some? && s.pending.value.left > 0 && step.AckStep? && step.ack.AckAccepted? && step.cycle == s.started
    requires Enabled(Apply(s, Begin), step)
    ensures var s', p := Apply(Apply(s, Begin), step), s.pending.value;
      && s'.active.None? && s'.started == s.started + 1
      && s'.pending == (if p.left == 1 then None else Some(p.(left := p.left - 1)))
      && (p.left == 1 ==>
            && p.sessionId !in (if p.mode.Incremental? then s'.incremental else s'.backfill).members
            && p.sessionId in s'.done && s'.done[p.sessionId] >= p.version)
      && (p.left > 1 ==> s'.done == s.done && s'.incremental == s.incremental && s'.backfill == s.backfill)
  {
    hide OutcomeAll, Without, LaterThanAll, Lists, Loads;
  }

  /**
   * If every chunk is accepted, the outstanding chunks of a session go out one by one, each in a cycle of its
   * own; only after the last is the session taken from its queue, finished with the version that was split.
   */
  lemma {:induction false} ChunksGoOut(states: seq<State>, steps: seq<Step>)
    requires AcceptedRounds(states, steps) && steps != []
    requires var s := states[0]; s.active.None? && s.pending.Some? && 2 * s.pending.value.left == |steps|
    ensures var p, last := states[0].pending.value, states[|steps|];
      && last.pending.None? && last.active.None?
      && p.sessionId !in (if p.mode.Incremental? then last.incremental else last.backfill).members
      && p.sessionId in last.done && last.done[p.sessionId] >= p.version
    decreases |steps|
  {
    hide Apply, Enabled;
    assert states[1] == Apply(states[0], steps[0]) && states[2] == Apply(states[1], steps[1]) && steps[0] == Begin;
    assert Enabled(states[1], steps[1]) && steps[1].AckStep?;
    RoundIs(states[0], steps[1]);
    if |steps| > 2 {
      LaterRounds(states, steps);
      ChunksGoOut(states[2..], steps[2..]);
    }
  }

  lemma LaterRounds(states: seq<State>, steps: seq<Step>)
    requires AcceptedRounds(states, steps) && |steps| > 2
    ensures AcceptedRounds(states[2..], steps[2..])
  {
    hide Apply, Enabled;
    var states', steps' := states[2..], steps[2..];
    forall i | 0 <= i < |steps'|
      ensures Enabled(states'[i], steps'[i]) && states'[i + 1] == Apply(states'[i], steps'[i])
      ensures if i % 2 == 0 then steps'[i].Begin? else steps'[i].AckStep? && steps'[i].cycle == states'[i - 1].started && steps'[i].ack.AckAccepted?
    {
      assert Enabled(states[i + 2], steps[i + 2]) && states[i + 3] == Apply(states[i + 2], steps[i + 2]);
    }
  }
}
