/**
 * When exactly an update is lost: over every run, clean or not. A session's current version is kept
 * as long as it is still to be seen, queued, or finished; the guard of a step says which kept
 * versions that step gives up.
 */
module SessionSyncLoss {
  import opened Prelude
  import opened SessionSync
  import opened SessionSyncRuns

  predicate Kept(s: State, id: Id)
    requires id in s.src
  {
    Unseen(s, id) || Queued(s, id) || Finished(s, id)
  }

  // ---------------------------------------------------------------------------------------------
  // The guards of the two steps that lose an update
  // ---------------------------------------------------------------------------------------------

  /** Chunks of the only session of the batch are outstanding, so that its acceptance is not the last one. */
  predicate MoreChunks(s: State, ids: seq<Id>) {
    s.pending.Some? && |ids| == 1 && s.pending.value.sessionId == ids[0]
  }

  function KindOf(ack: Ack, healthy: bool, now: int): AckKind {
    match ack
    case AckAccepted => Accepts
    case AckTimeout => Timeouts
    case RateLimited => Limits(healthy, now + RATE_LIMIT_BACKOFF_MS)
    case ValidationFailed => Neither
    case FeatureDisabled => Neither
  }

  /** The sessions an acknowledgement takes out of the queue their batch was sent from. */
  function Dequeued(s: State, ids: seq<Id>, ack: Ack, healthy: bool, now: int): set<Id> {
    match ack
    case AckAccepted => if MoreChunks(s, ids) then {} else ToSet(ids)
    case ValidationFailed => ToSet(ids)
    case FeatureDisabled => {}
    case _ => DeadIn(OutcomeAll(s.retry, ids, KindOf(ack, healthy, now)).1)
  }

  /** Those among them that are finished with the version the batch carried. */
  function Settled(s: State, ids: seq<Id>, ack: Ack, healthy: bool, now: int): set<Id> {
    Dequeued(s, ids, ack, healthy, now)
    - (if ack.AckAccepted? && s.pending.Some? then {s.pending.value.sessionId} else {})
  }

  function OtherQueue(s: State, mode: Mode): Queue {
    if mode.Incremental? then s.backfill else s.incremental
  }

  /** The batch is acknowledged, and nothing but its queue stood for the current version of `id`. */
  predicate AckLoses(s: State, mode: Mode, ids: seq<Id>, versions: map<Id, int>, ack: Ack, healthy: bool, now: int, id: Id)
    requires id in s.src
  {
    && id in Dequeued(s, ids, ack, healthy, now)
    && !(id in Settled(s, ids, ack, healthy, now) && id in versions && versions[id] >= s.src[id])
    && id !in OtherQueue(s, mode).members && !Unseen(s, id) && !Finished(s, id)
  }

  /** The listing was asked for from a cursor that is already past `id`, which nothing else stands for. */
  predicate ListingLoses(s: State, since: int, previous: set<Id>, id: Id)
    requires id in s.src
  {
    && (s.src[id] < since || (s.src[id] == since && id in previous))
    && !Queued(s, id) && !Finished(s, id)
  }

  predicate Loses(s: State, step: Step, id: Id)
    requires id in s.src
  {
    match step
    case AckStep(k, ack, healthy, now) =>
      && At(s, k) && s.cycles[k].AwaitAck? && s.active == Some(k)
      && AckLoses(s, s.cycles[k].mode, s.cycles[k].ids, s.cycles[k].versions, ack, healthy, now, id)
    case RowsUpdated(k, rows, _) =>
      && At(s, k) && s.cycles[k].AwaitUpdated? && rows != []
      && ListingLoses(s, s.cycles[k].since, s.cycles[k].previous, id)
    case _ => false
  }

  ghost predicate LosesSome(s: State, step: Step) {
    exists id :: id in s.src && Loses(s, step, id)
  }

  // ---------------------------------------------------------------------------------------------
  // What every step keeps
  // ---------------------------------------------------------------------------------------------

  /** The cursor a suspended cycle asked from lies within the source. */
  ghost predicate ListingOk(src: map<Id, int>, c: Cycle) {
    c.AwaitUpdated? ==>
      && (exists x :: x in src && src[x] >= c.since)
      && (forall id | id in c.previous :: id in src && src[id] >= c.since)
  }

  ghost predicate ListingsOk(s: State) {
    forall k | k in s.cycles :: ListingOk(s.src, s.cycles[k])
  }

  /** What holds in every state of every run: queues, counters, and every cursor. */
  ghost predicate Sound(s: State) {
    && QueueOk(s.incremental) && QueueOk(s.backfill)
    && CountersOk(s.retry, s.log)
    && CursorOk(s) && ListingsOk(s)
  }

  lemma UpdateKeepsListing(src: map<Id, int>, id: Id, updatedAt: int, c: Cycle)
    requires ListingOk(src, c) && LaterThanAll(src, id, updatedAt)
    ensures ListingOk(src[id := updatedAt], c)
  {
    if c.AwaitUpdated? {
      var x :| x in src && src[x] >= c.since;
      assert src[id := updatedAt][x] >= c.since;
    }
  }

  lemma UpdateKeepsSound(s: State, id: Id, updatedAt: int)
    requires Sound(s) && LaterThanAll(s.src, id, updatedAt)
    ensures Sound(s.(src := s.src[id := updatedAt]))
  {
    hide CountersOk, QueueOk;
    var s' := s.(src := s.src[id := updatedAt]);
    if s.top.Some? {
      UpdateKeepsListing(s.src, id, updatedAt, AwaitUpdated(s.top.value, s.atTop));
    }
    forall k | k in s'.cycles ensures ListingOk(s'.src, s'.cycles[k]) {
      UpdateKeepsListing(s.src, id, updatedAt, s.cycles[k]);
    }
  }

  lemma ChooseKeepsSound(s: State, k: nat, now: int)
    requires Sound(s)
    ensures Sound(Choose(s, k, now))
  {
    hide CountersOk, QueueOk, Pick;
    SameViewKeeps(s, Choose(s, k, now));
  }

  lemma RowsAllKeepSound(s: State, k: nat, rows: seq<Row>, now: int)
    requires Sound(s) && Lists(s.src, rows, None)
    ensures Sound(AfterAll(s, k, rows, now))
  {
    if rows == [] {
      ChooseKeepsSound(s, k, now);
    } else {
      PushAllIs(rows, s.backfill);
      LeadingIdsAreAtTop(rows, rows[0].updatedAt);
      hide CountersOk, QueueOk, PushAll, LeadingIds;
      assert rows[0].id in s.src;
    }
  }

  /** The rows of a listing, whoever asked for it, leave a cursor that lies within the source. */
  lemma ScannedCursor(s: State, since: int, previous: set<Id>, rows: seq<Row>, c: Cursor)
    requires ListingOk(s.src, AwaitUpdated(since, previous)) && Lists(s.src, rows, Some(since))
    requires c.top == since || exists i :: 0 <= i < |rows| && rows[i].updatedAt == c.top
    requires c.atTop == AtTop(rows, c.top) + (if c.top == since then previous else {})
    ensures CursorOk(s.(top := Some(c.top), atTop := c.atTop, incremental := c.queue))
  {
    if c.top != since {
      var i :| 0 <= i < |rows| && rows[i].updatedAt == c.top;
      assert s.src[rows[i].id] >= c.top;
    }
  }

  lemma RowsUpdatedKeepSound(s: State, k: nat, rows: seq<Row>, now: int)
    requires Sound(s) && At(s, k) && s.cycles[k].AwaitUpdated? && Lists(s.src, rows, Some(s.cycles[k].since))
    ensures Sound(AfterUpdated(s, k, rows, now))
  {
    if rows == [] {
      ChooseKeepsSound(s, k, now);
    } else {
      var since, previous := s.cycles[k].since, s.cycles[k].previous;
      var c := Scan(rows, since, previous, s.incremental);
      ScanIs(rows, since, previous, s.incremental);
      ScannedCursor(s, since, previous, rows, c);
      hide Scan, CountersOk, QueueOk;
      ChooseKeepsSound(s.(top := Some(c.top), atTop := c.atTop, incremental := c.queue), k, now);
    }
  }

  /** What an acknowledgement of the active cycle does, in terms of the sessions it takes out and settles. */
  ghost predicate Acknowledged(s: State, s': State, mode: Mode, versions: map<Id, int>, gone: set<Id>, settled: set<Id>) {
    && SameView(s, s') && s'.cycles == s.cycles && s'.active == s.active
    && s'.incremental == (if mode.Incremental? then Remove(s.incremental, gone) else s.incremental)
    && s'.backfill == (if mode.Incremental? then s.backfill else Remove(s.backfill, gone))
    && s'.done == FinishAt(s.done, settled, versions)
  }

  lemma RemoveNothing(q: Queue)
    ensures Remove(q, {}) == q
  {
    WithoutNothing(q.ids);
    assert q.members - {} == q.members;
  }

  lemma FinishNothing(done: map<Id, int>, versions: map<Id, int>)
    ensures FinishAt(done, {}, versions) == done
  {
  }

  lemma DequeueIs(s: State, mode: Mode, gone: set<Id>)
    ensures Dequeue(s, mode, gone) == s.(
      incremental := if mode.Incremental? then Remove(s.incremental, gone) else s.incremental,
      backfill := if mode.Incremental? then s.backfill else Remove(s.backfill, gone))
  {
  }

  lemma AcceptIs(s: State, mode: Mode, ids: seq<Id>, versions: map<Id, int>, healthy: bool, now: int)
    requires !MoreChunks(s, ids)
    ensures Acknowledged(s, HandleAck(s, mode, ids, versions, AckAccepted, healthy, now), mode, versions,
                         ToSet(ids), Settled(s, ids, AckAccepted, healthy, now))
  {
    hide OutcomeAll, Dequeue, Remove, FinishAt, ToSet;
    var done := FinishAt(s.done, Settled(s, ids, AckAccepted, healthy, now), versions);
    DequeueIs(WithOutcomes(s, ids, Accepts).(done := done), mode, ToSet(ids));
  }

  lemma GiveUpIs(s: State, mode: Mode, ids: seq<Id>, versions: map<Id, int>, kind: AckKind)
    ensures var dead := DeadIn(OutcomeAll(s.retry, ids, kind).1);
      Acknowledged(s, GiveUp(s, mode, ids, versions, kind), mode, versions, dead, dead)
  {
    hide OutcomeAll, DeadIn, Dequeue, Remove, FinishAt;
    var dead := DeadIn(OutcomeAll(s.retry, ids, kind).1);
    DequeueIs(WithOutcomes(s, ids, kind).(done := FinishAt(s.done, dead, versions)), mode, dead);
  }

  lemma FailureIs(s: State, mode: Mode, ids: seq<Id>, versions: map<Id, int>, ack: Ack, healthy: bool, now: int)
    requires !ack.AckAccepted? && !ack.FeatureDisabled?
    ensures var gone := Dequeued(s, ids, ack, healthy, now);
      Acknowledged(s, HandleAck(s, mode, ids, versions, ack, healthy, now), mode, versions, gone, gone)
  {
    hide OutcomeAll, DeadIn, Dequeue, GiveUp, Remove, FinishAt, ToSet;
    var s1 := if s.pending.Some? && s.pending.value.sessionId in ids then s.(pending := None) else s;
    match ack
    case ValidationFailed =>
      DequeueIs(WithOutcomes(s1, ids, Neither).(done := FinishAt(s.done, ToSet(ids), versions)), mode, ToSet(ids));
    case AckTimeout => GiveUpIs(s1, mode, ids, versions, Timeouts);
    case RateLimited => GiveUpIs(s1, mode, ids, versions, Limits(healthy, now + RATE_LIMIT_BACKOFF_MS));
  }

  lemma NothingGoneIs(s: State, s': State, mode: Mode, versions: map<Id, int>)
    requires SameView(s, s') && s'.cycles == s.cycles && s'.active == s.active
    requires s'.incremental == s.incremental && s'.backfill == s.backfill && s'.done == s.done
    ensures Acknowledged(s, s', mode, versions, {}, {})
  {
    RemoveNothing(s.incremental);
    RemoveNothing(s.backfill);
    FinishNothing(s.done, versions);
  }

  lemma HandleAckIs(s: State, mode: Mode, ids: seq<Id>, versions: map<Id, int>, ack: Ack, healthy: bool, now: int)
    ensures Acknowledged(s, HandleAck(s, mode, ids, versions, ack, healthy, now), mode, versions,
                         Dequeued(s, ids, ack, healthy, now), Settled(s, ids, ack, healthy, now))
  {
    var gone, settled := Dequeued(s, ids, ack, healthy, now), Settled(s, ids, ack, healthy, now);
    if ack.FeatureDisabled? || (ack.AckAccepted? && MoreChunks(s, ids)) {
      NothingGoneIs(s, HandleAck(s, mode, ids, versions, ack, healthy, now), mode, versions);
      assert gone == {} && settled == {};
    } else if ack.AckAccepted? {
      AcceptIs(s, mode, ids, versions, healthy, now);
    } else {
      FailureIs(s, mode, ids, versions, ack, healthy, now);
      assert settled == gone;
    }
  }

  lemma HandleAckKeepsCounters(s: State, mode: Mode, ids: seq<Id>, versions: map<Id, int>, ack: Ack, healthy: bool, now: int)
    requires CountersOk(s.retry, s.log)
    ensures var s' := HandleAck(s, mode, ids, versions, ack, healthy, now); CountersOk(s'.retry, s'.log)
  {
    OutcomesKeepCounters(s.retry, s.log, ids, KindOf(ack, healthy, now));
    hide CountersOk, OutcomeAll, DeadIn, Remove, FinishAt;
  }

  lemma AckKeepsSound(s: State, k: nat, ack: Ack, healthy: bool, now: int)
    requires Sound(s) && At(s, k) && s.cycles[k].AwaitAck?
    ensures Sound(Apply(s, AckStep(k, ack, healthy, now)))
  {
    hide HandleAck, CountersOk, QueueOk, Dequeued, Settled, FinishAt, Remove, CursorOk, ListingOk;
    var c := s.cycles[k];
    HandleAckIs(s, c.mode, c.ids, c.versions, ack, healthy, now);
    HandleAckKeepsCounters(s, c.mode, c.ids, c.versions, ack, healthy, now);
    RemoveKeepsOk(s.incremental, Dequeued(s, c.ids, ack, healthy, now));
    RemoveKeepsOk(s.backfill, Dequeued(s, c.ids, ack, healthy, now));
    SameViewKeeps(s, Apply(s, AckStep(k, ack, healthy, now)));
  }

  lemma StepKeepsSound(s: State, step: Step)
    requires Sound(s) && Enabled(s, step)
    ensures Sound(Apply(s, step))
  {
    hide Sound, ResetAll;
    match step
    case Update(id, updatedAt) => UpdateKeepsSound(s, id, updatedAt);
    case Begin => BeginKeepsSound(s);
    case RowsAll(k, rows, now) => RowsAllKeepSound(s, k, rows, now);
    case RowsUpdated(k, rows, now) => RowsUpdatedKeepSound(s, k, rows, now);
    case LoadedStep(k, loaded) => LoadKeepsSound(s, k, loaded);
    case AckStep(k, ack, healthy, now) => AckKeepsSound(s, k, ack, healthy, now);
    case Fails(k) => EndKeepsSound(s, k);
    case Reset => ResetForgets(s);
  }

  lemma BeginKeepsSound(s: State)
    requires Sound(s)
    ensures Sound(BeginCycle(s))
  {
    hide CountersOk, QueueOk;
    SameViewKeeps(s, BeginCycle(s));
  }

  lemma LoadKeepsSound(s: State, k: nat, loaded: seq<Loaded>)
    requires Sound(s) && At(s, k) && s.cycles[k].AwaitLoad?
    ensures Sound(AfterLoad(s, k, loaded))
  {
    hide CountersOk, QueueOk, Assemble;
    SameViewKeeps(s, AfterLoad(s, k, loaded));
  }

  lemma EndKeepsSound(s: State, k: nat)
    requires Sound(s)
    ensures Sound(End(s, k))
  {
    hide CountersOk, QueueOk;
    SameViewKeeps(s, End(s, k));
  }

  // ---------------------------------------------------------------------------------------------
  // One step
  // ---------------------------------------------------------------------------------------------

  /** A row puts its session into the queue unless the cursor has it already. */
  lemma FreshIs(src: map<Id, int>, rows: seq<Row>, since: int, previous: set<Id>, id: Id)
    requires Lists(src, rows, Some(since)) && id in src
    ensures id in Fresh(rows, since, previous) <==> src[id] > since || (src[id] == since && id !in previous)
  {
    if src[id] >= since {
      assert Listed(rows, id);
      var i :| 0 <= i < |rows| && rows[i].id == id;
      assert rows[i].updatedAt == src[id];
    }
  }

  lemma ListingLosesExactly(s: State, k: nat, rows: seq<Row>, now: int, id: Id)
    requires Sound(s) && At(s, k) && s.cycles[k].AwaitUpdated? && Lists(s.src, rows, Some(s.cycles[k].since))
    requires rows != [] && id in s.src
    ensures var s' := AfterUpdated(s, k, rows, now);
      s'.src == s.src && (Kept(s', id) <==> !ListingLoses(s, s.cycles[k].since, s.cycles[k].previous, id))
  {
    var since, previous := s.cycles[k].since, s.cycles[k].previous;
    var c := Scan(rows, since, previous, s.incremental);
    ScanIs(rows, since, previous, s.incremental);
    FreshIs(s.src, rows, since, previous, id);
    assert c.queue.members == s.incremental.members + Fresh(rows, since, previous);
    assert c.top == since ==> previous <= c.atTop;
    hide Scan, Pick, CountersOk, QueueOk, Lists, Fresh, CursorOk, ListingsOk;
    ChooseIsView(s.(top := Some(c.top), atTop := c.atTop, incremental := c.queue), k, now);
  }

  lemma ChooseIsView(s: State, k: nat, now: int)
    ensures var s' := Choose(s, k, now);
      SameView(s, s') && s'.incremental == s.incremental && s'.backfill == s.backfill && s'.done == s.done
  {
    hide Pick;
  }

  lemma AckLosesExactly(s: State, mode: Mode, ids: seq<Id>, versions: map<Id, int>, ack: Ack, healthy: bool, now: int, id: Id)
    requires id in s.src && Kept(s, id)
    ensures var s' := HandleAck(s, mode, ids, versions, ack, healthy, now);
      s'.src == s.src && (Kept(s', id) <==> !AckLoses(s, mode, ids, versions, ack, healthy, now, id))
  {
    HandleAckIs(s, mode, ids, versions, ack, healthy, now);
    hide HandleAck, Dequeued, Settled;
  }

  lemma FullListingKeeps(s: State, k: nat, rows: seq<Row>, now: int, id: Id)
    requires Sound(s) && Lists(s.src, rows, None) && id in s.src && Kept(s, id)
    ensures var s' := AfterAll(s, k, rows, now); s'.src == s.src && Kept(s', id)
  {
    if rows != [] {
      PushAllIs(rows, s.backfill);
      assert Listed(rows, id);
    }
  }

  /** A step gives up the kept version of a session exactly when its guard says so. */
  lemma StepLosesExactly(s: State, step: Step, id: Id)
    requires Sound(s) && Enabled(s, step) && id in s.src && Kept(s, id)
    ensures id in Apply(s, step).src && (Kept(Apply(s, step), id) <==> !Loses(s, step, id))
  {
    match step
    case Update(other, updatedAt) => UpdatedIsUnseen(s, other, updatedAt);
    case Begin =>
    case RowsAll(k, rows, now) => FullListingKeeps(s, k, rows, now, id);
    case RowsUpdated(k, rows, now) =>
      if rows == [] { ChooseIsView(s, k, now); } else { ListingLosesExactly(s, k, rows, now, id); }
    case LoadedStep(_, _) =>
    case AckStep(k, ack, healthy, now) =>
      AckLosesExactly(s, s.cycles[k].mode, s.cycles[k].ids, s.cycles[k].versions, ack, healthy, now, id);
    case Fails(_) =>
    case Reset =>
  }

  lemma UpdatedIsUnseen(s: State, id: Id, updatedAt: int)
    requires CursorOk(s) && LaterThanAll(s.src, id, updatedAt)
    ensures Unseen(s.(src := s.src[id := updatedAt]), id)
  {
  }

  // ---------------------------------------------------------------------------------------------
  // Runs
  // ---------------------------------------------------------------------------------------------

  lemma NewSessionIsUnseen(s: State, step: Step, id: Id)
    requires Sound(s) && Enabled(s, step) && id in Apply(s, step).src && id !in s.src
    ensures Kept(Apply(s, step), id)
  {
    match step
    case Update(other, updatedAt) => UpdatedIsUnseen(s, other, updatedAt);
    case RowsAll(k, rows, now) => ChooseIsView(s, k, now);
    case RowsUpdated(k, rows, now) => {
      var c := Scan(rows, s.cycles[k].since, s.cycles[k].previous, s.incremental);
      ChooseIsView(s, k, now);
      ChooseIsView(s.(top := Some(c.top), atTop := c.atTop, incremental := c.queue), k, now);
    }
    case AckStep(k, ack, healthy, now) =>
      HandleAckIs(s, s.cycles[k].mode, s.cycles[k].ids, s.cycles[k].versions, ack, healthy, now);
    case _ =>
  }

  /** After a step from a state without a lost update, no update is lost exactly when the step loses none. */
  lemma StepLosesNothingIff(s: State, step: Step)
    requires Sound(s) && NothingLost(s) && Enabled(s, step)
    ensures NothingLost(Apply(s, step)) <==> !LosesSome(s, step)
  {
    hide Sound, Enabled, Apply, Loses, Unseen, Queued, Finished;
    var s' := Apply(s, step);
    forall id | id in s.src ensures id in s'.src && (Kept(s', id) <==> !Loses(s, step, id)) {
      assert Kept(s, id);
      StepLosesExactly(s, step, id);
    }
    forall id | id in s'.src && id !in s.src ensures Kept(s', id) {
      NewSessionIsUnseen(s, step, id);
    }
  }

  /** In every state of every run the queues are sets, the counters equal the log, and cursors lie within the source. */
  lemma {:induction false} EveryRunIsSound(states: seq<State>, steps: seq<Step>, k: nat)
    requires IsRun(states, steps) && k < |states|
    ensures Sound(states[k])
  {
    hide Apply, Enabled;
    if k == 0 {
      InitInv(states[0].src);
    } else {
      EveryRunIsSound(states, steps, k - 1);
      hide Sound;
      StepKeepsSound(states[k - 1], steps[k - 1]);
    }
  }

  /** A run, whatever resets and splits it contains, has lost no update so far exactly when none of its steps lost one. */
  lemma {:induction false} RunLosesNothingIff(states: seq<State>, steps: seq<Step>, k: nat)
    requires IsRun(states, steps) && k < |states|
    ensures (forall j | 0 <= j <= k :: NothingLost(states[j])) <==> (forall i | 0 <= i < k :: !LosesSome(states[i], steps[i]))
  {
    hide Apply, Enabled, Sound, LosesSome;
    if k == 0 {
      InitInv(states[0].src);
    } else {
      hide NothingLost;
      RunLosesNothingIff(states, steps, k - 1);
      EveryRunIsSound(states, steps, k - 1);
      if forall j | 0 <= j <= k - 1 :: NothingLost(states[j]) {
        StepLosesNothingIff(states[k - 1], steps[k - 1]);
        assert NothingLost(states[k]) <==> !LosesSome(states[k - 1], steps[k - 1]);
      }
    }
  }

  /** No step of a clean run loses an update: being clean is enough, though not necessary. */
  lemma CleanRunLosesNothing(states: seq<State>, steps: seq<Step>, k: nat)
    requires IsRun(states, steps) && k < |steps| && forall i | 0 <= i < |steps| :: Clean(states[i], steps[i])
    ensures !LosesSome(states[k], steps[k])
  {
    hide Enabled, Apply, Clean, LosesSome, Sound;
    RunKeepsInv(states, steps, k);
    RunKeepsInv(states, steps, k + 1);
    EveryRunIsSound(states, steps, k);
    StepLosesNothingIff(states[k], steps[k]);
  }

  // ---------------------------------------------------------------------------------------------
  // The two ways an update is lost
  // ---------------------------------------------------------------------------------------------

  /**
   * A batch of several sessions, one of them split with chunks outstanding, is accepted. Nothing is
   * lost exactly when the split session is in the other queue, to be seen again, or finished.
   */
  lemma SplitInBatchLosesIff(s: State, k: nat, healthy: bool, now: int)
    requires Sound(s) && NothingLost(s) && At(s, k) && s.active == Some(k) && s.cycles[k].AwaitAck?
    requires s.pending.Some? && |s.cycles[k].ids| > 1 && s.pending.value.sessionId in s.cycles[k].ids
    requires forall id | id in s.cycles[k].ids :: id in s.cycles[k].versions && VersionOk(s, id, s.cycles[k].versions[id])
    ensures var split := s.pending.value.sessionId;
      split in s.src
      && (NothingLost(Apply(s, AckStep(k, AckAccepted, healthy, now)))
          <==> split in OtherQueue(s, s.cycles[k].mode).members || Unseen(s, split) || Finished(s, split))
  {
    var step, split, c := AckStep(k, AckAccepted, healthy, now), s.pending.value.sessionId, s.cycles[k];
    assert VersionOk(s, split, c.versions[split]);
    StepLosesNothingIff(s, step);
    hide Sound, NothingLost, Apply;
    forall id | id in s.src && id != split ensures !Loses(s, step, id) {
      if id in c.ids { assert VersionOk(s, id, c.versions[id]); }
    }
    assert split in Dequeued(s, c.ids, AckAccepted, healthy, now) && split !in Settled(s, c.ids, AckAccepted, healthy, now);
  }

  /**
   * Rows arrive for a cycle that asked before a reset. Nothing is lost exactly when every session its
   * cursor is past (older, or seen at the watermark) is queued or finished.
   */
  lemma StaleListingLosesIff(s: State, k: nat, rows: seq<Row>, now: int)
    requires Sound(s) && NothingLost(s) && Enabled(s, RowsUpdated(k, rows, now)) && rows != []
    ensures var since, previous := s.cycles[k].since, s.cycles[k].previous;
      NothingLost(Apply(s, RowsUpdated(k, rows, now)))
      <==> (forall id | id in s.src && (s.src[id] < since || (s.src[id] == since && id in previous)) :: Queued(s, id) || Finished(s, id))
  {
    StepLosesNothingIff(s, RowsUpdated(k, rows, now));
    hide Sound, NothingLost, Apply, Queued, Finished, Lists;
    var since, previous := s.cycles[k].since, s.cycles[k].previous;
    assert forall id | id in s.src :: Loses(s, RowsUpdated(k, rows, now), id) <==> ListingLoses(s, since, previous, id);
  }

  lemma ResetForgets(s: State)
    requires Sound(s)
    ensures Sound(ResetAll(s)) && NothingLost(ResetAll(s))
  {
  }

  /** Right after a reset with empty queues, such rows lose every unfinished session their cursor is past. */
  lemma ListingAfterReset(s: State, k: nat, rows: seq<Row>, now: int)
    requires Sound(s) && Enabled(ResetAll(s), RowsUpdated(k, rows, now)) && rows != []
    ensures var since, previous := s.cycles[k].since, s.cycles[k].previous;
      NothingLost(Apply(ResetAll(s), RowsUpdated(k, rows, now)))
      <==> (forall id | id in s.src && (s.src[id] < since || (s.src[id] == since && id in previous)) :: Finished(s, id))
  {
    hide Sound, Enabled, NothingLost, Apply;
    ResetForgets(s);
    StaleListingLosesIff(ResetAll(s), k, rows, now);
    assert forall id | id in s.src :: !Queued(ResetAll(s), id) && (Finished(ResetAll(s), id) <==> Finished(s, id));
  }
}
