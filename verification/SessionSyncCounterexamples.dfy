/** A run that loses an update after each of the two unclean steps, from the start, with the step that loses it. */
module SessionSyncCounterexamples {
  import opened Prelude
  import opened SessionSync
  import opened SessionSyncRuns
  import EventChunker
  import SessionSyncLoss

  const A: Id := "a"
  const B: Id := "b"
  const BOTH := Queue([A, B], {A, B})

  // ---------------------------------------------------------------------------------------------
  // A split session whose first chunk shared its batch
  // ---------------------------------------------------------------------------------------------

  function Listed1(rows: seq<Row>, now: int): State {
    State(map[A := 1, B := 1], Some(1), {A, B}, EMPTY, BOTH, NO_RETRY, None, 0,
          map[0 := AwaitUpdated(1, {A, B})], Some(0), 1, map[], [])
  }

  const ROWS := [Row(A, 1), Row(B, 1)]
  const OVERSIZED := Loaded(A, 400003, 1, 200002, 1)
  const SMALL := Loaded(B, 10, 1, 10, 0)

  /** What a loaded session weighs when the chunker cuts it into these chunks. */
  function LoadedOf(id: Id, version: int, session: EventChunker.Session, chunks: seq<EventChunker.Session>): Loaded
    requires chunks != []
  {
    Loaded(id, EventChunker.PayloadBytes(session), version, EventChunker.PayloadBytes(chunks[0]), |chunks| - 1)
  }

  /** The oversized session holds two events of 200000 bytes; the chunker puts each into a chunk of its own. */
  method SplitOversized() returns (session: EventChunker.Session, chunks: seq<EventChunker.Session>)
    ensures chunks != [] && LoadedOf(A, 1, session, chunks) == OVERSIZED
    ensures OVERSIZED.bytes > SESSION_PAYLOAD_BYTE_CAP
    ensures forall i | 0 <= i < |chunks| :: EventChunker.PayloadBytes(chunks[i]) <= SESSION_PAYLOAD_BYTE_CAP
  {
    var event: EventChunker.EventText := seq(200000, _ => 'x');
    session := EventChunker.Session("", [event, event], "");
    PairWeighs(session, event);
    hide EventChunker.PayloadBytes, EventChunker.FeasibleCut;
    chunks := EventChunker.ChunkOversizedSession(session, SESSION_PAYLOAD_BYTE_CAP);
    OneEventEach(EventChunker.Pieces(chunks), event, SESSION_PAYLOAD_BYTE_CAP - 2);
    assert |chunks| == |EventChunker.Pieces(chunks)|;
    assert forall i | 0 <= i < |chunks| :: chunks[i].events == EventChunker.Pieces(chunks)[i];
  }

  lemma PairSums(event: EventChunker.EventText)
    ensures EventChunker.Sum([event]) == |event| && EventChunker.Sum([event, event]) == 2 * |event|
  {
    var two, one, none: seq<EventChunker.EventText> := [event, event], [event], [];
    assert two[1..] == one && one[1..] == none;
    assert EventChunker.Sum(one) == |event| + EventChunker.Sum(none);
    assert EventChunker.Sum(two) == |event| + EventChunker.Sum(one);
  }

  lemma PairWeighs(session: EventChunker.Session, event: EventChunker.EventText)
    requires session == EventChunker.Session("", [event, event], "")
    ensures EventChunker.PayloadBytes(session.(events := [])) == 2
    ensures EventChunker.PayloadBytes(session.(events := [event])) == 2 + |event|
    ensures EventChunker.PayloadBytes(session) == 3 + 2 * |event|
  {
    EventChunker.ChunkLength(session, [event]);
    EventChunker.ChunkLength(session, [event, event]);
    PairSums(event);
    assert session.(events := [event, event]) == session;
  }

  lemma OneEventEach(pieces: seq<seq<EventChunker.EventText>>, event: EventChunker.EventText, budget: int)
    requires EventChunker.FeasibleCut(pieces, [event, event], budget) && |event| <= budget < 2 * |event|
    ensures pieces == [[event], [event]]
  {
    PairSums(event);
    var rest := pieces[1..];
    assert [event, event] == pieces[0] + EventChunker.Flatten(rest);
    assert EventChunker.Feasible(pieces[0], budget);
    OneOfTwo(event, pieces[0], EventChunker.Flatten(rest));
    assert EventChunker.Flatten(rest) == rest[0] + EventChunker.Flatten(rest[1..]) && rest[0] == pieces[1] != [];
    AllOfOne(event, rest[0], EventChunker.Flatten(rest[1..]));
    NoPiecesLeft(rest[1..]);
    assert pieces == [pieces[0]] + ([rest[0]] + rest[1..]);
  }

  lemma OneOfTwo(event: EventChunker.EventText, a: seq<EventChunker.EventText>, b: seq<EventChunker.EventText>)
    requires a + b == [event, event] && a != [] && a != [event, event]
    ensures a == [event] && b == [event]
  {
    assert a == [event, event][..|a|] && b == [event, event][|a|..];
    assert |a| != 2 by { assert [event, event][..2] == [event, event]; }
  }

  lemma AllOfOne(event: EventChunker.EventText, a: seq<EventChunker.EventText>, b: seq<EventChunker.EventText>)
    requires a + b == [event] && a != []
    ensures a == [event] && b == []
  {
    assert a == [event][..|a|];
  }

  lemma NoPiecesLeft(pieces: seq<seq<EventChunker.EventText>>)
    requires forall i | 0 <= i < |pieces| :: pieces[i] != []
    ensures EventChunker.Flatten(pieces) == [] ==> pieces == []
  {
    if pieces != [] {
      assert pieces[0] != [];
    }
  }

  lemma ListingBoth()
    ensures Lists(map[A := 1, B := 1], ROWS, None) && Lists(map[A := 1, B := 1], ROWS, Some(1))
    ensures PushAll(ROWS, EMPTY) == BOTH && LeadingIds(ROWS, 1) == {A, B}
    ensures Scan(ROWS, 1, {A, B}, EMPTY) == Cursor(1, {A, B}, EMPTY)
  {
    assert ROWS[0].id == A && ROWS[1].id == B;
    assert Listed(ROWS, A) && Listed(ROWS, B);
    var one := ROWS[..1];
    assert one[..0] == [] && ROWS[..|ROWS| - 1] == one;
    assert PushAll(one, EMPTY) == Queue([A], {A});
    assert ROWS[1..] == [Row(B, 1)] && ROWS[1..][1..] == [];
    assert LeadingIds(ROWS[1..], 1) == {B};
    assert Scan(one, 1, {A, B}, EMPTY) == Cursor(1, {A, B}, EMPTY);
  }

  lemma PickingBoth(now: int)
    ensures Pick([A, B], map[], BACKFILL_SESSION_BATCH_SIZE, now) == [A, B]
    ensures Pick([], map[], INCREMENTAL_SESSION_BATCH_SIZE, now) == []
  {
    assert [A, B][..1] == [A] && [A][..0] == [];
    assert ReadyIds([A], map[], now) == [A];
    assert ReadyIds([A, B], map[], now) == [A, B];
  }

  lemma AssemblingBoth()
    ensures Assemble([OVERSIZED, SMALL], Backfill, Batch([], 0, None)) == Batch([A, B], 200012, Some(Pending(A, Backfill, 1, 1)))
    ensures Versions([OVERSIZED, SMALL]) == map[A := 1, B := 1]
  {
    var one := AddSession(OVERSIZED, Backfill, Batch([], 0, None));
    assert [OVERSIZED, SMALL][1..] == [SMALL] && [SMALL][1..] == [];
    assert Assemble([SMALL], Backfill, one) == AddSession(SMALL, Backfill, one);
    assert [OVERSIZED, SMALL][..1] == [OVERSIZED] && [OVERSIZED][..0] == [];
    assert Versions([OVERSIZED]) == map[A := 1];
  }

  lemma ClearingNothing(id: Id)
    ensures Cleared(NO_RETRY, id) == NO_RETRY
  {
    var counts: map<Id, nat>, deadlines: map<Id, int> := map[], map[];
    assert counts - {id} == counts && deadlines - {id} == deadlines;
  }

  lemma AcceptingOneMore(r: Retry, front: seq<Id>, last: Id)
    requires r == NO_RETRY && Cleared(r, last) == r
    ensures var (r1, log1) := OutcomeAll(r, front, Accepts);
      r1 == r ==> OutcomeAll(r, front + [last], Accepts) == (r, log1 + [(last, FullyAccepted)])
  {
    assert (front + [last])[..|front|] == front;
  }

  lemma AcceptingBoth(r: Retry)
    requires r == NO_RETRY
    ensures OutcomeAll(r, [A, B], Accepts) == (r, [(A, FullyAccepted), (B, FullyAccepted)])
    ensures Remove(BOTH, ToSet([A, B])) == EMPTY
  {
    assert [A, B][..1] == [A] && [A][..0] == [];
    ClearingNothing(A);
    ClearingNothing(B);
    AcceptingOneMore(r, [], A);
    AcceptingOneMore(r, [A], B);
    var a, b := (A, FullyAccepted), (B, FullyAccepted);
    assert [] + [a] == [a] && [a] + [b] == [a, b];
    assert [A] + [B] == [A, B] && [] + [A] == [A];
    assert OutcomeAll(r, [A], Accepts) == (r, [a]);
    assert OutcomeAll(r, [A] + [B], Accepts) == (r, [a] + [b]);
    assert Without([A], {A, B}) == [];
    assert ToSet([A, B]) == {A, B};
    assert Without([A, B], {A, B}) == [];
  }

  function Sent1(): State {
    Listed1(ROWS, 0).(pending := Some(Pending(A, Backfill, 1, 1)),
                      cycles := map[0 := AwaitAck(Backfill, [A, B], map[A := 1, B := 1])])
  }

  lemma ReachSent1() returns (states: seq<State>, steps: seq<Step>)
    ensures IsRun(states, steps) && |states| == 5 && |steps| == 4 && states[4] == Sent1()
    ensures !Clean(states[3], steps[3])
  {
    var src, loaded := map[A := 1, B := 1], [OVERSIZED, SMALL];
    var s1, s2 := BothListed(Init(src));
    var s3, s4 := BothSent(s2, loaded);
    hide *;
    states, steps := [Init(src), s1, s2, s3, s4], [Begin, RowsAll(0, ROWS, 0), RowsUpdated(0, ROWS, 0), LoadedStep(0, loaded)];
    FourStepRun(src, states, steps);
  }

  lemma BothListed(s0: State) returns (s1: State, s2: State)
    requires s0 == Init(map[A := 1, B := 1])
    ensures Enabled(s0, Begin) && s1 == Apply(s0, Begin)
    ensures Enabled(s1, RowsAll(0, ROWS, 0)) && s2 == Apply(s1, RowsAll(0, ROWS, 0)) && s2 == Listed1(ROWS, 0)
  {
    ListingBoth();
    hide Lists, PushAll, LeadingIds, Scan;
    s1 := Apply(s0, Begin);
    s2 := Apply(s1, RowsAll(0, ROWS, 0));
  }

  lemma BothSent(s2: State, loaded: seq<Loaded>) returns (s3: State, s4: State)
    requires s2 == Listed1(ROWS, 0) && loaded == [OVERSIZED, SMALL]
    ensures Enabled(s2, RowsUpdated(0, ROWS, 0)) && s3 == Apply(s2, RowsUpdated(0, ROWS, 0))
    ensures Enabled(s3, LoadedStep(0, loaded)) && s4 == Apply(s3, LoadedStep(0, loaded)) && s4 == Sent1()
    ensures !Clean(s3, LoadedStep(0, loaded))
  {
    ListingBoth();
    PickingBoth(0);
    AssemblingBoth();
    hide Lists, Scan, Pick, Assemble, Versions;
    s3 := Apply(s2, RowsUpdated(0, ROWS, 0));
    assert s3 == s2.(cycles := map[0 := AwaitLoad(Backfill, [A, B])]);
    s4 := Apply(s3, LoadedStep(0, loaded));
  }

  /**
   * "a" is split and its first chunk goes out together with "b". When that batch is accepted, "a"
   * leaves the queue although a chunk is outstanding: this step is the loss. The chunk is then
   * rate-limited and discarded.
   * The update of "a" is in no queue, not finished, and below the watermark.
   */
  lemma SharedBatchLosesSession() returns (states: seq<State>, steps: seq<Step>)
    ensures IsRun(states, steps) && |steps| == 7 && !Clean(states[3], steps[3])
    ensures A in states[4].src && SessionSyncLoss.Loses(states[4], steps[4], A)
    ensures var last := states[7];
      A in last.src && !Unseen(last, A) && !Queued(last, A) && !Finished(last, A) && last.pending.None? && last.active.None?
  {
    hide *;
    var states4, steps4 := ReachSent1();
    AcceptanceLoses();
    var s5, s6, s7 := LastThree(states4[4]);
    var states5, steps5 := OneMore(states4, steps4, AckStep(0, AckAccepted, true, 0), s5);
    var states6, steps6 := OneMore(states5, steps5, Begin, s6);
    states, steps := OneMore(states6, steps6, AckStep(1, RateLimited, true, 0), s7);
  }

  lemma OneMore(before: seq<State>, taken: seq<Step>, step: Step, next: State) returns (states: seq<State>, steps: seq<Step>)
    requires IsRun(before, taken) && Enabled(before[|taken|], step) && next == Apply(before[|taken|], step)
    ensures states == before + [next] && steps == taken + [step] && IsRun(states, steps)
  {
    hide Enabled, Apply, Init;
    states, steps := before + [next], taken + [step];
  }

  lemma AcceptanceLoses()
    ensures A in Sent1().src && SessionSyncLoss.Loses(Sent1(), AckStep(0, AckAccepted, true, 0), A)
  {
    assert A in [A, B];
  }

  lemma LastThree(s4: State) returns (s5: State, s6: State, s7: State)
    requires s4 == Sent1()
    ensures Enabled(s4, AckStep(0, AckAccepted, true, 0)) && s5 == Apply(s4, AckStep(0, AckAccepted, true, 0))
    ensures Enabled(s5, Begin) && s6 == Apply(s5, Begin)
    ensures Enabled(s6, AckStep(1, RateLimited, true, 0)) && s7 == Apply(s6, AckStep(1, RateLimited, true, 0))
    ensures A in s7.src && !Unseen(s7, A) && !Queued(s7, A) && !Finished(s7, A) && s7.pending.None? && s7.active.None?
  {
    AcceptingBoth(s4.retry);
    hide HandleAck;
    s5 := Apply(s4, AckStep(0, AckAccepted, true, 0));
    Accepted1(s4, s5);
    s6 := Apply(s5, Begin);
    s7 := Apply(s6, AckStep(1, RateLimited, true, 0));
    Discarded1(s5, s6, s7);
  }

  lemma Accepted1(s4: State, s5: State)
    requires s4 == Sent1() && s5 == Apply(s4, AckStep(0, AckAccepted, true, 0))
    requires OutcomeAll(s4.retry, [A, B], Accepts) == (s4.retry, [(A, FullyAccepted), (B, FullyAccepted)])
    requires Remove(BOTH, ToSet([A, B])) == EMPTY
    ensures s5.active.None? && s5.pending == Some(Pending(A, Backfill, 1, 1)) && s5.cycles == map[]
    ensures s5.src == s4.src && s5.top == Some(1) && s5.atTop == {A, B} && A !in s5.done && s5.started == 1
    ensures s5.incremental == EMPTY && s5.backfill == EMPTY && s5.retry == NO_RETRY
  {
    hide OutcomeAll, Remove;
    assert A !in ToSet([A, B]) - {A};
  }

  lemma Discarded1(s5: State, s6: State, s7: State)
    requires s5.active.None? && s5.pending == Some(Pending(A, Backfill, 1, 1)) && s5.cycles == map[] && s5.started == 1
    requires s5.src == map[A := 1, B := 1] && s5.top == Some(1) && s5.atTop == {A, B} && A !in s5.done
    requires s5.incremental == EMPTY && s5.backfill == EMPTY && s5.retry == NO_RETRY
    requires s6 == Apply(s5, Begin) && Enabled(s6, AckStep(1, RateLimited, true, 0))
    requires s7 == Apply(s6, AckStep(1, RateLimited, true, 0))
    ensures A in s7.src && !Unseen(s7, A) && !Queued(s7, A) && !Finished(s7, A) && s7.pending.None? && s7.active.None?
  {
    assert [A][..0] == [];
    assert OutcomeAll(NO_RETRY, [A], Limits(true, RATE_LIMIT_BACKOFF_MS)).1 == [(A, Throttled)];
    assert DeadIn([(A, Throttled)]) == {};
  }

  // ---------------------------------------------------------------------------------------------
  // A reset while a listing is awaited
  // ---------------------------------------------------------------------------------------------

  /**
   * A cycle waits for the incremental listing when the service is reset. Its continuation sets the
   * watermark again (the step that loses), so the next cycle does not queue the backlog: "b", queued
   * before the reset, is in no queue, not finished, and below the watermark.
   */
  lemma ResetDuringListingLosesBacklog() returns (states: seq<State>, steps: seq<Step>)
    ensures IsRun(states, steps) && |steps| == 4 && steps[2] == Reset && !Clean(states[2], steps[2])
    ensures B in states[3].src && SessionSyncLoss.Loses(states[3], steps[3], B)
    ensures var last := states[4];
      B in last.src && !Unseen(last, B) && !Queued(last, B) && !Finished(last, B)
  {
    hide *;
    var src := map[A := 2, B := 1];
    var rows, newest := [Row(A, 2), Row(B, 1)], [Row(A, 2)];
    var s1, s2 := BacklogListed(Init(src), rows);
    var s3, s4 := BacklogLost(s2, newest);
    states, steps := [Init(src), s1, s2, s3, s4], [Begin, RowsAll(0, rows, 0), Reset, RowsUpdated(0, newest, 0)];
    FourStepRun(src, states, steps);
  }

  lemma FourStepRun(src: map<Id, int>, states: seq<State>, steps: seq<Step>)
    requires |states| == 5 && |steps| == 4 && states[0] == Init(src)
    requires Enabled(states[0], steps[0]) && states[1] == Apply(states[0], steps[0])
    requires Enabled(states[1], steps[1]) && states[2] == Apply(states[1], steps[1])
    requires Enabled(states[2], steps[2]) && states[3] == Apply(states[2], steps[2])
    requires Enabled(states[3], steps[3]) && states[4] == Apply(states[3], steps[3])
    ensures IsRun(states, steps)
  {
    assert states[0] == Init(states[0].src);
    hide Enabled, Apply, Init;
  }

  lemma BacklogListed(s0: State, rows: seq<Row>) returns (s1: State, s2: State)
    requires s0 == Init(map[A := 2, B := 1]) && rows == [Row(A, 2), Row(B, 1)]
    ensures Enabled(s0, Begin) && s1 == Apply(s0, Begin)
    ensures Enabled(s1, RowsAll(0, rows, 0)) && s2 == Apply(s1, RowsAll(0, rows, 0))
    ensures s2.src == map[A := 2, B := 1] && s2.top == Some(2) && s2.atTop == {A} && s2.done == map[] && s2.active == Some(0)
    ensures s2.cycles == map[0 := AwaitUpdated(2, {A})]
  {
    BacklogListing(rows, [Row(A, 2)]);
    hide Lists, LeadingIds, PushAll;
    s1 := Apply(s0, Begin);
    s2 := Apply(s1, RowsAll(0, rows, 0));
  }

  lemma BacklogLost(s2: State, newest: seq<Row>) returns (s3: State, s4: State)
    requires s2.src == map[A := 2, B := 1] && s2.done == map[] && s2.active == Some(0)
    requires s2.cycles == map[0 := AwaitUpdated(2, {A})] && newest == [Row(A, 2)]
    ensures Enabled(s2, Reset) && s3 == Apply(s2, Reset) && !Clean(s2, Reset) && B in s3.src
    ensures Enabled(s3, RowsUpdated(0, newest, 0)) && s4 == Apply(s3, RowsUpdated(0, newest, 0))
    ensures SessionSyncLoss.Loses(s3, RowsUpdated(0, newest, 0), B)
    ensures B in s4.src && !Unseen(s4, B) && !Queued(s4, B) && !Finished(s4, B)
  {
    BacklogListing([Row(A, 2), Row(B, 1)], newest);
    hide Lists, Scan, Pick;
    s3 := Apply(s2, Reset);
    s4 := Apply(s3, RowsUpdated(0, newest, 0));
    ChooseNothing(s3.(top := Some(2), atTop := {A}, incremental := EMPTY), 0, 0);
  }

  lemma ChooseNothing(s: State, k: nat, now: int)
    requires s.incremental == EMPTY && s.backfill == EMPTY
    ensures Choose(s, k, now) == End(s, k)
  {
  }

  lemma BacklogListing(rows: seq<Row>, newest: seq<Row>)
    requires rows == [Row(A, 2), Row(B, 1)] && newest == [Row(A, 2)]
    ensures Lists(map[A := 2, B := 1], rows, None) && Lists(map[A := 2, B := 1], newest, Some(2))
    ensures LeadingIds(rows, 2) == {A} && Scan(newest, 2, {A}, EMPTY) == Cursor(2, {A}, EMPTY)
  {
    assert rows[0].id == A && rows[1].id == B && newest[0].id == A;
    assert Listed(rows, A) && Listed(rows, B) && Listed(newest, A);
    assert LeadingIds(rows[1..], 2) == {};
    assert newest[..0] == [];
  }
}
