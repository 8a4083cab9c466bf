/** Splitting an oversized session into chunks of events under a byte budget. */
module EventChunker {

  /** The JSON text of one event, one character per byte; an object's text has at least two. */
  type EventText = s: string | |s| >= 2 witness "{}"

  /** A session as its JSON text around the events array. */
  datatype Session = Session(before: string, events: seq<EventText>, after: string)

  function Join(events: seq<EventText>): string {
    if events == [] then ""
    else if |events| == 1 then events[0]
    else events[0] + "," + Join(events[1..])
  }

  function Render(s: Session): string {
    s.before + "[" + Join(s.events) + "]" + s.after
  }

  /** estimateSessionPayloadBytes */
  function PayloadBytes(s: Session): nat {
    |Render(s)|
  }

  function Sum(events: seq<EventText>): nat {
    if events == [] then 0 else |events[0]| + Sum(events[1..])
  }

  function Flatten(pieces: seq<seq<EventText>>): seq<EventText> {
    if pieces == [] then [] else pieces[0] + Flatten(pieces[1..])
  }

  /** A piece a chunk may carry: within the budget, or a single event that no piece could hold. */
  predicate Feasible(piece: seq<EventText>, budget: int) {
    piece != [] && (|piece| == 1 || Sum(piece) <= budget)
  }

  ghost predicate FeasibleCut(pieces: seq<seq<EventText>>, events: seq<EventText>, budget: int) {
    Flatten(pieces) == events && forall i | 0 <= i < |pieces| :: Feasible(pieces[i], budget)
  }

  /** No piece could also have held the first event of the next one. */
  ghost predicate Tight(pieces: seq<seq<EventText>>, budget: int) {
    && (forall i | 0 <= i < |pieces| :: pieces[i] != [])
    && forall i | 0 <= i < |pieces| - 1 :: Sum(pieces[i]) + |pieces[i + 1][0]| > budget
  }

  // ---------------------------------------------------------------------------------------------
  // Sizes
  // ---------------------------------------------------------------------------------------------

  lemma {:induction false} JoinLength(events: seq<EventText>)
    ensures |Join(events)| == Sum(events) + (if events == [] then 0 else |events| - 1)
  {
    if |events| > 1 { JoinLength(events[1..]); }
  }

  /** The true length of a chunk: base bytes, event bytes and one separator between events. */
  lemma ChunkLength(s: Session, piece: seq<EventText>)
    requires piece != []
    ensures PayloadBytes(s.(events := piece)) == PayloadBytes(s.(events := [])) + Sum(piece) + |piece| - 1
  {
    JoinLength(piece);
  }

  lemma {:induction false} SumAppend(a: seq<EventText>, b: seq<EventText>)
    ensures Sum(a + b) == Sum(a) + Sum(b)
  {
    if a == [] {
      assert a + b == b;
    } else {
      assert (a + b)[1..] == a[1..] + b;
      SumAppend(a[1..], b);
    }
  }

  lemma {:induction false} FlattenAppend(a: seq<seq<EventText>>, b: seq<seq<EventText>>)
    ensures Flatten(a + b) == Flatten(a) + Flatten(b)
  {
    if a == [] {
      assert a + b == b;
    } else {
      assert (a + b)[1..] == a[1..] + b;
      FlattenAppend(a[1..], b);
    }
  }

  lemma FlattenOne(piece: seq<EventText>)
    ensures Flatten([piece]) == piece
  {
    assert [piece][1..] == [];
  }

  // ---------------------------------------------------------------------------------------------
  // Greedy is optimal
  // ---------------------------------------------------------------------------------------------

  /**
   * A tight cut of a suffix needs no more pieces than any feasible cut of the whole: by induction
   * on the feasible cut, whose first piece cannot reach beyond the first tight piece.
   */
  lemma {:induction false} TightIsMinimal(tight: seq<seq<EventText>>, other: seq<seq<EventText>>, skipped: seq<EventText>, budget: int)
    requires Tight(tight, budget) && forall i | 0 <= i < |other| :: Feasible(other[i], budget)
    requires Flatten(other) == skipped + Flatten(tight)
    ensures |tight| <= |other|
    decreases |other|
  {
    if tight != [] {
      assert other != [] by { assert Flatten(tight) != []; }
      var first, all := other[0], Flatten(other);
      assert all[..|first|] == first && all[|first|..] == Flatten(other[1..]);
      if |first| <= |skipped| {
        assert skipped[|first|..] + Flatten(tight) == all[|first|..];
        TightIsMinimal(tight, other[1..], skipped[|first|..], budget);
      } else {
        NextPiece(tight, budget);
        assert all == skipped + tight[0] + Flatten(tight[1..]);
        FirstPieceIsShort(first, skipped, tight[0], Flatten(tight[1..]), budget);
        var rest := skipped + tight[0];
        assert all == rest + Flatten(tight[1..]);
        assert all[|first|..] == rest[|first|..] + Flatten(tight[1..]);
        TightIsMinimal(tight[1..], other[1..], rest[|first|..], budget);
      }
    }
  }

  lemma FirstPieceIsShort(first: seq<EventText>, skipped: seq<EventText>, piece: seq<EventText>, next: seq<EventText>, budget: int)
    requires Feasible(first, budget) && piece != [] && first <= skipped + piece + next
    requires next != [] ==> Sum(piece) + |next[0]| > budget
    ensures |first| <= |skipped| + |piece|
  {
    if |first| > |skipped| + |piece| {
      PrefixCovers(skipped + piece + next, skipped + piece, next, first);
      CoveringNextIsInfeasible(first, skipped, piece, next[0], budget);
    }
  }

  lemma NextPiece(tight: seq<seq<EventText>>, budget: int)
    requires Tight(tight, budget) && tight != []
    ensures var next := Flatten(tight[1..]);
      Tight(tight[1..], budget) && (next != [] ==> Sum(tight[0]) + |next[0]| > budget)
  {
    if |tight| > 1 { assert Flatten(tight[1..])[0] == tight[1][0]; }
  }

  lemma PrefixCovers(all: seq<EventText>, a: seq<EventText>, next: seq<EventText>, first: seq<EventText>)
    requires all == a + next && first <= all && |first| > |a|
    ensures next != [] && a + [next[0]] <= first
  {
    assert all[..|a| + 1] == a + [next[0]];
  }

  lemma CoveringNextIsInfeasible(first: seq<EventText>, skipped: seq<EventText>, piece: seq<EventText>, next: EventText, budget: int)
    requires piece != [] && skipped + piece + [next] <= first && Sum(piece) + |next| > budget
    ensures !Feasible(first, budget)
  {
    var n := |skipped| + |piece| + 1;
    assert first == (skipped + piece + [next]) + first[n..];
    SumAppend(skipped + piece + [next], first[n..]);
    SumAppend(skipped + piece, [next]);
    SumAppend(skipped, piece);
    assert Sum([next]) == |next|;
  }

  // ---------------------------------------------------------------------------------------------
  // The splitter
  // ---------------------------------------------------------------------------------------------

  function Pieces(chunks: seq<Session>): seq<seq<EventText>> {
    seq(|chunks|, i requires 0 <= i < |chunks| => chunks[i].events)
  }

  /**
   * chunkOversizedSession. With a positive event budget the chunks carry all events in order, each
   * within the budget unless it is a single event, and no feasible cut has fewer pieces.
   */
  method ChunkOversizedSession(session: Session, maxBytes: int) returns (chunks: seq<Session>)
    ensures forall i | 0 <= i < |chunks| :: chunks[i] == session.(events := chunks[i].events)
    ensures var budget := maxBytes - PayloadBytes(session.(events := []));
      if budget <= 0 || session.events == [] then chunks == [session.(events := [])]
      else
        && FeasibleCut(Pieces(chunks), session.events, budget)
        && forall other | FeasibleCut(other, session.events, budget) :: |chunks| <= |other|
  {
    var baseSession := session.(events := []);
    var eventBudget := maxBytes - PayloadBytes(baseSession);
    if eventBudget <= 0 || session.events == [] {
      return [baseSession];
    }
    hide Progress, Feasible, Tight, Flatten, Render, Join;
    chunks := [];
    var currentEvents: seq<EventText> := [];
    var currentBytes := 0;
    var i := 0;
    while i < |session.events|
      invariant 0 <= i <= |session.events|
      invariant currentBytes == Sum(currentEvents)
      invariant if i == 0 then currentEvents == [] && chunks == []
                else Progress(session, eventBudget, chunks, currentEvents, session.events[..i])
    {
      var event := session.events[i];
      NextEvent(session, eventBudget, chunks, currentEvents, session.events[..i], event);
      assert session.events[..i + 1] == session.events[..i] + [event];
      if currentBytes > 0 && currentBytes + |event| > eventBudget {
        chunks := chunks + [session.(events := currentEvents)];
        currentEvents := [];
        currentBytes := 0;
      }
      currentEvents := currentEvents + [event];
      currentBytes := currentBytes + |event|;
      i := i + 1;
    }
    assert session.events[..i] == session.events;
    AllEventsPlaced(session, eventBudget, chunks, currentEvents);
    if currentEvents != [] {
      chunks := chunks + [session.(events := currentEvents)];
    }
  }

  lemma AllEventsPlaced(session: Session, budget: int, chunks: seq<Session>, current: seq<EventText>)
    requires Progress(session, budget, chunks, current, session.events)
    ensures current != []
    ensures var all := chunks + [session.(events := current)];
      && (forall i | 0 <= i < |all| :: all[i] == session.(events := all[i].events))
      && FeasibleCut(Pieces(all), session.events, budget)
      && forall other | FeasibleCut(other, session.events, budget) :: |all| <= |other|
  {
    var all := chunks + [session.(events := current)];
    PushPiece(chunks, session.(events := current), budget);
    forall other | FeasibleCut(other, session.events, budget) ensures |all| <= |other| {
      assert Flatten(other) == [] + Flatten(Pieces(all));
      TightIsMinimal(Pieces(all), other, [], budget);
    }
  }

  /** The state of the loop after at least one event: finished chunks and the chunk being filled hold `done`. */
  ghost predicate Progress(session: Session, budget: int, chunks: seq<Session>, current: seq<EventText>, done: seq<EventText>) {
    && (forall k | 0 <= k < |chunks| :: chunks[k] == session.(events := chunks[k].events))
    && (forall k | 0 <= k < |chunks| :: Feasible(chunks[k].events, budget))
    && Feasible(current, budget)
    && Flatten(Pieces(chunks)) + current == done
    && Tight(Pieces(chunks), budget)
    && (chunks != [] ==> Sum(chunks[|chunks| - 1].events) + |current[0]| > budget)
  }

  /** One turn of the loop. */
  lemma NextEvent(session: Session, budget: int, chunks: seq<Session>, current: seq<EventText>, done: seq<EventText>, event: EventText)
    requires if done == [] then current == [] && chunks == [] else Progress(session, budget, chunks, current, done)
    ensures Sum(current + [event]) == Sum(current) + |event|
    ensures if Sum(current) > 0 && Sum(current) + |event| > budget
            then Progress(session, budget, chunks + [session.(events := current)], [event], done + [event]) && Sum([event]) == |event|
            else Progress(session, budget, chunks, current + [event], done + [event])
  {
    SumAppend(current, [event]);
    assert Sum([event]) == |event|;
    if Sum(current) > 0 && Sum(current) + |event| > budget {
      PushPiece(chunks, session.(events := current), budget);
    } else {
      assert current != [] ==> Sum(current) >= |current[0]|;
      assert Flatten(Pieces(chunks)) + (current + [event]) == Flatten(Pieces(chunks)) + current + [event];
    }
  }

  lemma PushPiece(chunks: seq<Session>, chunk: Session, budget: int)
    requires Tight(Pieces(chunks), budget) && chunk.events != []
    requires chunks != [] ==> Sum(chunks[|chunks| - 1].events) + |chunk.events[0]| > budget
    ensures Pieces(chunks + [chunk]) == Pieces(chunks) + [chunk.events]
    ensures Tight(Pieces(chunks + [chunk]), budget)
    ensures Flatten(Pieces(chunks + [chunk])) == Flatten(Pieces(chunks)) + chunk.events
  {
    var p := Pieces(chunks);
    assert Pieces(chunks + [chunk]) == p + [chunk.events];
    FlattenAppend(p, [chunk.events]);
    FlattenOne(chunk.events);
  }

  /** A chunk really fits the cap exactly when its separators fit the budget as well. */
  lemma FitsCapIff(session: Session, piece: seq<EventText>, maxBytes: int)
    requires piece != []
    ensures PayloadBytes(session.(events := piece)) <= maxBytes
       <==> Sum(piece) + |piece| - 1 <= maxBytes - PayloadBytes(session.(events := []))
  {
    ChunkLength(session, piece);
  }

  /** The separators are not counted, so a chunk can exceed the cap although every event is small. */
  method CapExceeded() returns (session: Session, maxBytes: int, chunks: seq<Session>)
    ensures forall i | 0 <= i < |session.events| :: PayloadBytes(session.(events := [session.events[i]])) < maxBytes
    ensures |chunks| == 1 && PayloadBytes(chunks[0]) == maxBytes + 1
  {
    session := Session("", ["{}", "{}"], "");
    maxBytes := PayloadBytes(session.(events := [])) + 4;
    chunks := ChunkOversizedSession(session, maxBytes);
    assert Flatten([session.events]) == session.events by { FlattenOne(session.events); }
    assert Sum(session.events) == |session.events[0]| + Sum(session.events[1..]) == 4;
    assert FeasibleCut([session.events], session.events, 4);
    assert Pieces(chunks) == [chunks[0].events];
    FlattenOne(chunks[0].events);
    ChunkLength(session, session.events);
    ChunkLength(session, ["{}"]);
    assert Sum(["{}"]) == 2;
  }
}
