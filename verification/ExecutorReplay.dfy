/** The executor together with the receiver of its events: delivery over an unreliable connection. */
module ExecutorReplay {
  import opened Prelude
  import opened CommandTypes
  import opened ExecutorModel
  import opened ExecutorSafety
  import opened ExecutorRuns

  // ---------------------------------------------------------------------------------------------
  // What a step does to histories and acknowledgements
  // ---------------------------------------------------------------------------------------------

  /** Histories only grow, and what has been acknowledged stays what it was. */
  ghost predicate Grows(s: State, s': State) {
    && |s.log| <= |s'.log|
    && (forall a | 0 <= a < |s.log| :: s'.log[a].command == s.log[a].command && s.log[a].history <= s'.log[a].history)
    && (forall id | id in s'.tracked ::
          || (id in s.tracked && s'.tracked[id].ticket == s.tracked[id].ticket && s'.tracked[id].lastAcked == s.tracked[id].lastAcked)
          || (s'.tracked[id].ticket >= |s.log| && s'.tracked[id].lastAcked == 0))
  }

  /** Emitting appends to one history at most, and touches neither tickets nor acknowledgements. */
  lemma EmitLog(s: State, id: Id, e: Event, now: int)
    ensures var s' := EmitAndMark(s, id, e, now);
      && s'.tracked.Keys == s.tracked.Keys
      && (forall x | x in s.tracked ::
            s'.tracked[x].ticket == s.tracked[x].ticket && s'.tracked[x].lastAcked == s.tracked[x].lastAcked)
      && s'.log == if Live(s, id) then Record(s.log, s.tracked[id].ticket, e) else s.log
  {
  }

  lemma RecordGrows(log: seq<Entry>, n: nat, e: Event)
    ensures |Record(log, n, e)| == |log|
    ensures forall a | 0 <= a < |log| :: Record(log, n, e)[a].command == log[a].command && log[a].history <= Record(log, n, e)[a].history
  {
  }

  lemma EmitGrows(s: State, id: Id, e: Event, now: int)
    ensures Grows(s, EmitAndMark(s, id, e, now))
  {
    hide EmitAndMark, Record;
    EmitLog(s, id, e, now);
    if Live(s, id) {
      RecordGrows(s.log, s.tracked[id].ticket, e);
    }
  }

  lemma ExecuteGrows(s: State, c: Command)
    ensures Grows(s, Execute(s, c))
  {
  }

  lemma GrowsNot(s: State)
    ensures Grows(s, s)
  {
  }

  lemma GrowsFrom(s: State, s1: State, s': State)
    requires s1 == s.(queue := s1.queue) && Grows(s1, s')
    ensures Grows(s, s')
  {
  }

  lemma GrowsOn(a: State, b: State, c: State)
    requires Grows(a, b) && Grows(b, c)
    ensures Grows(a, c)
  {
  }

  lemma {:induction false} FillGrows(s: State)
    ensures Grows(s, Fill(s))
    decreases |s.queue|
  {
    hide Execute, Grows;
    GrowsNot(s);
    if CanStart(s) {
      var i := FirstFree(s.queue, s.lockOwners);
      var s1 := s.(queue := RemoveAt(s.queue, i));
      ExecuteKeepsQueue(s1, s.queue[i]);
      ExecuteGrows(s1, s.queue[i]);
      GrowsFrom(s, s1, StartAt(s, i));
      FillGrows(StartAt(s, i));
      GrowsOn(s, StartAt(s, i), Fill(StartAt(s, i)));
    }
  }

  lemma AddGrows(s: State, c: Command)
    ensures Grows(s, AddCommand(s, c))
  {
  }

  lemma EnqueueGrows(s: State, c: Command, rejection: Option<string>, removed: set<Id>)
    ensures Grows(s, Enqueue(s, c, rejection, removed))
  {
    hide Fill, AddCommand, Resend, ValidateCommand;
    var s0 := s.(tracked := s.tracked - removed);
    AddGrows(s0, c);
    FillGrows(AddCommand(s0, c));
    EnqueueIs(s, c, rejection, removed);
    hide Enqueue;
  }

  lemma FinishGrows(s: State, n: nat, ending: Ending, now: int)
    requires n in s.runs
    ensures Grows(s, Finish(s, n, ending, now))
  {
    hide Fill, EmitAndMark;
    EmitGrows(s, s.runs[n].id, ClosingEvent(s.runs[n], ending), now);
    EmitFrame(s, s.runs[n].id, ClosingEvent(s.runs[n], ending), now);
    FillGrows(Release(Closed(s, n, ending, now), n));
  }

  /** Every step except an acknowledgement. */
  lemma StepGrows(s: State, step: Step)
    requires Enabled(s, step) && !step.AckStep?
    ensures Grows(s, Apply(s, step))
  {
    hide Fill, EmitAndMark, Enqueue, Finish, Resend;
    match step
    case SetConnected(on) => FillGrows(s.(connected := on));
    case EnqueueStep(c, rejection, removed, _) => EnqueueGrows(s, c, rejection, removed);
    case CancelStep(id, reason, now) =>
      var i := IndexOf(s.queue, id);
      if i < |s.queue| { EmitGrows(s.(queue := RemoveAt(s.queue, i)), id, CancelledDone(reason), now); }
    case ReplayStep(id, after) =>
    case TimeoutStep(n) =>
    case LineStep(n, e, now) => EmitGrows(s, s.runs[n].id, e, now);
    case ReplyStep(n, status, ok, data, now) =>
      EmitGrows(s, s.runs[n].id, ReplyEvent(status, ok, data), now);
      EmitGrows(EmitAndMark(s, s.runs[n].id, ReplyEvent(status, ok, data), now), s.runs[n].id, PLAIN_DONE, now);
    case CloseStep(n, _, now) => EmitGrows(s, s.runs[n].id, PLAIN_DONE, now);
    case FinishStep(n, ending, now) => FinishGrows(s, n, ending, now);
  }

  // ---------------------------------------------------------------------------------------------
  // The receiver
  // ---------------------------------------------------------------------------------------------

  /** The receiver keeps, for each accepted command, the events it has taken in order. */
  function Receive(got: seq<Event>, rec: Rec): seq<Event> {
    if rec.sequence == |got| + 1 then got + [rec.event] else got
  }

  function ReceiveAll(got: seq<Event>, messages: seq<Message>): seq<Event>
    decreases |messages|
  {
    if messages == [] then got
    else ReceiveAll(if messages[0].EventSent? then Receive(got, messages[0].rec) else got, messages[1..])
  }

  /** `got[a]` is what the receiver holds of the `a`-th accepted command. */
  datatype System = System(ex: State, got: seq<seq<Event>>)

  /**
   * The connection may lose, delay, repeat or reorder what was sent: any emitted event may arrive at
   * any later time, any number of times, or never. The receiver acknowledges only what it holds, and
   * on reconnection asks to resume after what it holds.
   */
  datatype NetStep =
    | Local(step: Step)
    | Deliver(a: nat, index: nat)
    | Acknowledges(id: Id, sequence: nat)
    | Resume(id: Id)

  ghost predicate NetEnabled(w: System, step: NetStep) {
    match step
    case Local(local) => Enabled(w.ex, local) && Clean(w.ex, local) && !local.AckStep?
    case Deliver(a, index) => a < |w.ex.log| && a < |w.got| && index < |w.ex.log[a].history|
    case Acknowledges(id, sequence) =>
      id in w.ex.tracked ==> w.ex.tracked[id].ticket < |w.got| && sequence <= |w.got[w.ex.tracked[id].ticket]|
    case Resume(id) => id in w.ex.tracked && w.ex.tracked[id].ticket < |w.got|
  }

  function Pad(got: seq<seq<Event>>, size: nat): seq<seq<Event>>
    ensures |Pad(got, size)| == Max(|got|, size)
    ensures got <= Pad(got, size)
    ensures forall a | |got| <= a < |Pad(got, size)| :: Pad(got, size)[a] == []
    decreases size - |got|
  {
    if |got| < size then Pad(got + [[]], size) else got
  }

  /** What the executor sends when asked to resume a command after the receiver's last event. */
  function Resent(w: System, id: Id): seq<Message>
    requires id in w.ex.tracked && w.ex.tracked[id].ticket < |w.got|
  {
    Resend(id, w.ex.tracked[id].buffer, |w.got[w.ex.tracked[id].ticket]|)
  }

  ghost function NetApply(w: System, step: NetStep): System
    requires NetEnabled(w, step)
  {
    match step
    case Local(local) =>
      var ex := Apply(w.ex, local);
      System(ex, Pad(w.got, |ex.log|))
    case Deliver(a, index) =>
      w.(got := w.got[a := Receive(w.got[a], Rec(index + 1, w.ex.log[a].history[index]))])
    case Acknowledges(id, sequence) => w.(ex := Acknowledge(w.ex, id, sequence))
    case Resume(id) =>
      var a := w.ex.tracked[id].ticket;
      System(ReplayBuffered(w.ex, id, |w.got[a]|), w.got[a := ReceiveAll(w.got[a], Resent(w, id))])
  }

  /** The receiver holds a prefix of each history, and nothing beyond that prefix is acknowledged. */
  ghost predicate NetInv(w: System) {
    && Inv(w.ex)
    && |w.got| == |w.ex.log| && HoldsPrefixes(w.got, w.ex.log)
    && CoversAcked(w.got, w.ex.tracked)
  }

  ghost predicate HoldsPrefixes(got: seq<seq<Event>>, log: seq<Entry>) {
    forall a | 0 <= a < |got| && a < |log| :: got[a] <= log[a].history
  }

  ghost predicate CoversAcked(got: seq<seq<Event>>, tracked: map<Id, Tracked>) {
    forall id | id in tracked && tracked[id].ticket < |got| :: tracked[id].lastAcked <= |got[tracked[id].ticket]|
  }

  /** Replaying the buffer after sequence `r` sends exactly the events after the `r`-th, in order. */
  lemma {:induction false} ResendIs(id: Id, buffer: seq<Rec>, h: seq<Event>, base: nat, r: nat)
    requires base + |buffer| == |h| && base <= r <= |h|
    requires forall j | 0 <= j < |buffer| :: buffer[j] == Rec(base + j + 1, h[base + j])
    ensures |Resend(id, buffer, r)| == |h| - r
    ensures forall j | 0 <= j < |h| - r :: Resend(id, buffer, r)[j] == EventSent(id, Rec(r + j + 1, h[r + j]))
    decreases |buffer|
  {
    if buffer != [] {
      if r == base {
        ResendAllIs(id, buffer, h, base, r);
      } else {
        ResendIs(id, buffer[1..], h, base + 1, r);
      }
    }
  }

  lemma {:induction false} ResendAllIs(id: Id, buffer: seq<Rec>, h: seq<Event>, base: nat, r: nat)
    requires base + |buffer| == |h| && r <= base
    requires forall j | 0 <= j < |buffer| :: buffer[j] == Rec(base + j + 1, h[base + j])
    ensures |Resend(id, buffer, r)| == |buffer|
    ensures forall j | 0 <= j < |buffer| :: Resend(id, buffer, r)[j] == EventSent(id, Rec(base + j + 1, h[base + j]))
    decreases |buffer|
  {
    if buffer != [] {
      ResendAllIs(id, buffer[1..], h, base + 1, r);
    }
  }

  lemma {:induction false} ReceiveSuffix(got: seq<Event>, messages: seq<Message>, h: seq<Event>, id: Id)
    requires got <= h && |messages| == |h| - |got|
    requires forall j | 0 <= j < |messages| :: messages[j] == EventSent(id, Rec(|got| + j + 1, h[|got| + j]))
    ensures ReceiveAll(got, messages) == h
    decreases |messages|
  {
    if messages != [] {
      assert messages[0] == EventSent(id, Rec(|got| + 1, h[|got|]));
      ReceiveSuffix(got + [h[|got|]], messages[1..], h, id);
    }
  }

  /** What the invariant says of one command: the buffer ends the history, the receiver holds a prefix that covers what is acknowledged. */
  lemma DeliveredSoFar(w: System, id: Id)
    requires NetInv(w) && id in w.ex.tracked
    ensures var t := w.ex.tracked[id];
      && t.ticket < |w.got| == |w.ex.log|
      && BufferOk(t, w.ex.log[t.ticket].history)
      && w.got[t.ticket] <= w.ex.log[t.ticket].history && t.lastAcked <= |w.got[t.ticket]|
  {
    hide QueueOk, FlightOk, TrackedOk, LocksOk, FifoOk, AccountedOk, EndsOk, BufferOk, PhaseOk;
  }

  /** A resume sends exactly the events the receiver lacks, in order, and completes it. */
  lemma ResumeCompletes(w: System, id: Id)
    requires NetInv(w) && NetEnabled(w, Resume(id))
    ensures SendsMissing(w, id) && NetApply(w, Resume(id)).got == Completed(w, id)
  {
    hide Resend, ReplayBuffered, ReceiveAll, NetInv, Resent, Enabled, Clean, Apply, Acknowledge;
    DeliveredSoFar(w, id);
    ResentIs(w, id);
    hide BufferOk;
    assert NetApply(w, Resume(id)).got == w.got[w.ex.tracked[id].ticket := ReceiveAll(w.got[w.ex.tracked[id].ticket], Resent(w, id))];
  }

  /** What is sent to a resuming receiver is exactly what it lacks, numbered and in order. */
  ghost predicate SendsMissing(w: System, id: Id)
    requires id in w.ex.tracked && w.ex.tracked[id].ticket < |w.got|
  {
    var a := w.ex.tracked[id].ticket;
    && a < |w.ex.log|
    && var h, r := w.ex.log[a].history, |w.got[a]|;
    && |Resent(w, id)| == |h| - r
    && forall j | 0 <= j < |h| - r :: Resent(w, id)[j] == EventSent(id, Rec(r + j + 1, h[r + j]))
  }

  /** The receiver's histories with that of this command complete. */
  ghost function Completed(w: System, id: Id): seq<seq<Event>>
    requires id in w.ex.tracked && w.ex.tracked[id].ticket < |w.got|
  {
    var a := w.ex.tracked[id].ticket;
    if a < |w.ex.log| then w.got[a := w.ex.log[a].history] else w.got
  }

  lemma ResentIs(w: System, id: Id)
    requires NetInv(w) && id in w.ex.tracked && w.ex.tracked[id].ticket < |w.got| == |w.ex.log|
    ensures var a := w.ex.tracked[id].ticket;
      var h, r := w.ex.log[a].history, |w.got[a]|;
      && r <= |h| && |Resent(w, id)| == |h| - r
      && (forall j | 0 <= j < |h| - r :: Resent(w, id)[j] == EventSent(id, Rec(r + j + 1, h[r + j])))
      && ReceiveAll(w.got[a], Resent(w, id)) == h
  {
    hide Resend, ReceiveAll, NetInv;
    var t := w.ex.tracked[id];
    DeliveredSoFar(w, id);
    var h, got := w.ex.log[t.ticket].history, w.got[t.ticket];
    ResendIs(id, t.buffer, h, |h| - |t.buffer|, |got|);
    ReceiveSuffix(got, Resent(w, id), h, id);
  }

  /** Re-enqueueing a finished command sends its whole buffer again, which completes the receiver too. */
  lemma ReenqueueCompletes(w: System, id: Id)
    requires NetInv(w) && id in w.ex.tracked && w.ex.tracked[id].phase.Terminal?
    ensures var t := w.ex.tracked[id];
      t.ticket < |w.got| && ReceiveAll(w.got[t.ticket], Resend(id, t.buffer, 0)) == w.ex.log[t.ticket].history
  {
    hide NetInv, Resend, ReceiveAll;
    DeliveredSoFar(w, id);
    var t := w.ex.tracked[id];
    var h, got := w.ex.log[t.ticket].history, w.got[t.ticket];
    ResendAllIs(id, t.buffer, h, |h| - |t.buffer|, 0);
    ReceiveOverlap(got, Resend(id, t.buffer, 0), h, |h| - |t.buffer|, id);
  }

  lemma {:induction false} ReceiveOverlap(got: seq<Event>, messages: seq<Message>, h: seq<Event>, base: nat, id: Id)
    requires base + |messages| == |h| && base <= |got| && got <= h
    requires forall j | 0 <= j < |messages| :: messages[j] == EventSent(id, Rec(base + j + 1, h[base + j]))
    ensures ReceiveAll(got, messages) == h
    decreases |messages|
  {
    if base == |got| {
      ReceiveSuffix(got, messages, h, id);
    } else {
      assert messages[0].rec.sequence == base + 1;
      ReceiveOverlap(got, messages[1..], h, base + 1, id);
    }
  }

  lemma LocalKeepsNet(w: System, step: Step)
    requires NetInv(w) && NetEnabled(w, Local(step))
    ensures NetInv(NetApply(w, Local(step)))
  {
    hide QueueOk, FlightOk, LocksOk, FifoOk, AccountedOk, HistoryOk, EndsOk, Apply;
    StepKeepsInv(w.ex, step);
    StepGrows(w.ex, step);
    var w' := NetApply(w, Local(step));
    forall id | id in w'.ex.tracked && w'.ex.tracked[id].ticket < |w'.got|
      ensures w'.ex.tracked[id].lastAcked <= |w'.got[w'.ex.tracked[id].ticket]|
    {
      var a := w'.ex.tracked[id].ticket;
      if a < |w.got| { assert id in w.ex.tracked && w.ex.tracked[id].ticket == a; }
    }
  }

  lemma NetStepKeepsInv(w: System, step: NetStep)
    requires NetInv(w) && NetEnabled(w, step)
    ensures NetInv(NetApply(w, step))
  {
    match step
    case Local(local) => LocalKeepsNet(w, local);
    case Deliver(a, index) => DeliverKeepsNet(w, a, index);
    case Acknowledges(id, sequence) => AckKeepsNet(w, id, sequence);
    case Resume(id) => ResumeKeepsNet(w, id);
  }

  lemma DeliverKeepsNet(w: System, a: nat, index: nat)
    requires NetInv(w) && NetEnabled(w, Deliver(a, index))
    ensures NetInv(NetApply(w, Deliver(a, index)))
  {
    hide Inv;
  }

  lemma AckKeepsNet(w: System, id: Id, sequence: nat)
    requires NetInv(w) && NetEnabled(w, Acknowledges(id, sequence))
    ensures NetInv(NetApply(w, Acknowledges(id, sequence)))
  {
    hide Inv, Acknowledge, KeepAfter, HoldsPrefixes, Apply, Enabled, Clean, Pad, Resent, ReceiveAll, Receive, ReplayBuffered;
    AckKeepsInv(w.ex, id, sequence);
    if id in w.ex.tracked {
      AckIs(w.ex, id, sequence);
    } else {
      UnknownAck(w.ex, id, sequence);
    }
  }

  lemma ResumeKeepsNet(w: System, id: Id)
    requires NetInv(w) && NetEnabled(w, Resume(id))
    ensures NetInv(NetApply(w, Resume(id)))
  {
    hide Inv, Apply, Enabled, Clean, Pad, Resent, Resend, ReceiveAll, Receive, ReplayBuffered, Acknowledge;
    ResumeCompletes(w, id);
    ResendKeepsInv(w.ex, id, |w.got[w.ex.tracked[id].ticket]|);
    DeliveredSoFar(w, id);
    hide BufferOk;
    var a, w' := w.ex.tracked[id].ticket, NetApply(w, Resume(id));
    assert w'.got == w.got[a := w.ex.log[a].history];
    ReceiverGrows(w.got, w'.got, w.ex.tracked);
  }

  lemma ReceiverGrows(got: seq<seq<Event>>, got': seq<seq<Event>>, tracked: map<Id, Tracked>)
    requires CoversAcked(got, tracked) && |got'| == |got| && forall a | 0 <= a < |got| :: got[a] <= got'[a]
    ensures CoversAcked(got', tracked)
  {
  }

  // ---------------------------------------------------------------------------------------------
  // A late acknowledgement
  // ---------------------------------------------------------------------------------------------

  /** Nothing is taken in when the next event is missing. */
  lemma {:induction false} ReceiveGap(got: seq<Event>, messages: seq<Message>)
    requires forall j | 0 <= j < |messages| :: messages[j].EventSent? && messages[j].rec.sequence > |got| + 1
    ensures ReceiveAll(got, messages) == got
    decreases |messages|
  {
    if messages != [] {
      ReceiveGap(got, messages[1..]);
    }
  }

  /** Resuming from a buffer that starts after `base` completes the receiver exactly when it starts no later than what is missing. */
  lemma ResumeFromIff(id: Id, buffer: seq<Rec>, h: seq<Event>, base: nat, got: seq<Event>)
    requires base + |buffer| == |h| && got <= h
    requires forall j | 0 <= j < |buffer| :: buffer[j] == Rec(base + j + 1, h[base + j])
    ensures ReceiveAll(got, Resend(id, buffer, |got|)) == h <==> base <= |got|
  {
    if base <= |got| {
      ResendIs(id, buffer, h, base, |got|);
      ReceiveSuffix(got, Resend(id, buffer, |got|), h, id);
    } else {
      ResendAllIs(id, buffer, h, base, |got|);
      ReceiveGap(got, Resend(id, buffer, |got|));
    }
  }

  /**
   * An acknowledgement names a command by its id alone, so one sent for a forgotten command can reach
   * a later command with the same id, whatever its receiver holds. A resume after it still completes
   * the receiver exactly when the command is finished, the sequence is not beyond what the receiver
   * holds, or the receiver lacks nothing; else it drops unseen events.
   */
  lemma LateAckCompletesIff(w: System, id: Id, sequence: nat)
    requires NetInv(w) && id in w.ex.tracked
    ensures var t := w.ex.tracked[id];
      var acked := Acknowledge(w.ex, id, sequence).tracked[id];
      && t.ticket < |w.got| == |w.ex.log|
      && var got, h := w.got[t.ticket], w.ex.log[t.ticket].history;
      (ReceiveAll(got, Resend(id, acked.buffer, |got|)) == h
       <==> t.phase.Terminal? || sequence <= |got| || |got| == |h|)
  {
    hide NetInv, Resend, ReceiveAll, KeepAfter;
    DeliveredSoFar(w, id);
    AckIs(w.ex, id, sequence);
    var t := w.ex.tracked[id];
    var h, got, base := w.ex.log[t.ticket].history, w.got[t.ticket], |w.ex.log[t.ticket].history| - |t.buffer|;
    if t.phase.Terminal? {
      ResumeFromIff(id, t.buffer, h, base, got);
    } else {
      var acked := Max(t.lastAcked, sequence) as nat;
      var k := if acked <= base then 0 else Min(acked - base, |t.buffer|);
      KeepAfterIs(t.buffer, base, acked);
      ResumeFromIff(id, t.buffer[k..], h, base + k, got);
    }
  }

  /** It keeps what replay relies on exactly when its sequence is not beyond what the receiver holds. */
  lemma LateAckKeepsInvIff(w: System, id: Id, sequence: nat)
    requires NetInv(w) && id in w.ex.tracked
    ensures var t := w.ex.tracked[id];
      t.ticket < |w.got| && (NetInv(w.(ex := Acknowledge(w.ex, id, sequence))) <==> sequence <= |w.got[t.ticket]|)
  {
    hide Inv, BufferOk, Acknowledge, KeepAfter, HoldsPrefixes;
    DeliveredSoFar(w, id);
    AckKeepsInv(w.ex, id, sequence);
    AckIs(w.ex, id, sequence);
    CoversIff(w.got, w.ex.tracked, id, Acked(w.ex.tracked[id], sequence));
  }

  lemma CoversIff(got: seq<seq<Event>>, tracked: map<Id, Tracked>, id: Id, t: Tracked)
    requires CoversAcked(got, tracked) && id in tracked && t.ticket == tracked[id].ticket < |got|
    ensures CoversAcked(got, tracked[id := t]) <==> t.lastAcked <= |got[t.ticket]|
  {
    assert t.lastAcked <= |got[t.ticket]| || !CoversAcked(got, tracked[id := t]) by {
      var tracked' := tracked[id := t];
      assert id in tracked' && tracked'[id] == t;
    }
  }

  ghost predicate IsNetRun(ws: seq<System>, steps: seq<NetStep>) {
    && |ws| == |steps| + 1
    && ws[0] == System(Init(ws[0].ex.maxInFlight), [])
    && forall i | 0 <= i < |steps| :: NetEnabled(ws[i], steps[i]) && ws[i + 1] == NetApply(ws[i], steps[i])
  }

  lemma {:induction false} NetRunKeepsInv(ws: seq<System>, steps: seq<NetStep>, k: nat)
    requires IsNetRun(ws, steps) && k < |ws|
    ensures NetInv(ws[k])
  {
    hide Inv, NetApply;
    if k == 0 {
      InitInv(ws[0].ex.maxInFlight);
    } else {
      NetRunKeepsInv(ws, steps, k - 1);
      NetStepKeepsInv(ws[k - 1], steps[k - 1]);
    }
  }

  /**
   * Over every interleaving of emissions, losses, late and repeated deliveries, acknowledgements and
   * resumes: the receiver always holds a prefix of the true history of each command, and right after
   * a resume it holds all of it.
   */
  lemma ReplayReconstructsHistory(ws: seq<System>, steps: seq<NetStep>, k: nat)
    requires IsNetRun(ws, steps) && k < |ws|
    ensures |ws[k].got| == |ws[k].ex.log|
    ensures forall a | 0 <= a < |ws[k].got| :: ws[k].got[a] <= ws[k].ex.log[a].history
    ensures k > 0 && steps[k - 1].Resume? ==>
      var id := steps[k - 1].id;
      && id in ws[k].ex.tracked && ws[k].ex.tracked[id].ticket < |ws[k].got|
      && ws[k].got[ws[k].ex.tracked[id].ticket] == ws[k].ex.log[ws[k].ex.tracked[id].ticket].history
  {
    hide Inv;
    NetRunKeepsInv(ws, steps, k);
    if k > 0 && steps[k - 1].Resume? {
      NetRunKeepsInv(ws, steps, k - 1);
      ResumeCompletes(ws[k - 1], steps[k - 1].id);
    }
  }

  /** In every reachable state the buffer is the tail of the history that starts no later than just after the acknowledged part. */
  lemma BufferIsSuffix(states: seq<State>, steps: seq<Step>, k: nat, id: Id)
    requires CleanRun(states, steps) && k < |states| && id in states[k].tracked
    ensures var t := states[k].tracked[id];
      && t.ticket < |states[k].log|
      && var h := states[k].log[t.ticket].history;
      && t.lastEmitted == |h| && |t.buffer| <= |h| && |h| - |t.buffer| <= t.lastAcked
      && (forall j | 0 <= j < |t.buffer| :: t.buffer[j] == Rec(|h| - |t.buffer| + j + 1, h[|h| - |t.buffer| + j]))
  {
    RunKeepsInv(states, steps, k);
    assert BufferOk(states[k].tracked[id], states[k].log[states[k].tracked[id].ticket].history);
  }
}
