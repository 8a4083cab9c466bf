/**
 * Reading a gateway stream across awaits: between two reads, and even between two lines, anything may
 * happen to other commands, but the history of the streaming command depends on the text alone.
 */
module ExecutorStreams {
  import opened Prelude
  import opened CommandTypes
  import opened CloudCommandExecutor
  import opened ExecutorModel
  import opened ExecutorRuns
  import opened ExecutorHistory
  import Lines

  /** The unfinished line carried into read `i`. */
  function Carried(pieces: seq<string>, i: nat): string
    requires i <= |pieces|
  {
    if i == 0 then "" else Lines.Rest(Carried(pieces, i - 1) + pieces[i - 1])
  }

  /** The events of read `i`: those of the lines it completes, and after the last read that of the trailing line. */
  function EventsOfRead(parse: string -> Option<Json>, pieces: seq<string>, i: nat): seq<Event>
    requires i <= |pieces|
  {
    if i < |pieces| then LineEvents(parse, Lines.Complete(Carried(pieces, i) + pieces[i]))
    else LineEvents(parse, [Carried(pieces, i)])
  }

  /** In the steps from `cuts[i]` up to `cuts[i + 1]`, with any steps of others in between, `n` processes read `i`. */
  ghost predicate ReadsAt(steps: seq<Step>, n: nat, parse: string -> Option<Json>, pieces: seq<string>, cuts: seq<nat>, i: nat)
    requires i <= |pieces| && |cuts| == |pieces| + 2
  {
    && cuts[i] <= cuts[i + 1] <= |steps|
    && LinesOf(steps[cuts[i]..cuts[i + 1]], n) == EventsOfRead(parse, pieces, i)
  }

  /** Execution `n` reads these pieces, one after the other. */
  ghost predicate Reads(steps: seq<Step>, n: nat, parse: string -> Option<Json>, pieces: seq<string>, cuts: seq<nat>) {
    && |cuts| == |pieces| + 2
    && forall i | 0 <= i <= |pieces| :: ReadsAt(steps, n, parse, pieces, cuts, i)
  }

  lemma {:induction false} LinesOfAppend(a: seq<Step>, b: seq<Step>, n: nat)
    ensures LinesOf(a + b, n) == LinesOf(a, n) + LinesOf(b, n)
  {
    if b == [] {
      assert a + b == a;
    } else {
      assert (a + b)[..|a + b| - 1] == a + b[..|b| - 1];
      LinesOfAppend(a, b[..|b| - 1], n);
    }
  }

  /** The carried line is what follows the last newline of everything read. */
  lemma {:induction false} CarriedIsRest(pieces: seq<string>, i: nat)
    requires i <= |pieces|
    ensures Carried(pieces, i) == Lines.Rest(Lines.Concat(pieces[..i]))
  {
    if i > 0 {
      CarriedIsRest(pieces, i - 1);
      assert pieces[..i][..i - 1] == pieces[..i - 1];
      Lines.FrameAppend(Lines.Concat(pieces[..i - 1]), pieces[i - 1]);
    }
  }

  lemma {:induction false} CutsRise(steps: seq<Step>, n: nat, parse: string -> Option<Json>, pieces: seq<string>, cuts: seq<nat>, i: nat)
    requires Reads(steps, n, parse, pieces, cuts) && i <= |pieces| + 1
    ensures cuts[0] <= cuts[i] <= |steps|
  {
    hide LinesOf, EventsOfRead;
    if i > 0 {
      CutsRise(steps, n, parse, pieces, cuts, i - 1);
      assert ReadsAt(steps, n, parse, pieces, cuts, i - 1);
    } else {
      assert ReadsAt(steps, n, parse, pieces, cuts, 0);
    }
  }

  /** The lines of the first `i` reads are those of the text they bring. */
  lemma {:induction false} LinesOfReads(steps: seq<Step>, n: nat, parse: string -> Option<Json>, pieces: seq<string>,
                                        cuts: seq<nat>, i: nat)
    requires Reads(steps, n, parse, pieces, cuts) && i <= |pieces|
    ensures cuts[0] <= cuts[i] <= |steps|
    ensures LinesOf(steps[cuts[0]..cuts[i]], n) == LineEvents(parse, Lines.Complete(Lines.Concat(pieces[..i])))
  {
    hide LineEvents, LinesOf;
    CutsRise(steps, n, parse, pieces, cuts, i);
    if i == 0 {
      assert steps[cuts[0]..cuts[0]] == [] && pieces[..0] == [];
      NoEvents(parse, n);
    } else {
      LinesOfReads(steps, n, parse, pieces, cuts, i - 1);
      var before, piece := Lines.Concat(pieces[..i - 1]), pieces[i - 1];
      CarriedIsRest(pieces, i - 1);
      assert ReadsAt(steps, n, parse, pieces, cuts, i - 1);
      assert EventsOfRead(parse, pieces, i - 1) == LineEvents(parse, Lines.Complete(Lines.Rest(before) + piece));
      assert steps[cuts[0]..cuts[i]] == steps[cuts[0]..cuts[i - 1]] + steps[cuts[i - 1]..cuts[i - 1 + 1]];
      LinesOfAppend(steps[cuts[0]..cuts[i - 1]], steps[cuts[i - 1]..cuts[i]], n);
      assert pieces[..i][..i - 1] == pieces[..i - 1];
      Lines.FrameAppend(before, piece);
      LineEventsAppend(parse, Lines.Complete(before), Lines.Complete(Lines.Rest(before) + piece));
    }
  }

  lemma NoEvents(parse: string -> Option<Json>, n: nat)
    ensures LinesOf([], n) == [] && LineEvents(parse, Lines.Complete(Lines.Concat([]))) == []
  {
  }

  /** However the text is cut into reads and the reads into steps, the lines are those of the whole text. */
  lemma ReadsAreSplit(steps: seq<Step>, n: nat, parse: string -> Option<Json>, pieces: seq<string>, cuts: seq<nat>)
    requires Reads(steps, n, parse, pieces, cuts)
    ensures cuts[0] <= cuts[|pieces| + 1] <= |steps|
    ensures LinesOf(steps[cuts[0]..cuts[|pieces| + 1]], n) == LineEvents(parse, Lines.Split(Lines.Concat(pieces)))
  {
    var m := |pieces|;
    hide LineEvents, LinesOf;
    CutsRise(steps, n, parse, pieces, cuts, m + 1);
    LinesOfReads(steps, n, parse, pieces, cuts, m);
    CarriedIsRest(pieces, m);
    assert pieces[..m] == pieces;
    var text := Lines.Concat(pieces);
    assert ReadsAt(steps, n, parse, pieces, cuts, m);
    assert EventsOfRead(parse, pieces, m) == LineEvents(parse, [Lines.Rest(text)]);
    assert steps[cuts[0]..cuts[m + 1]] == steps[cuts[0]..cuts[m]] + steps[cuts[m]..cuts[m + 1]];
    LinesOfAppend(steps[cuts[0]..cuts[m]], steps[cuts[m]..cuts[m + 1]], n);
    LineEventsAppend(parse, Lines.Complete(text), [Lines.Rest(text)]);
  }

  /**
   * A completed stream of reads, interleaved with any steps of other commands, cancellations,
   * acknowledgements and replays: for ever after, the history is the running status, the events of
   * the lines of the whole text up to the first terminal one, and a `done` if there was none.
   */
  lemma CompletedReads(states: seq<State>, steps: seq<Step>, m: nat, n: nat,
                       parse: string -> Option<Json>, pieces: seq<string>, cuts: seq<nat>)
    requires Reads(steps, n, parse, pieces, cuts)
    requires var lo, hi := cuts[0], cuts[|pieces| + 1];
      && lo <= hi < m < |states| == |steps| + 1 && CleanRun(states, steps)
      && n in states[lo].runs && n < |states[lo].log|
      && states[lo].log[n].history == [RunningStatus(states[lo].log[n].command)]
      && OnlyStreams(steps, lo, hi, n)
      && steps[hi].CloseStep? && steps[hi].ticket == n
      && (steps[hi].emittedTerminal <==> AnyTerminal(LinesOf(steps[lo..hi], n)))
    ensures n < |states[m].log|
    ensures states[m].log[n].history
         == StreamedHistory(states[cuts[0]].log[n].command, LineEvents(parse, Lines.Split(Lines.Concat(pieces))))
  {
    ReadsAreSplit(steps, n, parse, pieces, cuts);
    hide Reads, CleanRun, OnlyStreams, LinesOf, LineEvents, StreamedHistory, RunningStatus;
    CompletedStream(states, steps, cuts[0], cuts[|pieces| + 1], m, n);
  }
}
