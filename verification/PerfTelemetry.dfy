/**
 * The streaming reader of perf.jsonl: watcher ticks over an append-only file, then a reconcile pass,
 * against a single parse of the appended text.
 */
module PerfTelemetry {
  import opened Prelude
  import opened Decimal
  import Lines

  const MAX_FAILURES_PER_CHUNK := 20

  datatype Kind = Run | Phase | Iteration | PipelineStep | Agent | Tool | Skill | Spawn

  /** A validated record, in the fields the reader looks at; `payload` stands for the rest. */
  datatype Raw = Raw(kind: Kind, runId: string, iteration: int, phase: string, payload: string)

  /** What JSON parsing and schema validation make of a line. */
  datatype Verdict = Malformed | Unsupported | Invalid | Valid(raw: Raw)

  datatype Emission =
    | RecordEvent(raw: Raw, attributed: Option<string>)
    | ParseFailure(lineNumber: nat, line: string)
    | Suppressed(lineNumber: nat, count: nat)

  // ---------------------------------------------------------------------------------------------
  // The phase-state key
  // ---------------------------------------------------------------------------------------------

  function PhaseKey(runId: string, iteration: int): string {
    runId + ":" + IntText(iteration)
  }

  lemma LastColon(a: string, x: string, b: string, y: string)
    requires a + ":" + x == b + ":" + y && ':' !in x && ':' !in y
    ensures a == b && x == y
  {
    NoLaterColon(a, x, b, y);
    NoLaterColon(b, y, a, x);
    var s := a + ":" + x;
    assert s[..|a|] == a && s[..|a|] == b;
    assert s[|a| + 1..] == x && s[|a| + 1..] == y;
  }

  lemma NoLaterColon(a: string, x: string, b: string, y: string)
    requires a + ":" + x == b + ":" + y && ':' !in x
    ensures |b| <= |a|
  {
    assert (b + ":" + y)[|b|] == ':';
    assert forall i | |a| < i < |a + ":" + x| :: (a + ":" + x)[i] == x[i - |a| - 1] && (a + ":" + x)[i] != ':';
  }

  /** Different (run, iteration) pairs have different keys, whatever characters the run id contains. */
  lemma PhaseKeyInjective(r1: string, i1: int, r2: string, i2: int)
    requires PhaseKey(r1, i1) == PhaseKey(r2, i2)
    ensures r1 == r2 && i1 == i2
  {
    assert ':' !in IntText(i1) && ':' !in IntText(i2) by {
      if ':' in IntText(i1) { IntTextChars(i1, ':'); }
      if ':' in IntText(i2) { IntTextChars(i2, ':'); }
    }
    LastColon(r1, IntText(i1), r2, IntText(i2));
    IntTextInjective(i1, i2);
  }

  // ---------------------------------------------------------------------------------------------
  // The reference: one parse of all lines
  // ---------------------------------------------------------------------------------------------

  function StripCr(line: string): string {
    if line != "" && line[|line| - 1] == '\r' then line[..|line| - 1] else line
  }

  /** None for a blank line. */
  function VerdictOf(classify: string -> Verdict, line: string): Option<Verdict> {
    if StripCr(line) == "" then None else Some(classify(StripCr(line)))
  }

  predicate IsRecord(v: Option<Verdict>) {
    v.Some? && v.value.Valid?
  }

  predicate IsFailure(v: Option<Verdict>) {
    v.Some? && (v.value.Malformed? || v.value.Invalid?)
  }

  predicate SetsPhase(v: Option<Verdict>, runId: string, iteration: int) {
    IsRecord(v) && v.value.raw.kind.Phase? && v.value.raw.runId == runId && v.value.raw.iteration == iteration
  }

  /** The phase named by the last phase record with this run and iteration. */
  function LastPhase(classify: string -> Verdict, lines: seq<string>, runId: string, iteration: int): Option<string> {
    if lines == [] then None
    else
      var v := VerdictOf(classify, lines[|lines| - 1]);
      if SetsPhase(v, runId, iteration) then Some(v.value.raw.phase)
      else LastPhase(classify, lines[..|lines| - 1], runId, iteration)
  }

  predicate TakesPhase(raw: Raw) {
    raw.kind.Agent? || raw.kind.Tool? || raw.kind.Skill? || raw.kind.Spawn?
  }

  /** The record events of a file with these lines. */
  function Records(classify: string -> Verdict, lines: seq<string>): seq<Emission> {
    if lines == [] then []
    else
      var before, v := lines[..|lines| - 1], VerdictOf(classify, lines[|lines| - 1]);
      Records(classify, before)
      + (if IsRecord(v) then
           [RecordEvent(v.value.raw,
              if TakesPhase(v.value.raw) then LastPhase(classify, before, v.value.raw.runId, v.value.raw.iteration) else None)]
         else [])
  }

  /** The failing lines, numbered from `base + 1`. */
  function Failures(classify: string -> Verdict, lines: seq<string>, base: nat): seq<Emission> {
    if lines == [] then []
    else
      var before, last := lines[..|lines| - 1], lines[|lines| - 1];
      Failures(classify, before, base)
      + (if IsFailure(VerdictOf(classify, last)) then [ParseFailure(base + |lines|, StripCr(last))] else [])
  }

  /** What one chunk reports of its failing lines: the first twenty, then a count of the others. */
  function Capped(failures: seq<Emission>, lastLine: nat): seq<Emission> {
    if |failures| <= MAX_FAILURES_PER_CHUNK then failures
    else failures[..MAX_FAILURES_PER_CHUNK] + [Suppressed(lastLine, |failures| - MAX_FAILURES_PER_CHUNK)]
  }

  function OnlyRecords(emitted: seq<Emission>): seq<Emission> {
    if emitted == [] then []
    else
      OnlyRecords(emitted[..|emitted| - 1])
      + (if emitted[|emitted| - 1].RecordEvent? then [emitted[|emitted| - 1]] else [])
  }

  function OnlyFailures(emitted: seq<Emission>): seq<Emission> {
    if emitted == [] then []
    else
      OnlyFailures(emitted[..|emitted| - 1])
      + (if emitted[|emitted| - 1].RecordEvent? then [] else [emitted[|emitted| - 1]])
  }

  lemma OnlySnoc(emitted: seq<Emission>, e: Emission)
    ensures OnlyRecords(emitted + [e]) == OnlyRecords(emitted) + (if e.RecordEvent? then [e] else [])
    ensures OnlyFailures(emitted + [e]) == OnlyFailures(emitted) + (if e.RecordEvent? then [] else [e])
  {
    assert (emitted + [e])[..|emitted|] == emitted;
  }

  /** The string-keyed map knows exactly the last phase of every (run, iteration). */
  ghost predicate PhaseStateOk(state: map<string, string>, classify: string -> Verdict, lines: seq<string>) {
    forall runId, iteration {:trigger PhaseKey(runId, iteration)} ::
      LastPhase(classify, lines, runId, iteration)
      == if PhaseKey(runId, iteration) in state then Some(state[PhaseKey(runId, iteration)]) else None
  }

  lemma KnownPhase(state: map<string, string>, classify: string -> Verdict, lines: seq<string>, runId: string, iteration: int)
    requires PhaseStateOk(state, classify, lines)
    ensures var key := PhaseKey(runId, iteration);
      LastPhase(classify, lines, runId, iteration) == if key in state then Some(state[key]) else None
  {
    hide LastPhase, PhaseKey;
  }

  lemma PhaseStateAfter(state: map<string, string>, classify: string -> Verdict, lines: seq<string>, line: string)
    requires PhaseStateOk(state, classify, lines)
    ensures var v := VerdictOf(classify, line);
      PhaseStateOk(if IsRecord(v) && v.value.raw.kind.Phase?
                   then state[PhaseKey(v.value.raw.runId, v.value.raw.iteration) := v.value.raw.phase] else state,
                   classify, lines + [line])
  {
    var v := VerdictOf(classify, line);
    assert (lines + [line])[..|lines|] == lines;
    if IsRecord(v) && v.value.raw.kind.Phase? {
      var raw := v.value.raw;
      forall runId, iteration | PhaseKey(runId, iteration) == PhaseKey(raw.runId, raw.iteration)
        ensures runId == raw.runId && iteration == raw.iteration
      {
        PhaseKeyInjective(runId, iteration, raw.runId, raw.iteration);
      }
    }
  }

  // ---------------------------------------------------------------------------------------------
  // Line numbers
  // ---------------------------------------------------------------------------------------------

  function NewlineCount(text: string): nat {
    if text == "" then 0 else NewlineCount(text[..|text| - 1]) + (if text[|text| - 1] == '\n' then 1 else 0)
  }

  lemma {:induction false} NewlineCountIsLines(text: string)
    ensures NewlineCount(text) == |Lines.Complete(text)|
  {
    if text != "" { NewlineCountIsLines(text[..|text| - 1]); }
  }

  lemma {:induction false} NewlineCountAppend(a: string, b: string)
    ensures NewlineCount(a + b) == NewlineCount(a) + NewlineCount(b)
  {
    if b == "" {
      assert a + b == a;
    } else {
      assert (a + b)[..|a + b| - 1] == a + b[..|b| - 1];
      NewlineCountAppend(a, b[..|b| - 1]);
    }
  }

  /** seedLineNumberBase and countNewlinesBeforeOffset: the newlines before `offset`. */
  method SeedLineNumberBase(file: string, offset: int) returns (count: nat)
    ensures count == if offset <= 0 then 0 else NewlineCount(file[..Min(offset, |file|)])
  {
    if offset <= 0 {
      return 0;
    }
    var bound := Min(offset, |file|);
    count := 0;
    var index := 0;
    while index < bound
      invariant 0 <= index <= bound && count == NewlineCount(file[..index])
    {
      assert file[..index + 1][..index] == file[..index];
      if file[index] == '\n' {
        count := count + 1;
      }
      index := index + 1;
    }
  }

  // ---------------------------------------------------------------------------------------------
  // What the reference says about failures
  // ---------------------------------------------------------------------------------------------

  /** Failing lines are numbered by their position, whatever chunk they were read in. */
  lemma {:induction false} FailuresAppend(classify: string -> Verdict, a: seq<string>, b: seq<string>, base: nat)
    ensures Failures(classify, a + b, base) == Failures(classify, a, base) + Failures(classify, b, base + |a|)
  {
    hide StripCr, VerdictOf, IsFailure;
    if b == [] {
      assert a + b == a;
    } else {
      assert (a + b)[..|a + b| - 1] == a + b[..|b| - 1];
      FailuresAppend(classify, a, b[..|b| - 1], base);
    }
  }

  function Counted(reported: seq<Emission>): nat {
    if reported == [] then 0
    else
      var last := reported[|reported| - 1];
      Counted(reported[..|reported| - 1])
      + (if last.Suppressed? then last.count else if last.ParseFailure? then 1 else 0)
  }

  lemma {:induction false} CountedAppend(a: seq<Emission>, b: seq<Emission>)
    ensures Counted(a + b) == Counted(a) + Counted(b)
  {
    if b == [] {
      assert a + b == a;
    } else {
      assert (a + b)[..|a + b| - 1] == a + b[..|b| - 1];
      CountedAppend(a, b[..|b| - 1]);
    }
  }

  lemma {:induction false} CountedFailures(classify: string -> Verdict, lines: seq<string>, base: nat, k: nat)
    requires k <= |Failures(classify, lines, base)|
    ensures Counted(Failures(classify, lines, base)[..k]) == k
    decreases |lines|, k
  {
    if k > 0 {
      var all := Failures(classify, lines, base);
      var rest := Failures(classify, lines[..|lines| - 1], base);
      if k <= |rest| {
        assert all[..k] == rest[..k];
        CountedFailures(classify, lines[..|lines| - 1], base, k);
      } else {
        assert all[..k] == all && all[..k - 1] == rest[..k - 1];
        CountedFailures(classify, lines[..|lines| - 1], base, k - 1);
      }
    }
  }

  /** The cap hides events but no failing line goes uncounted. */
  lemma CappedCountsAll(classify: string -> Verdict, lines: seq<string>, base: nat, lastLine: nat)
    ensures Counted(Capped(Failures(classify, lines, base), lastLine)) == |Failures(classify, lines, base)|
  {
    var failures := Failures(classify, lines, base);
    var k := Min(|failures|, MAX_FAILURES_PER_CHUNK);
    CountedFailures(classify, lines, base, k);
    if |failures| <= MAX_FAILURES_PER_CHUNK {
      assert failures[..k] == failures;
    } else {
      CountedAppend(failures[..k], [Suppressed(lastLine, |failures| - k)]);
    }
  }

  ghost predicate Numbered(failures: seq<Emission>, above: nat, upTo: nat) {
    && (forall i | 0 <= i < |failures| :: failures[i].ParseFailure? && above < failures[i].lineNumber <= upTo)
    && InOrder(failures)
  }

  lemma {:induction false} FailuresAreNumbered(classify: string -> Verdict, lines: seq<string>, base: nat)
    ensures Numbered(Failures(classify, lines, base), base, base + |lines|)
  {
    hide StripCr, VerdictOf, IsFailure;
    if lines != [] {
      FailuresAreNumbered(classify, lines[..|lines| - 1], base);
    }
  }

  ghost predicate InOrder(reported: seq<Emission>) {
    forall i, j | 0 <= i < j < |reported| && reported[i].ParseFailure? && reported[j].ParseFailure? ::
      reported[i].lineNumber < reported[j].lineNumber
  }

  ghost predicate NoneSuppressed(reported: seq<Emission>) {
    forall e | e in reported :: e.ParseFailure?
  }

  /**
   * What may be reported of these failing lines: each at most once, in order and under its own
   * number; those not reported are counted; and all of them if nothing was suppressed.
   */
  ghost predicate FailuresOk(reported: seq<Emission>, failures: seq<Emission>) {
    && Counted(reported) == |failures|
    && (forall e | e in reported && e.ParseFailure? :: e in failures)
    && InOrder(reported)
    && (NoneSuppressed(reported) ==> reported == failures)
  }

  lemma CappedAre(classify: string -> Verdict, lines: seq<string>, base: nat, lastLine: nat)
    ensures var failures := Failures(classify, lines, base);
      var capped := Capped(failures, lastLine);
      && FailuresOk(capped, failures)
      && (NoneSuppressed(capped) <==> |failures| <= 20)
      && (|failures| > 20 ==> capped == failures[..20] + [Suppressed(lastLine, |failures| - 20)])
  {
    CappedCountsAll(classify, lines, base, lastLine);
    FailuresAreNumbered(classify, lines, base);
    hide Failures, Counted;
    var failures := Failures(classify, lines, base);
    var capped := Capped(failures, lastLine);
    if |failures| > MAX_FAILURES_PER_CHUNK {
      assert capped[MAX_FAILURES_PER_CHUNK] in capped;
    }
  }

  /** Two reports of failing lines, one after the other. */
  lemma ReportsAppend(a: seq<Emission>, b: seq<Emission>, before: seq<Emission>, after: seq<Emission>, from: nat, mid: nat, to: nat)
    requires FailuresOk(a, before) && FailuresOk(b, after)
    requires Numbered(before, from, mid) && Numbered(after, mid, to)
    ensures FailuresOk(a + b, before + after)
  {
    CountedAppend(a, b);
    hide Counted;
    forall x, y | x in before && y in after ensures x.ParseFailure? && y.ParseFailure? && x.lineNumber < y.lineNumber {
    }
    InOrderAppend(a, b, before, after);
    hide InOrder;
    if NoneSuppressed(a + b) {
      assert NoneSuppressed(a) by { assert forall e | e in a :: e in a + b; }
      assert NoneSuppressed(b) by { assert forall e | e in b :: e in a + b; }
    }
  }

  /** One more chunk keeps the report right. */
  lemma ReportAppend(classify: string -> Verdict, reported: seq<Emission>, lines: seq<string>, start: nat,
                     added: seq<string>, lastLine: nat)
    requires FailuresOk(reported, Failures(classify, lines, start))
    ensures FailuresOk(reported + Capped(Failures(classify, added, start + |lines|), lastLine), Failures(classify, lines + added, start))
  {
    hide Failures, Capped, FailuresOk, Numbered, NoneSuppressed;
    var mid := start + |lines|;
    FailuresAppend(classify, lines, added, start);
    CappedAre(classify, added, mid, lastLine);
    FailuresAreNumbered(classify, lines, start);
    FailuresAreNumbered(classify, added, mid);
    var before, after := Failures(classify, lines, start), Failures(classify, added, mid);
    ReportsAppend(reported, Capped(after, lastLine), before, after, start, mid, mid + |added|);
  }

  lemma InOrderAppend(a: seq<Emission>, b: seq<Emission>, before: seq<Emission>, after: seq<Emission>)
    requires InOrder(a) && InOrder(b)
    requires forall e | e in a && e.ParseFailure? :: e in before
    requires forall e | e in b && e.ParseFailure? :: e in after
    requires forall x, y | x in before && y in after :: x.ParseFailure? && y.ParseFailure? && x.lineNumber < y.lineNumber
    ensures InOrder(a + b)
  {
    forall i, j | 0 <= i < j < |a + b| && (a + b)[i].ParseFailure? && (a + b)[j].ParseFailure?
      ensures (a + b)[i].lineNumber < (a + b)[j].lineNumber
    {
      if i < |a| <= j {
        assert a[i] in before && b[j - |a|] in after;
      }
    }
  }

  // ---------------------------------------------------------------------------------------------
  // What the reference says of every line
  // ---------------------------------------------------------------------------------------------

  /** The line, without a carriage return at its end, is this text, and not blank. */
  predicate Contains(line: string, text: string) {
    text != "" && (line == text + "\r" || (line == text && text[|text| - 1] != '\r'))
  }

  /** The line is a valid record. */
  ghost predicate Says(classify: string -> Verdict, line: string, raw: Raw) {
    exists text :: Contains(line, text) && classify(text) == Valid(raw)
  }

  ghost predicate Fails(classify: string -> Verdict, line: string, text: string) {
    Contains(line, text) && classify(text) in {Malformed, Invalid}
  }

  /** The line is a phase record of this run and iteration. */
  ghost predicate Names(classify: string -> Verdict, line: string, runId: string, iteration: int, phase: string) {
    exists raw :: Says(classify, line, raw) && raw.kind == Phase && raw.runId == runId && raw.iteration == iteration && raw.phase == phase
  }

  /** `phase` is named by the last phase record of this run and iteration among the lines, if there is one. */
  ghost predicate LastNamed(classify: string -> Verdict, lines: seq<string>, runId: string, iteration: int, phase: Option<string>) {
    if phase.None? then forall p, name | 0 <= p < |lines| :: !Names(classify, lines[p], runId, iteration, name)
    else exists p :: NamedAt(classify, lines, runId, iteration, phase.value, p)
  }

  ghost predicate NamedAt(classify: string -> Verdict, lines: seq<string>, runId: string, iteration: int, phase: string, p: int) {
    && 0 <= p < |lines| && Names(classify, lines[p], runId, iteration, phase)
    && forall q, name | p < q < |lines| :: !Names(classify, lines[q], runId, iteration, name)
  }

  /** Agent, tool, skill and spawn records carry the phase last named before them, the others carry none. */
  ghost predicate Carries(classify: string -> Verdict, before: seq<string>, raw: Raw, attributed: Option<string>) {
    if raw.kind == Agent || raw.kind == Tool || raw.kind == Skill || raw.kind == Spawn
    then LastNamed(classify, before, raw.runId, raw.iteration, attributed)
    else attributed == None
  }

  /** One event for each line that is a valid record, at these positions, and no other. */
  ghost predicate RecordsAt(classify: string -> Verdict, lines: seq<string>, events: seq<Emission>, at: seq<nat>) {
    && |at| == |events| && Rising(at, |lines|)
    && (forall k | 0 <= k < |at| ::
          && events[k].RecordEvent? && Says(classify, lines[at[k]], events[k].raw)
          && Carries(classify, lines[..at[k]], events[k].raw, events[k].attributed))
    && (forall i: nat, raw | i < |lines| && Says(classify, lines[i], raw) :: StandsAt(at, i))
  }

  ghost predicate EmitsRecords(classify: string -> Verdict, lines: seq<string>, events: seq<Emission>) {
    exists at :: RecordsAt(classify, lines, events, at)
  }

  /** One failure for each failing line, at these positions, under its number and with its text. */
  ghost predicate FailuresAt(classify: string -> Verdict, lines: seq<string>, base: nat, failures: seq<Emission>, at: seq<nat>) {
    && |at| == |failures| && Rising(at, |lines|)
    && (forall k | 0 <= k < |at| ::
          && failures[k].ParseFailure? && failures[k].lineNumber == base + at[k] + 1
          && Fails(classify, lines[at[k]], failures[k].line))
    && (forall i: nat, text | i < |lines| && Fails(classify, lines[i], text) :: StandsAt(at, i))
  }

  lemma ContainsIs(line: string, text: string)
    ensures Contains(line, text) <==> text != "" && StripCr(line) == text
  {
    if line != "" && line[|line| - 1] == '\r' {
      assert line == line[..|line| - 1] + "\r";
      assert line == text + "\r" ==> line[..|line| - 1] == text;
    }
  }

  lemma SaysIs(classify: string -> Verdict, line: string, raw: Raw)
    ensures Says(classify, line, raw) <==> VerdictOf(classify, line) == Some(Valid(raw))
  {
    ContainsIs(line, StripCr(line));
    hide StripCr, Contains;
    if text :| Contains(line, text) && classify(text) == Valid(raw) {
      ContainsIs(line, text);
    }
  }

  lemma FailsIs(classify: string -> Verdict, line: string, text: string)
    ensures Fails(classify, line, text) <==> IsFailure(VerdictOf(classify, line)) && StripCr(line) == text
  {
    ContainsIs(line, text);
    hide StripCr, Contains;
  }

  lemma NamesIs(classify: string -> Verdict, line: string, runId: string, iteration: int, phase: string)
    ensures Names(classify, line, runId, iteration, phase)
       <==> SetsPhase(VerdictOf(classify, line), runId, iteration) && VerdictOf(classify, line).value.raw.phase == phase
  {
    hide VerdictOf, Says;
    var v := VerdictOf(classify, line);
    if SetsPhase(v, runId, iteration) {
      SaysIs(classify, line, v.value.raw);
    }
    if raw :| Says(classify, line, raw) && raw.kind == Phase && raw.runId == runId && raw.iteration == iteration && raw.phase == phase {
      SaysIs(classify, line, raw);
    }
  }

  lemma {:induction false} LastPhaseIs(classify: string -> Verdict, lines: seq<string>, runId: string, iteration: int)
    ensures LastNamed(classify, lines, runId, iteration, LastPhase(classify, lines, runId, iteration))
  {
    hide VerdictOf, Names;
    if lines != [] {
      var before, last := lines[..|lines| - 1], lines[|lines| - 1];
      LastPhaseIs(classify, before, runId, iteration);
      forall name ensures Names(classify, last, runId, iteration, name)
        <==> SetsPhase(VerdictOf(classify, last), runId, iteration) && VerdictOf(classify, last).value.raw.phase == name
      {
        NamesIs(classify, last, runId, iteration, name);
      }
      if SetsPhase(VerdictOf(classify, last), runId, iteration) {
        assert NamedAt(classify, lines, runId, iteration, VerdictOf(classify, last).value.raw.phase, |lines| - 1);
      } else {
        LastNamedStays(classify, before, last, runId, iteration, LastPhase(classify, before, runId, iteration));
        assert lines == before + [last];
      }
    }
  }

  lemma LastNamedStays(classify: string -> Verdict, before: seq<string>, line: string, runId: string, iteration: int, phase: Option<string>)
    requires LastNamed(classify, before, runId, iteration, phase)
    requires forall name :: !Names(classify, line, runId, iteration, name)
    ensures LastNamed(classify, before + [line], runId, iteration, phase)
  {
    hide Names;
    var lines := before + [line];
    assert forall p | 0 <= p < |before| :: lines[p] == before[p];
    if phase.Some? {
      var p :| NamedAt(classify, before, runId, iteration, phase.value, p);
      assert NamedAt(classify, lines, runId, iteration, phase.value, p);
    }
  }

  /**
   * The record events of one parse: every valid line has exactly one, in order, and an agent, tool,
   * skill or spawn record carries the phase that its run and iteration last named before it.
   */
  lemma {:induction false} RecordsAre(classify: string -> Verdict, lines: seq<string>) returns (at: seq<nat>)
    ensures RecordsAt(classify, lines, Records(classify, lines), at)
  {
    hide VerdictOf, LastPhase, Says, Carries;
    at := [];
    if lines != [] {
      var before, last := lines[..|lines| - 1], lines[|lines| - 1];
      at := RecordsAre(classify, before);
      assert lines == before + [last];
      var v := VerdictOf(classify, last);
      forall raw ensures Says(classify, last, raw) <==> v == Some(Valid(raw)) {
        SaysIs(classify, last, raw);
      }
      if IsRecord(v) {
        var attributed := if TakesPhase(v.value.raw) then LastPhase(classify, before, v.value.raw.runId, v.value.raw.iteration) else None;
        CarriesLastPhase(classify, before, v.value.raw);
        OneMoreRecord(classify, before, last, Records(classify, before), at, RecordEvent(v.value.raw, attributed));
        at := at + [|before|];
      } else {
        OneMoreOther(classify, before, last, Records(classify, before), at);
      }
    }
  }

  lemma CarriesLastPhase(classify: string -> Verdict, before: seq<string>, raw: Raw)
    ensures Carries(classify, before, raw, if TakesPhase(raw) then LastPhase(classify, before, raw.runId, raw.iteration) else None)
  {
    hide LastPhase, LastNamed;
    LastPhaseIs(classify, before, raw.runId, raw.iteration);
  }

  lemma OneMoreRecord(classify: string -> Verdict, before: seq<string>, line: string, events: seq<Emission>, at: seq<nat>, e: Emission)
    requires RecordsAt(classify, before, events, at)
    requires e.RecordEvent? && Says(classify, line, e.raw) && Carries(classify, before, e.raw, e.attributed)
    ensures RecordsAt(classify, before + [line], events + [e], at + [|before|])
  {
    hide Says, Carries, StandsAt;
    var lines, more, at' := before + [line], events + [e], at + [|before|];
    OneMorePosition(at, |before|);
    assert lines[|before|] == line && forall i | 0 <= i < |before| :: lines[i] == before[i];
    assert forall k | 0 <= k < |at| :: at'[k] == at[k] && more[k] == events[k] && lines[..at[k]] == before[..at[k]];
    assert lines[..|before|] == before && at'[|at|] == |before| && more[|at|] == e;
  }

  lemma OneMoreOther(classify: string -> Verdict, before: seq<string>, line: string, events: seq<Emission>, at: seq<nat>)
    requires RecordsAt(classify, before, events, at) && forall raw :: !Says(classify, line, raw)
    ensures RecordsAt(classify, before + [line], events, at)
  {
    hide Says, Carries, StandsAt;
    var lines := before + [line];
    MorePositions(at, |before|);
    assert lines[|before|] == line && forall i | 0 <= i < |before| :: lines[i] == before[i];
    assert forall k | 0 <= k < |at| :: lines[..at[k]] == before[..at[k]];
  }

  lemma RecordsEmitted(classify: string -> Verdict, lines: seq<string>)
    ensures EmitsRecords(classify, lines, Records(classify, lines))
  {
    hide RecordsAt, Records;
    var at := RecordsAre(classify, lines);
  }

  ghost predicate EmitsFailures(classify: string -> Verdict, lines: seq<string>, base: nat, failures: seq<Emission>) {
    exists at :: FailuresAt(classify, lines, base, failures, at)
  }

  lemma FailuresEmitted(classify: string -> Verdict, lines: seq<string>, base: nat)
    ensures EmitsFailures(classify, lines, base, Failures(classify, lines, base))
  {
    hide FailuresAt, Failures;
    var at := FailuresAre(classify, lines, base);
  }

  /** The failing lines of one parse: every line that is malformed or invalid, under its number and with its text. */
  lemma {:induction false} FailuresAre(classify: string -> Verdict, lines: seq<string>, base: nat) returns (at: seq<nat>)
    ensures FailuresAt(classify, lines, base, Failures(classify, lines, base), at)
  {
    hide VerdictOf, IsFailure, StripCr, Fails;
    at := [];
    if lines != [] {
      var before, last := lines[..|lines| - 1], lines[|lines| - 1];
      at := FailuresAre(classify, before, base);
      assert lines == before + [last];
      forall text ensures Fails(classify, last, text) <==> IsFailure(VerdictOf(classify, last)) && StripCr(last) == text {
        FailsIs(classify, last, text);
      }
      var failures := Failures(classify, before, base);
      if IsFailure(VerdictOf(classify, last)) {
        OneMoreFailure(classify, before, last, base, failures, at, StripCr(last));
        at := at + [|before|];
      } else {
        OneMoreFine(classify, before, last, base, failures, at);
        assert failures + [] == failures;
      }
    }
  }

  lemma OneMoreFailure(classify: string -> Verdict, before: seq<string>, line: string, base: nat, failures: seq<Emission>, at: seq<nat>,
                       text: string)
    requires FailuresAt(classify, before, base, failures, at) && Fails(classify, line, text)
    ensures FailuresAt(classify, before + [line], base, failures + [ParseFailure(base + |before| + 1, text)], at + [|before|])
  {
    hide Fails, StandsAt;
    var lines, more, at' := before + [line], failures + [ParseFailure(base + |before| + 1, text)], at + [|before|];
    OneMorePosition(at, |before|);
    assert lines[|before|] == line && forall i | 0 <= i < |before| :: lines[i] == before[i];
    assert forall k | 0 <= k < |at| :: at'[k] == at[k] && more[k] == failures[k];
    assert at'[|at|] == |before| && more[|at|] == ParseFailure(base + |before| + 1, text);
  }

  lemma OneMoreFine(classify: string -> Verdict, before: seq<string>, line: string, base: nat, failures: seq<Emission>, at: seq<nat>)
    requires FailuresAt(classify, before, base, failures, at) && forall t :: !Fails(classify, line, t)
    ensures FailuresAt(classify, before + [line], base, failures, at)
  {
    hide Fails, StandsAt;
    var lines := before + [line];
    MorePositions(at, |before|);
    assert lines[|before|] == line && forall i | 0 <= i < |before| :: lines[i] == before[i];
  }

  // ---------------------------------------------------------------------------------------------
  // The reader
  // ---------------------------------------------------------------------------------------------

  /** A valid line adds one record event, with the phase it has to carry; no other line adds one. */
  ghost predicate Emits(classify: string -> Verdict, before: seq<string>, line: string, emitted: seq<Emission>, after: seq<Emission>) {
    && emitted <= after && |after| <= |emitted| + 1
    && (forall raw | Says(classify, line, raw) ::
          && |after| == |emitted| + 1 && after[|emitted|].RecordEvent? && after[|emitted|].raw == raw
          && Carries(classify, before, raw, after[|emitted|].attributed))
    && ((forall raw :: !Says(classify, line, raw)) ==> |after| == |emitted| || !after[|emitted|].RecordEvent?)
  }

  lemma SaysVerdict(classify: string -> Verdict, line: string)
    ensures forall raw :: Says(classify, line, raw) <==> VerdictOf(classify, line) == Some(Valid(raw))
  {
    forall raw ensures Says(classify, line, raw) <==> VerdictOf(classify, line) == Some(Valid(raw)) {
      SaysIs(classify, line, raw);
    }
  }

  lemma EmitsOne(classify: string -> Verdict, before: seq<string>, line: string, emitted: seq<Emission>, raw: Raw, attributed: Option<string>)
    requires VerdictOf(classify, line) == Some(Valid(raw))
    requires attributed == if TakesPhase(raw) then LastPhase(classify, before, raw.runId, raw.iteration) else None
    ensures Emits(classify, before, line, emitted, emitted + [RecordEvent(raw, attributed)])
  {
    SaysVerdict(classify, line);
    CarriesLastPhase(classify, before, raw);
    hide Says, Carries, LastPhase, TakesPhase;
  }

  lemma EmitsNone(classify: string -> Verdict, before: seq<string>, line: string, emitted: seq<Emission>, more: seq<Emission>)
    requires !IsRecord(VerdictOf(classify, line)) && (more == [] || (|more| == 1 && !more[0].RecordEvent?))
    ensures Emits(classify, before, line, emitted, emitted + more)
    ensures more == [] ==> emitted + more == emitted
  {
    SaysVerdict(classify, line);
    hide Says, Carries;
  }

  class PerfReader {
    const classify: string -> Verdict
    const startOffset: nat
    var phaseState: map<string, string>
    var priorLineBuffer: string
    var lineNumberBase: nat
    var hwm: nat
    var emitted: seq<Emission>
    /** The lines consumed so far. */
    ghost var lines: seq<string>
    /** The text consumed so far, from the start offset. */
    ghost var seen: string
    /** What each consumed chunk should report of its failing lines. */
    ghost var reported: seq<Emission>

    ghost predicate Valid()
      reads `phaseState, `lines, `emitted, `reported
    {
      && PhaseStateOk(phaseState, classify, lines)
      && OnlyRecords(emitted) == Records(classify, lines)
      && OnlyFailures(emitted) == reported
    }

    /** The text, lines, leftover and line number after reading the file from `start` to `mark`. */
    static ghost predicate At(file: string, start: nat, mark: nat, seen: string, lines: seq<string>, rest: string, base: nat) {
      && start <= mark <= |file|
      && seen == file[start..mark]
      && lines == Lines.Complete(seen)
      && rest == Lines.Rest(seen)
      && base == NewlineCount(file[..mark])
    }

    /** That, with the failing lines reported under their numbers in the file. */
    static ghost predicate ReadTo(classify: string -> Verdict, file: string, start: nat, mark: nat, seen: string, lines: seq<string>,
                                  rest: string, base: nat, reported: seq<Emission>) {
      && At(file, start, mark, seen, lines, rest, base)
      && FailuresOk(reported, Failures(classify, lines, NewlineCount(file[..start])))
    }

    /** The reader has consumed and reported exactly the part of the file between the start offset and the mark. */
    ghost predicate Follows(file: string)
      reads this
    {
      Valid() && ReadTo(classify, file, startOffset, hwm, seen, lines, priorLineBuffer, lineNumberBase, reported)
    }

    constructor (classify: string -> Verdict, file: string, startOffset: nat)
      requires startOffset <= |file|
      ensures this.classify == classify && this.startOffset == startOffset && hwm == startOffset
      ensures Follows(file) && emitted == []
    {
      this.classify := classify;
      this.startOffset := startOffset;
      phaseState, priorLineBuffer, hwm, emitted := map[], "", startOffset, [];
      lines, seen, reported := [], "", [];
      new;
      lineNumberBase := SeedLineNumberBase(file, startOffset);
    }

    /** The body of the loop over complete lines; says whether the line failed. */
    method ProcessLine(rawLine: string, lineNumber: nat, mayReport: bool) returns (failed: bool)
      requires Valid()
      modifies `phaseState, `emitted, `lines, `reported
      ensures Valid() && lines == old(lines) + [rawLine]
      ensures failed == IsFailure(VerdictOf(classify, rawLine))
      ensures reported == old(reported) + (if failed && mayReport then [ParseFailure(lineNumber, StripCr(rawLine))] else [])
      ensures Emits(classify, old(lines), rawLine, old(emitted), emitted)
    {
      var line := StripCr(rawLine);
      hide StripCr, Emits, Valid;
      failed := false;
      if line == "" {
        SkipLine(rawLine);
        return;
      }
      var verdict := classify(line);
      if verdict.Malformed? || verdict.Invalid? {
        if mayReport {
          ReportFailure(rawLine, lineNumber, line);
        } else {
          SkipLine(rawLine);
        }
        return true;
      }
      if verdict.Unsupported? {
        SkipLine(rawLine);
        return;
      }
      EmitRecord(rawLine, verdict.raw);
    }

    /** A line without an event. */
    method SkipLine(rawLine: string)
      requires Valid() && !IsRecord(VerdictOf(classify, rawLine))
      modifies `lines
      ensures Valid() && lines == old(lines) + [rawLine] && Emits(classify, old(lines), rawLine, emitted, emitted)
    {
      PhaseStateAfter(phaseState, classify, lines, rawLine);
      NextRecord(classify, lines, rawLine);
      EmitsNone(classify, lines, rawLine, emitted, []);
      hide Records, LastPhase, OnlyRecords, OnlyFailures, Emits, VerdictOf;
      lines := lines + [rawLine];
    }

    method ReportFailure(rawLine: string, lineNumber: nat, line: string)
      requires Valid() && !IsRecord(VerdictOf(classify, rawLine))
      modifies `emitted, `lines, `reported
      ensures Valid() && lines == old(lines) + [rawLine] && Emits(classify, old(lines), rawLine, old(emitted), emitted)
      ensures reported == old(reported) + [ParseFailure(lineNumber, line)]
    {
      PhaseStateAfter(phaseState, classify, lines, rawLine);
      NextRecord(classify, lines, rawLine);
      EmitsNone(classify, lines, rawLine, emitted, [ParseFailure(lineNumber, line)]);
      OnlySnoc(emitted, ParseFailure(lineNumber, line));
      hide Records, LastPhase, OnlyRecords, OnlyFailures, Emits, VerdictOf;
      emitted := emitted + [ParseFailure(lineNumber, line)];
      reported := reported + [ParseFailure(lineNumber, line)];
      lines := lines + [rawLine];
    }

    /** What the phase state attributes to a record. */
    static function Attributed(state: map<string, string>, raw: Raw): Option<string> {
      var key := PhaseKey(raw.runId, raw.iteration);
      if TakesPhase(raw) && key in state then Some(state[key]) else None
    }

    static function AfterRecord(state: map<string, string>, raw: Raw): map<string, string> {
      if raw.kind.Phase? then state[PhaseKey(raw.runId, raw.iteration) := raw.phase] else state
    }

    static lemma RecordAdded(state: map<string, string>, classify: string -> Verdict, lines: seq<string>, emitted: seq<Emission>,
                             line: string, raw: Raw)
      requires PhaseStateOk(state, classify, lines) && OnlyRecords(emitted) == Records(classify, lines)
      requires VerdictOf(classify, line) == Some(Verdict.Valid(raw))
      ensures var e := RecordEvent(raw, Attributed(state, raw));
        && PhaseStateOk(AfterRecord(state, raw), classify, lines + [line])
        && OnlyRecords(emitted + [e]) == Records(classify, lines + [line]) && OnlyFailures(emitted + [e]) == OnlyFailures(emitted)
        && Emits(classify, lines, line, emitted, emitted + [e])
    {
      var e := RecordEvent(raw, Attributed(state, raw));
      KnownPhase(state, classify, lines, raw.runId, raw.iteration);
      PhaseStateAfter(state, classify, lines, line);
      NextRecord(classify, lines, line);
      OnlySnoc(emitted, e);
      hide PhaseStateOk, Records, LastPhase, OnlyRecords, OnlyFailures, Emits, VerdictOf, PhaseKey, TakesPhase;
      EmitsOne(classify, lines, line, emitted, raw, e.attributed);
    }

    /** A valid record: the phase it sets or takes, and its event. */
    method EmitRecord(rawLine: string, record: Raw)
      requires Valid() && VerdictOf(classify, rawLine) == Some(Verdict.Valid(record))
      modifies `phaseState, `emitted, `lines
      ensures Valid() && lines == old(lines) + [rawLine] && Emits(classify, old(lines), rawLine, old(emitted), emitted)
    {
      RecordAdded(phaseState, classify, lines, emitted, rawLine, record);
      hide PhaseStateOk, Records, OnlyRecords, OnlyFailures, Emits, VerdictOf;
      var attributed := AttributePhase(record);
      hide Attributed;
      emitted := emitted + [RecordEvent(record, attributed)];
      lines := lines + [rawLine];
    }

    /** The phase that the record takes, if it does; a phase record sets it. */
    method AttributePhase(record: Raw) returns (attributed: Option<string>)
      modifies `phaseState
      ensures attributed == Attributed(old(phaseState), record) && phaseState == AfterRecord(old(phaseState), record)
    {
      attributed := None;
      var key := PhaseKey(record.runId, record.iteration);
      if TakesPhase(record) && key in phaseState {
        attributed := Some(phaseState[key]);
      }
      if record.kind.Phase? {
        phaseState := phaseState[key := record.phase];
      }
    }

    method ReportSuppressed(lineNumber: nat, count: nat)
      requires Valid()
      modifies `emitted, `reported
      ensures Valid() && reported == old(reported) + [Suppressed(lineNumber, count)]
    {
      OnlySnoc(emitted, Suppressed(lineNumber, count));
      emitted := emitted + [Suppressed(lineNumber, count)];
      reported := reported + [Suppressed(lineNumber, count)];
    }

    /** One line of the loop: at most twenty failing lines of a chunk are reported, the others counted. */
    method CountLine(rawLine: string, lineNumber: nat, emittedSoFar: nat, suppressedSoFar: nat, ghost failures: seq<Emission>)
      returns (nowEmitted: nat, nowSuppressed: nat, ghost more: seq<Emission>, ghost newFailures: seq<Emission>)
      requires Valid() && Tallied(failures, emittedSoFar, suppressedSoFar)
      modifies `phaseState, `emitted, `lines, `reported
      ensures Valid() && lines == old(lines) + [rawLine]
      ensures newFailures == failures + (if IsFailure(VerdictOf(classify, rawLine)) then [ParseFailure(lineNumber, StripCr(rawLine))] else [])
      ensures Tallied(newFailures, nowEmitted, nowSuppressed)
      ensures reported == old(reported) + more && FirstFailures(newFailures) == FirstFailures(failures) + more
    {
      hide Valid, StripCr, VerdictOf, IsFailure;
      nowEmitted, nowSuppressed, more, newFailures := emittedSoFar, suppressedSoFar, [], failures;
      var failed := ProcessLine(rawLine, lineNumber, emittedSoFar < MAX_FAILURES_PER_CHUNK);
      if failed {
        ghost var failure := ParseFailure(lineNumber, StripCr(rawLine));
        FirstFailuresSnoc(failures, failure);
        newFailures := failures + [failure];
        if emittedSoFar < MAX_FAILURES_PER_CHUNK {
          more := [failure];
          nowEmitted := emittedSoFar + 1;
        } else {
          nowSuppressed := suppressedSoFar + 1;
        }
      }
    }

    /** The loop over the complete lines of a chunk. */
    method ProcessLines(completeLines: seq<string>) returns (parseFailureEventsEmitted: nat, parseFailuresSuppressed: nat)
      requires Valid()
      modifies `phaseState, `emitted, `lines, `reported
      ensures Valid() && lines == old(lines) + completeLines
      ensures var failures := Failures(classify, completeLines, lineNumberBase);
        && parseFailureEventsEmitted == Min(|failures|, MAX_FAILURES_PER_CHUNK)
        && parseFailuresSuppressed == |failures| - parseFailureEventsEmitted
        && reported == old(reported) + failures[..parseFailureEventsEmitted]
    {
      var lineNumber := lineNumberBase;
      parseFailureEventsEmitted, parseFailuresSuppressed := 0, 0;
      ghost var failures, before, reportedBefore := [], lines, reported;
      ghost var taken: seq<string> := [];
      assert Failures(classify, [], lineNumberBase) == FirstFailures(failures) == [];
      assert completeLines[..0] == taken && before + taken == before;
      hide Failures, StripCr, VerdictOf, IsFailure, Valid, FirstFailures;
      var i := 0;
      while i < |completeLines|
        invariant 0 <= i <= |completeLines| && lineNumber == lineNumberBase + i
        invariant taken == completeLines[..i]
        invariant Valid() && lines == before + taken
        invariant failures == Failures(classify, taken, lineNumberBase)
        invariant Tallied(failures, parseFailureEventsEmitted, parseFailuresSuppressed)
        invariant reported == reportedBefore + FirstFailures(failures)
      {
        var rawLine := completeLines[i];
        lineNumber := lineNumber + 1;
        ghost var first := FirstFailures(failures);
        NextLine(classify, taken, rawLine, lineNumberBase);
        ghost var more;
        parseFailureEventsEmitted, parseFailuresSuppressed, more, failures :=
          CountLine(rawLine, lineNumber, parseFailureEventsEmitted, parseFailuresSuppressed, failures);
        Regroup(before, taken, [rawLine]);
        Regroup(reportedBefore, first, more);
        TakeOneMore(completeLines, i);
        taken := taken + [rawLine];
        i := i + 1;
      }
      assert taken == completeLines;
      FirstFailuresAre(failures);
    }

    static lemma Regroup<T>(a: seq<T>, b: seq<T>, c: seq<T>)
      ensures a + b + c == a + (b + c)
    {
    }

    static lemma TakeOneMore<T>(s: seq<T>, i: nat)
      requires i < |s|
      ensures s[..i + 1] == s[..i] + [s[i]]
    {
    }

    /** How many of the failing lines were reported, and how many only counted. */
    static ghost predicate Tallied(failures: seq<Emission>, emittedSoFar: nat, suppressedSoFar: nat) {
      emittedSoFar == |FirstFailures(failures)| && suppressedSoFar == |failures| - emittedSoFar
    }

    static ghost function FirstFailures(failures: seq<Emission>): (first: seq<Emission>)
      ensures |first| == Min(|failures|, MAX_FAILURES_PER_CHUNK)
    {
      failures[..Min(|failures|, MAX_FAILURES_PER_CHUNK)]
    }

    static lemma FirstFailuresAre(failures: seq<Emission>)
      ensures FirstFailures(failures) == failures[..|FirstFailures(failures)|]
    {
    }

    static lemma FirstFailuresSnoc(failures: seq<Emission>, failure: Emission)
      ensures FirstFailures(failures + [failure])
           == FirstFailures(failures) + if |FirstFailures(failures)| < MAX_FAILURES_PER_CHUNK then [failure] else []
    {
    }

    /**
     * parseAndEmitChunk: parses the complete lines of the leftover and `chunk`. It emits exactly the
     * records of those lines, attributed as in one parse of all lines ever consumed, and reports the
     * first twenty failing lines of this chunk and how many more there were.
     */
    method ParseAndEmitChunk(chunk: string) returns (newPriorLineBuffer: string, newLineNumberBase: nat)
      requires Valid()
      modifies `phaseState, `emitted, `lines, `reported
      ensures Valid()
      ensures newPriorLineBuffer == Lines.Rest(priorLineBuffer + chunk)
      ensures var added := Lines.Complete(priorLineBuffer + chunk);
        && lines == old(lines) + added
        && newLineNumberBase == lineNumberBase + |added|
        && reported == old(reported) + Capped(Failures(classify, added, lineNumberBase), newLineNumberBase)
    {
      hide Failures, Valid, Lines.Complete, Lines.Rest;
      var text := priorLineBuffer + chunk;
      newPriorLineBuffer := Lines.Rest(text);
      var completeLines := Lines.Complete(text);
      newLineNumberBase := lineNumberBase + |completeLines|;
      var parseFailureEventsEmitted, parseFailuresSuppressed := ProcessLines(completeLines);
      if parseFailuresSuppressed > 0 {
        ReportSuppressed(newLineNumberBase, parseFailuresSuppressed);
      }
    }

    static lemma NextLine(classify: string -> Verdict, lines: seq<string>, line: string, base: nat)
      ensures Failures(classify, lines + [line], base)
           == Failures(classify, lines, base)
              + (if IsFailure(VerdictOf(classify, line)) then [ParseFailure(base + |lines| + 1, StripCr(line))] else [])
    {
      assert (lines + [line])[..|lines|] == lines;
    }

    static lemma NextRecord(classify: string -> Verdict, lines: seq<string>, line: string)
      ensures var v := VerdictOf(classify, line);
        Records(classify, lines + [line]) == Records(classify, lines)
          + (if IsRecord(v) then
               [RecordEvent(v.value.raw,
                  if TakesPhase(v.value.raw) then LastPhase(classify, lines, v.value.raw.runId, v.value.raw.iteration) else None)]
             else [])
    {
      assert (lines + [line])[..|lines|] == lines;
    }

    /** Appending to the file does not disturb what was consumed. */
    lemma FollowsAppended(shorter: string, file: string)
      requires Follows(shorter) && shorter <= file
      ensures Follows(file)
    {
      assert file[..hwm] == shorter[..hwm];
      assert file[startOffset..hwm] == shorter[startOffset..hwm];
      assert file[..startOffset] == shorter[..startOffset];
    }

    /** One watcher tick over the file as it is now: it reports the failing lines that the new text completes. */
    method Tick(file: string)
      requires Follows(file) && hwm <= |file|
      modifies this
      ensures Follows(file) && hwm == |file|
      ensures var added := Lines.Complete(old(priorLineBuffer) + file[old(hwm)..]);
        && lineNumberBase == old(lineNumberBase) + |added|
        && reported == old(reported) + Capped(Failures(classify, added, old(lineNumberBase)), lineNumberBase)
    {
      hide ReadTo, At, Valid, NewlineCount, Failures, Capped, FailuresOk, Lines.Complete, Lines.Rest;
      var chunk := file[hwm..];
      if chunk == "" {
        NothingNew(classify, file, startOffset, hwm, seen, lines, priorLineBuffer, lineNumberBase, reported);
        assert reported + [] == reported;
        return;
      }
      ReadOn(classify, file, startOffset, hwm, seen, lines, priorLineBuffer, lineNumberBase, reported);
      var rest, base := ParseAndEmitChunk(chunk);
      hwm := hwm + |chunk|;
      seen := seen + chunk;
      priorLineBuffer := rest;
      lineNumberBase := base;
    }

    static lemma NothingNew(classify: string -> Verdict, file: string, start: nat, mark: nat, seen: string, lines: seq<string>,
                            rest: string, base: nat, reported: seq<Emission>)
      requires ReadTo(classify, file, start, mark, seen, lines, rest, base, reported)
      ensures Lines.Complete(rest + "") == [] && Capped(Failures(classify, [], base), base) == []
    {
      hide FailuresOk;
      Lines.SplitIsFaithful(seen);
      Lines.NoNewlineNoLines(rest);
      assert rest + "" == rest;
    }

    static lemma ReadOn(classify: string -> Verdict, file: string, start: nat, mark: nat, seen: string, lines: seq<string>,
                        rest: string, base: nat, reported: seq<Emission>)
      requires ReadTo(classify, file, start, mark, seen, lines, rest, base, reported) && mark <= |file|
      ensures var chunk := file[mark..];
        var added := Lines.Complete(rest + chunk);
        ReadTo(classify, file, start, |file|, seen + chunk, lines + added, Lines.Rest(rest + chunk), base + |added|,
               reported + Capped(Failures(classify, added, base), base + |added|))
    {
      hide At, FailuresOk, Failures, Capped, Lines.Complete, Lines.Rest, NewlineCount;
      var added := Lines.Complete(rest + file[mark..]);
      AtNext(file, start, mark, seen, lines, rest, base);
      BaseIs(file, start, mark, seen, lines, rest, base);
      ReportAppend(classify, reported, lines, NewlineCount(file[..start]), added, base + |added|);
    }

    /** The line number base is the number of lines consumed, on top of those before the start offset. */
    static lemma BaseIs(file: string, start: nat, mark: nat, seen: string, lines: seq<string>, rest: string, base: nat)
      requires At(file, start, mark, seen, lines, rest, base)
      ensures start <= mark <= |file| && base == NewlineCount(file[..start]) + |lines|
    {
      assert file[..mark] == file[..start] + file[start..mark];
      NewlineCountAppend(file[..start], file[start..mark]);
      NewlineCountIsLines(seen);
    }

    static lemma LinesOfRest(seen: string, chunk: string)
      ensures |Lines.Complete(Lines.Rest(seen) + chunk)| == NewlineCount(chunk)
    {
      var rest := Lines.Rest(seen);
      Lines.SplitIsFaithful(seen);
      Lines.NoNewlineNoLines(rest);
      NewlineCountIsLines(rest);
      NewlineCountIsLines(rest + chunk);
      NewlineCountAppend(rest, chunk);
    }

    static lemma AtNext(file: string, start: nat, mark: nat, seen: string, lines: seq<string>, rest: string, base: nat)
      requires At(file, start, mark, seen, lines, rest, base)
      ensures var chunk := file[mark..];
        var added := Lines.Complete(rest + chunk);
        At(file, start, |file|, seen + chunk, lines + added, Lines.Rest(rest + chunk), base + |added|)
    {
      hide Lines.Complete, Lines.Rest, NewlineCount;
      var chunk := file[mark..];
      Lines.FrameAppend(seen, chunk);
      LinesOfRest(seen, chunk);
      assert file == file[..mark] + chunk == file[..|file|];
      assert file[start..|file|] == seen + chunk;
      NewlineCountAppend(file[..mark], chunk);
    }

    /**
     * The catch-up part of the reconcile pass. Afterwards the record events emitted over the whole
     * life of the reader are those of one parse of everything appended since the start offset, its
     * unterminated last line included; and so are the failing lines, up to the cap of each chunk.
     */
    method Reconcile(file: string)
      requires Follows(file)
      modifies `phaseState, `emitted, `lines, `reported
      ensures OnlyRecords(emitted) == Records(classify, Lines.Split(file[startOffset..]))
      ensures EmitsRecords(classify, Lines.Split(file[startOffset..]), OnlyRecords(emitted))
      ensures FailuresOk(OnlyFailures(emitted), Failures(classify, Lines.Split(file[startOffset..]), NewlineCount(file[..startOffset])))
      ensures var flushed := Lines.Complete(priorLineBuffer + (file[hwm..] + "\n"));
        OnlyFailures(emitted) == old(reported) + Capped(Failures(classify, flushed, lineNumberBase), lineNumberBase + |flushed|)
    {
      hide Records, PhaseStateOk, Failures, OnlyRecords, OnlyFailures, FailuresOk, Capped, NewlineCount, EmitsRecords;
      var chunk := file[hwm..];
      RecordsEmitted(classify, Lines.Split(file[startOffset..]));
      ghost var start := NewlineCount(file[..startOffset]);
      ghost var flushed := Lines.Complete(priorLineBuffer + (chunk + "\n"));
      FlushedAll(file, startOffset, hwm);
      BaseIs(file, startOffset, hwm, seen, lines, priorLineBuffer, lineNumberBase);
      ReportAppend(classify, reported, lines, start, flushed, lineNumberBase + |flushed|);
      assert lines + flushed == Lines.Split(file[startOffset..]);
      if chunk != "" || priorLineBuffer != "" {
        var flushChunk := chunk + "\n";
        var rest, base := ParseAndEmitChunk(flushChunk);
      } else {
        BlankFlush(classify, lines, lineNumberBase);
        assert "" + ("" + "\n") == "\n";
        assert reported + [] == reported;
      }
    }

    static lemma BlankFlush(classify: string -> Verdict, lines: seq<string>, base: nat)
      ensures Lines.Complete("\n") == [""]
      ensures Records(classify, lines + [""]) == Records(classify, lines)
      ensures Capped(Failures(classify, [""], base), base + 1) == []
    {
      NextRecord(classify, lines, "");
      NextLine(classify, [], "", base);
      assert [] + [""] == [""];
      assert "\n"[..0] == "";
    }

    static lemma FlushedAll(file: string, start: nat, mark: nat)
      requires start <= mark <= |file|
      ensures var seen, chunk := file[start..mark], file[mark..];
        Lines.Split(file[start..]) == Lines.Complete(seen) + Lines.Complete(Lines.Rest(seen) + (chunk + "\n"))
    {
      var seen, chunk := file[start..mark], file[mark..];
      Lines.FrameAppend(seen, chunk + "\n");
      assert seen + (chunk + "\n") == file[start..] + "\n";
      Lines.CloseLastLine(file[start..]);
    }

    /** States of a growing file, observed from the mark `first` on. */
    static ghost predicate Growing(observed: seq<string>, final: string, start: nat, first: nat) {
      && start <= first <= |final|
      && (observed != [] ==> first <= |observed[0]|)
      && (forall i | 0 <= i < |observed| :: observed[i] <= final)
      && (forall i, j | 0 <= i < j < |observed| :: observed[i] <= observed[j])
    }

    /** How far the file has been read before pass `i`. */
    static function MarkOf(observed: seq<string>, first: nat, i: nat): nat
      requires i <= |observed|
    {
      if i == 0 then first else |observed[i - 1]|
    }

    /** The failing lines that pass `i` meets: a tick, or after the last of them the final flush. */
    static ghost function MetBy(classify: string -> Verdict, observed: seq<string>, final: string, start: nat, first: nat, i: nat): nat
      requires Growing(observed, final, start, first) && i <= |observed|
    {
      var mark := MarkOf(observed, first, i);
      var chunk := if i < |observed| then observed[i][mark..] else final[mark..] + "\n";
      |Failures(classify, Lines.Complete(Lines.Rest(final[start..mark]) + chunk), NewlineCount(final[..mark]))|
    }

    static ghost predicate FewPerPass(classify: string -> Verdict, observed: seq<string>, final: string, start: nat, first: nat) {
      && Growing(observed, final, start, first)
      && (forall i | 0 <= i <= |observed| :: MetBy(classify, observed, final, start, first, i) <= 20)
    }

    /** The report of a pass that meets few failing lines suppresses none. */
    static lemma PassReports(classify: string -> Verdict, before: seq<Emission>, added: seq<string>, base: nat, lastLine: nat)
      ensures NoneSuppressed(before) && |Failures(classify, added, base)| <= MAX_FAILURES_PER_CHUNK
              ==> NoneSuppressed(before + Capped(Failures(classify, added, base), lastLine))
    {
      CappedAre(classify, added, base, lastLine);
    }

    /** What the reader holds before a pass, in terms of the final file. */
    lemma ReadSoFar(file: string, final: string)
      requires Follows(file) && file <= final
      ensures startOffset <= hwm <= |file| && lineNumberBase == NewlineCount(final[..hwm])
      ensures priorLineBuffer == Lines.Rest(final[startOffset..hwm])
    {
      assert file[..hwm] == final[..hwm];
      assert file[startOffset..hwm] == final[startOffset..hwm];
    }

    /** The state of the file that pass `i` reads. */
    static function Seen(observed: seq<string>, final: string, i: nat): string
      requires i <= |observed|
    {
      if i < |observed| then observed[i] else final
    }

    /** The tick at state `i`, among those of a whole life. */
    method TickAt(observed: seq<string>, final: string, ghost first: nat, i: nat)
      requires Growing(observed, final, startOffset, first) && i < |observed| && hwm == MarkOf(observed, first, i)
      requires Follows(observed[i])
      modifies this
      ensures hwm == MarkOf(observed, first, i + 1) && Follows(Seen(observed, final, i + 1))
      ensures NoneSuppressed(old(reported)) && FewPerPass(classify, observed, final, startOffset, first)
              ==> NoneSuppressed(reported)
    {
      hide Follows, Failures, Capped, FewPerPass, Lines.Complete, NoneSuppressed;
      FewAt(observed, final, first, i);
      ghost var added := Lines.Complete(priorLineBuffer + observed[i][hwm..]);
      PassReports(classify, reported, added, lineNumberBase, lineNumberBase + |added|);
      Tick(observed[i]);
      FollowsAppended(observed[i], Seen(observed, final, i + 1));
    }

    /**
     * A whole life: a tick for every observed state of the growing file, the last tick at stop, then
     * the reconcile pass. However the appended text is cut into ticks, the records, their order and
     * the phases attributed to them are those of a single parse. The failing lines are those of a
     * single parse too: each is reported at most once, in order and under its number in the file, or
     * else counted; and each is reported if no pass meets more than twenty.
     */
    method WatchThenReconcile(observed: seq<string>, final: string)
      requires Growing(observed, final, startOffset, hwm)
      requires Follows(Seen(observed, final, 0))
      modifies this
      ensures OnlyRecords(emitted) == Records(classify, Lines.Split(final[startOffset..]))
      ensures EmitsRecords(classify, Lines.Split(final[startOffset..]), OnlyRecords(emitted))
      ensures FailuresOk(OnlyFailures(emitted), Failures(classify, Lines.Split(final[startOffset..]), NewlineCount(final[..startOffset])))
      ensures NoneSuppressed(old(reported)) && FewPerPass(classify, observed, final, startOffset, old(hwm))
              ==> OnlyFailures(emitted) == Failures(classify, Lines.Split(final[startOffset..]), NewlineCount(final[..startOffset]))
      ensures NoneSuppressed(old(reported)) && FewPerPass(classify, observed, final, startOffset, old(hwm))
              ==> EmitsFailures(classify, Lines.Split(final[startOffset..]), NewlineCount(final[..startOffset]), OnlyFailures(emitted))
    {
      ghost var first, few := hwm, NoneSuppressed(reported) && FewPerPass(classify, observed, final, startOffset, hwm);
      hide Follows, Growing, Records, OnlyRecords, OnlyFailures, Failures, FailuresOk, NoneSuppressed, FewPerPass, Capped, NewlineCount,
           EmitsRecords, EmitsFailures, Lines.Complete;
      var i := 0;
      while i < |observed|
        invariant 0 <= i <= |observed| && hwm == MarkOf(observed, first, i)
        invariant Follows(Seen(observed, final, i))
        invariant few ==> NoneSuppressed(reported)
      {
        TickAt(observed, final, first, i);
        i := i + 1;
      }
      FewAt(observed, final, first, i);
      ghost var flushed := Lines.Complete(priorLineBuffer + (final[hwm..] + "\n"));
      PassReports(classify, reported, flushed, lineNumberBase, lineNumberBase + |flushed|);
      Reconcile(final);
      AllReported(OnlyFailures(emitted), Failures(classify, Lines.Split(final[startOffset..]), NewlineCount(final[..startOffset])));
      FailuresEmitted(classify, Lines.Split(final[startOffset..]), NewlineCount(final[..startOffset]));
    }

    static lemma AllReported(reported: seq<Emission>, failures: seq<Emission>)
      requires FailuresOk(reported, failures)
      ensures NoneSuppressed(reported) ==> reported == failures
    {
    }

    /** The number of failing lines of the next pass, in terms of what the reader holds. */
    lemma FewAt(observed: seq<string>, final: string, first: nat, i: nat)
      requires Growing(observed, final, startOffset, first) && i <= |observed| && hwm == MarkOf(observed, first, i)
      requires Follows(Seen(observed, final, i))
      ensures startOffset <= hwm <= |Seen(observed, final, i)|
      ensures FewPerPass(classify, observed, final, startOffset, first)
              ==> |Failures(classify, Lines.Complete(priorLineBuffer + (if i < |observed| then observed[i][hwm..] else final[hwm..] + "\n")),
                            lineNumberBase)| <= MAX_FAILURES_PER_CHUNK
    {
      ReadSoFar(Seen(observed, final, i), final);
      hide Follows, Failures, NewlineCount, Lines.Complete, Lines.Rest;
      assert FewPerPass(classify, observed, final, startOffset, first)
             ==> MetBy(classify, observed, final, startOffset, first, i) <= MAX_FAILURES_PER_CHUNK;
    }
  }
}
