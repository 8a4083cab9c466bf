/**
 * The perf.jsonl reader on bytes: every tick decodes what it read by itself. If the file ends between
 * two characters whenever it is read, the whole life of the reader is that of a single parse.
 */
module PerfBytes {
  import opened Utf8
  import opened Utf8Decoding
  import opened PerfTelemetry
  import Lines

  /** Byte lengths at which the file is read, from the start offset on, none of them inside a character. */
  ghost predicate ReadsBetween(chars: seq<Character>, start: nat, lengths: seq<nat>) {
    && start <= |Encoded(chars)| && Boundary(chars, start)
    && (forall i | 0 <= i < |lengths| :: start <= lengths[i] <= |Encoded(chars)| && Boundary(chars, lengths[i]))
    && (forall i, j | 0 <= i < j < |lengths| :: lengths[i] <= lengths[j])
  }

  /** The byte offset before read `i`. */
  function OffsetOf(start: nat, lengths: seq<nat>, i: nat): nat
    requires i <= |lengths|
  {
    if i == 0 then start else lengths[i - 1]
  }

  /** Read `i`, decoded alone: the bytes up to the next length, or after the last one up to the end of the file. */
  function ReadOf(units: Character -> string, bytes: seq<Byte>, start: nat, lengths: seq<nat>, i: nat): string
    requires i <= |lengths| && OffsetOf(start, lengths, i) <= (if i < |lengths| then lengths[i] else |bytes|) <= |bytes|
  {
    Text(units, Decode(bytes[OffsetOf(start, lengths, i)..if i < |lengths| then lengths[i] else |bytes|]))
  }

  /** What has been decoded before read `i`: the part before the start offset, then read by read. */
  function ReadBefore(units: Character -> string, bytes: seq<Byte>, start: nat, lengths: seq<nat>, i: nat): string
    requires i <= |lengths| && start <= |bytes|
    requires forall j | 0 <= j < |lengths| :: OffsetOf(start, lengths, j) <= lengths[j] <= |bytes|
  {
    if i == 0 then Text(units, Decode(bytes[..start]))
    else ReadBefore(units, bytes, start, lengths, i - 1) + ReadOf(units, bytes, start, lengths, i - 1)
  }

  lemma OffsetsRise(chars: seq<Character>, start: nat, lengths: seq<nat>)
    requires ReadsBetween(chars, start, lengths)
    ensures forall j | 0 <= j < |lengths| :: OffsetOf(start, lengths, j) <= lengths[j] <= |Encoded(chars)|
    ensures OffsetOf(start, lengths, |lengths|) <= |Encoded(chars)|
    ensures forall j | 0 <= j <= |lengths| :: start <= OffsetOf(start, lengths, j) && Boundary(chars, OffsetOf(start, lengths, j))
  {
  }

  /** The text decoded read by read is that decoded at once. */
  lemma {:induction false} ReadBeforeIs(units: Character -> string, chars: seq<Character>, start: nat, lengths: seq<nat>, i: nat)
    requires AllWellFormed(chars) && ReadsBetween(chars, start, lengths) && i <= |lengths|
    ensures forall j | 0 <= j < |lengths| :: OffsetOf(start, lengths, j) <= lengths[j] <= |Encoded(chars)|
    ensures OffsetOf(start, lengths, i) <= |Encoded(chars)|
    ensures ReadBefore(units, Encoded(chars), start, lengths, i) == Text(units, Decode(Encoded(chars)[..OffsetOf(start, lengths, i)]))
  {
    hide Decode, Text, Boundary, Encoded, AllWellFormed, ReadsBetween;
    OffsetsRise(chars, start, lengths);
    if i > 0 {
      ReadBeforeIs(units, chars, start, lengths, i - 1);
      assert OffsetOf(start, lengths, i) == lengths[i - 1];
      BoundaryStates(units, chars, OffsetOf(start, lengths, i - 1), lengths[i - 1]);
    }
  }

  lemma StatesAreOrdered(units: Character -> string, chars: seq<Character>, m: nat, n: nat)
    requires AllWellFormed(chars) && m <= n <= |Encoded(chars)| && Boundary(chars, m) && Boundary(chars, n)
    ensures Text(units, Decode(Encoded(chars)[..m])) <= Text(units, Decode(Encoded(chars)[..n])) <= Text(units, chars)
  {
    BoundaryStates(units, chars, m, n);
  }

  /** The states of the file that the ticks see. */
  function Observed(units: Character -> string, bytes: seq<Byte>, start: nat, lengths: seq<nat>): (states: seq<string>)
    requires start <= |bytes| && forall j | 0 <= j < |lengths| :: OffsetOf(start, lengths, j) <= lengths[j] <= |bytes|
    ensures |states| == |lengths|
  {
    seq(|lengths|, i requires 0 <= i < |lengths| => ReadBefore(units, bytes, start, lengths, i + 1))
  }

  /** A state lies between the decoded start offset and the text, and later states continue it. */
  lemma StateIs(units: Character -> string, chars: seq<Character>, start: nat, lengths: seq<nat>, i: nat)
    requires AllWellFormed(chars) && ReadsBetween(chars, start, lengths) && i < |lengths|
    ensures forall j | 0 <= j < |lengths| :: OffsetOf(start, lengths, j) <= lengths[j] <= |Encoded(chars)|
    ensures var states := Observed(units, Encoded(chars), start, lengths);
      && states[i] == Text(units, Decode(Encoded(chars)[..lengths[i]]))
      && Text(units, Decode(Encoded(chars)[..start])) <= states[i] <= Text(units, chars)
  {
    hide Text, Decode, Boundary, Encoded, AllWellFormed, ReadBefore;
    OffsetsRise(chars, start, lengths);
    ReadBeforeIs(units, chars, start, lengths, i + 1);
    StatesAreOrdered(units, chars, start, lengths[i]);
  }

  lemma StatesRise(units: Character -> string, chars: seq<Character>, start: nat, lengths: seq<nat>, i: nat, j: nat)
    requires AllWellFormed(chars) && ReadsBetween(chars, start, lengths) && i < j < |lengths|
    ensures forall j | 0 <= j < |lengths| :: OffsetOf(start, lengths, j) <= lengths[j] <= |Encoded(chars)|
    ensures var states := Observed(units, Encoded(chars), start, lengths); states[i] <= states[j]
  {
    hide Text, Decode, Boundary, Encoded, AllWellFormed, ReadBefore, Observed;
    StateIs(units, chars, start, lengths, i);
    StateIs(units, chars, start, lengths, j);
    StatesAreOrdered(units, chars, lengths[i], lengths[j]);
  }

  /** The decoded states grow towards the text, from the decoded start offset. */
  lemma DecodedStatesGrow(units: Character -> string, chars: seq<Character>, start: nat, lengths: seq<nat>)
    requires AllWellFormed(chars) && ReadsBetween(chars, start, lengths)
    ensures forall j | 0 <= j < |lengths| :: OffsetOf(start, lengths, j) <= lengths[j] <= |Encoded(chars)|
    ensures var first := |Text(units, Decode(Encoded(chars)[..start]))|;
      PerfReader.Growing(Observed(units, Encoded(chars), start, lengths), Text(units, chars), first, first)
  {
    OffsetsRise(chars, start, lengths);
    StatesAreOrdered(units, chars, start, start);
    hide *;
    var states, text := Observed(units, Encoded(chars), start, lengths), Text(units, chars);
    var begin := Text(units, Decode(Encoded(chars)[..start]));
    forall i | 0 <= i < |states| ensures begin <= states[i] <= text {
      StateIs(units, chars, start, lengths, i);
    }
    forall i, j | 0 <= i < j < |states| ensures states[i] <= states[j] {
      StatesRise(units, chars, start, lengths, i, j);
    }
    GrowingIs(states, text, begin);
  }

  lemma GrowingIs(states: seq<string>, text: string, begin: string)
    requires begin <= text && (forall i | 0 <= i < |states| :: begin <= states[i] <= text)
    requires forall i, j | 0 <= i < j < |states| :: states[i] <= states[j]
    ensures PerfReader.Growing(states, text, |begin|, |begin|)
  {
  }

  /** What is decoded read by read, the last read at reconcile included, is the text. */
  lemma FinalIs(units: Character -> string, chars: seq<Character>, start: nat, lengths: seq<nat>)
    requires AllWellFormed(chars) && ReadsBetween(chars, start, lengths)
    ensures forall j | 0 <= j < |lengths| :: OffsetOf(start, lengths, j) <= lengths[j] <= |Encoded(chars)|
    ensures OffsetOf(start, lengths, |lengths|) <= |Encoded(chars)|
    ensures ReadBefore(units, Encoded(chars), start, lengths, |lengths|) + ReadOf(units, Encoded(chars), start, lengths, |lengths|)
         == Text(units, chars)
  {
    var bytes, last := Encoded(chars), OffsetOf(start, lengths, |lengths|);
    OffsetsRise(chars, start, lengths);
    ReadBeforeIs(units, chars, start, lengths, |lengths|);
    DecodeInverts(chars);
    BoundaryIff(chars, |bytes|);
    hide Decode, Text, Boundary, Encoded, AllWellFormed;
    BoundaryStates(units, chars, last, |bytes|);
    assert bytes[..|bytes|] == bytes;
  }

  /** After the start offset the text is that of the bytes after it. */
  lemma TextAfterStart(units: Character -> string, chars: seq<Character>, start: nat)
    requires AllWellFormed(chars) && start <= |Encoded(chars)| && Boundary(chars, start)
    ensures |Text(units, Decode(Encoded(chars)[..start]))| <= |Text(units, chars)|
    ensures var first := |Text(units, Decode(Encoded(chars)[..start]))|;
      && Text(units, chars)[..first] == Text(units, Decode(Encoded(chars)[..start]))
      && Text(units, chars)[first..] == Text(units, Decode(Encoded(chars)[start..]))
  {
    var k := DecodeUpTo(chars, start);
    hide Decode, Text, Boundary, Encoded, AllWellFormed;
    TextAppend(units, chars[..k], chars[k..]);
    assert chars[..k] + chars[k..] == chars;
  }

  // ---------------------------------------------------------------------------------------------
  // Line numbers
  // ---------------------------------------------------------------------------------------------

  function NewlineBytes(bytes: seq<Byte>): nat {
    if bytes == [] then 0 else (if bytes[0] == 0x0a then 1 else 0) + NewlineBytes(bytes[1..])
  }

  lemma {:induction false} NewlineBytesAppend(a: seq<Byte>, b: seq<Byte>)
    ensures NewlineBytes(a + b) == NewlineBytes(a) + NewlineBytes(b)
  {
    if a == [] {
      assert a + b == b;
    } else {
      assert (a + b)[1..] == a[1..] + b;
      NewlineBytesAppend(a[1..], b);
    }
  }

  lemma {:induction false} NoNewlineBytes(bytes: seq<Byte>)
    requires 0x0a !in bytes
    ensures NewlineBytes(bytes) == 0
  {
    if bytes != [] {
      NoNewlineBytes(bytes[1..]);
    }
  }

  /** The one character that is a newline is the byte 0x0a. */
  ghost predicate NewlineIsNewline(units: Character -> string) {
    forall c | WellFormed(c) :: NewlineCount(units(c)) == if c == [0x0a] then 1 else 0
  }

  lemma NewlinesOfCharacter(units: Character -> string, c: Character)
    requires WellFormed(c) && NewlineIsNewline(units)
    ensures NewlineBytes(c) == NewlineCount(units(c))
  {
    assert forall i | 0 < i < |c| :: c[i] != 0x0a;
    if c[0] == 0x0a {
      assert c == [0x0a];
    } else {
      NoNewlineBytes(c);
    }
  }

  /** countNewlinesBeforeOffset counts bytes: their number is that of the newlines of the decoded text. */
  lemma {:induction false} NewlinesAreBytes(units: Character -> string, chars: seq<Character>)
    requires AllWellFormed(chars) && NewlineIsNewline(units)
    ensures NewlineBytes(Encoded(chars)) == NewlineCount(Text(units, chars))
  {
    if chars != [] {
      var c, rest := chars[0], chars[1..];
      NewlinesAreBytes(units, rest);
      NewlinesOfCharacter(units, c);
      NewlineBytesAppend(c, Encoded(rest));
      TextAppend(units, [c], rest);
      assert [c] + rest == chars;
      NewlineCountAppend(units(c), Text(units, rest));
      assert Text(units, [c]) == "" + units(c) == units(c);
    }
  }

  /**
   * A whole life on bytes: the reader starts at a byte offset, reads the file at these lengths and at
   * reconcile, and decodes each read by itself. Its records are those of one parse of the decoded
   * bytes after the offset, and so are its failing lines, each reported at most once and under its
   * number in the file, or else counted; all are reported if no pass meets more than twenty.
   */
  method WatchBytes(classify: string -> Verdict, units: Character -> string, bytes: seq<Byte>, start: nat, lengths: seq<nat>,
                    ghost chars: seq<Character>) returns (reader: PerfReader)
    requires bytes == Encoded(chars) && AllWellFormed(chars) && ReadsBetween(chars, start, lengths)
    ensures fresh(reader) && reader.classify == classify
    ensures var lines := Lines.Split(Text(units, Decode(bytes[start..])));
      var failures := Failures(classify, lines, NewlineCount(Text(units, Decode(bytes[..start]))));
      && OnlyRecords(reader.emitted) == Records(classify, lines)
      && EmitsRecords(classify, lines, OnlyRecords(reader.emitted))
      && FailuresOk(OnlyFailures(reader.emitted), failures)
      && (OffsetsRise(chars, start, lengths);
          var first := |Text(units, Decode(bytes[..start]))|;
          PerfReader.FewPerPass(classify, Observed(units, bytes, start, lengths), Text(units, chars), first, first)
          ==> OnlyFailures(reader.emitted) == failures)
  {
    OffsetsRise(chars, start, lengths);
    DecodedStatesGrow(units, chars, start, lengths);
    FinalIs(units, chars, start, lengths);
    TextAfterStart(units, chars, start);
    var first := |Text(units, Decode(bytes[..start]))|;
    var observed := Observed(units, bytes, start, lengths);
    var final := ReadBefore(units, bytes, start, lengths, |lengths|) + ReadOf(units, bytes, start, lengths, |lengths|);
    hide Text, Decode, Observed, ReadBefore, ReadOf, Records, Failures, OnlyRecords, OnlyFailures, FailuresOk, NewlineCount, EmitsRecords,
         PerfReader.FewPerPass;
    reader := new PerfReader(classify, PerfReader.Seen(observed, final, 0), first);
    NothingReported(reader.reported);
    reader.WatchThenReconcile(observed, final);
  }

  lemma NothingReported(reported: seq<Emission>)
    ensures reported == [] ==> NoneSuppressed(reported)
  {
  }
}
