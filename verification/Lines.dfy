/** Newline framing, shared by the gateway stream reader and the perf.jsonl reader. */
module Lines {

  /** The newline-terminated lines of `text`, without their newlines. */
  function Complete(text: string): seq<string> {
    if text == "" then []
    else
      var front, c := text[..|text| - 1], text[|text| - 1];
      if c == '\n' then Complete(front) + [Rest(front)] else Complete(front)
  }

  /** What follows the last newline of `text`. */
  function Rest(text: string): string {
    if text == "" then ""
    else
      var front, c := text[..|text| - 1], text[|text| - 1];
      if c == '\n' then "" else Rest(front) + [c]
  }

  /** `text.split("\n")`. */
  function Split(text: string): seq<string> {
    Complete(text) + [Rest(text)]
  }

  /** Puts the separators back. */
  function Unlines(lines: seq<string>): string {
    if lines == [] then "" else Unlines(lines[..|lines| - 1]) + lines[|lines| - 1] + "\n"
  }

  function Concat(chunks: seq<string>): string {
    if chunks == [] then "" else Concat(chunks[..|chunks| - 1]) + chunks[|chunks| - 1]
  }

  /** Splitting loses nothing, and no part contains a separator: this determines the split. */
  lemma {:induction false} SplitIsFaithful(text: string)
    ensures Unlines(Complete(text)) + Rest(text) == text
    ensures '\n' !in Rest(text)
    ensures forall i | 0 <= i < |Complete(text)| :: '\n' !in Complete(text)[i]
  {
    if text != "" {
      hide *;
      var front, c := text[..|text| - 1], text[|text| - 1];
      assert text == front + [c];
      SplitIsFaithful(front);
      OneMore(front, c);
      if c == '\n' {
        UnlinesOneMore(Complete(front), Rest(front));
      } else {
        Regroup(Unlines(Complete(front)), Rest(front), [c]);
      }
    }
  }

  lemma UnlinesOneMore(lines: seq<string>, line: string)
    ensures Unlines(lines + [line]) == Unlines(lines) + line + "\n"
  {
    assert (lines + [line])[..|lines|] == lines;
  }

  /** Framing a text in two reads yields the same lines and leftover as framing it at once. */
  lemma {:induction false} FrameAppend(a: string, b: string)
    ensures Complete(a + b) == Complete(a) + Complete(Rest(a) + b)
    ensures Rest(a + b) == Rest(Rest(a) + b)
  {
    hide *;
    if b == "" {
      FrameNothing(a);
      assert a + b == a && Rest(a) + b == Rest(a);
    } else {
      var front, c := b[..|b| - 1], b[|b| - 1];
      FrameAppend(a, front);
      OneMore(a + front, c);
      OneMore(Rest(a) + front, c);
      assert b == front + [c];
      Regroup(a, front, [c]);
      Regroup(Rest(a), front, [c]);
      assert Complete(a) + Complete(Rest(a) + front) + (if c == '\n' then [Rest(Rest(a) + front)] else [])
          == Complete(a) + (Complete(Rest(a) + front) + (if c == '\n' then [Rest(Rest(a) + front)] else []));
    }
  }

  lemma FrameNothing(a: string)
    ensures Complete(a) == Complete(a) + Complete(Rest(a)) && Rest(a) == Rest(Rest(a))
  {
    SplitIsFaithful(a);
    NoNewlineNoLines(Rest(a));
  }

  lemma Regroup(a: string, b: string, c: string)
    ensures a + (b + c) == a + b + c
  {
  }

  lemma OneMore(front: string, c: char)
    ensures Complete(front + [c]) == Complete(front) + (if c == '\n' then [Rest(front)] else [])
    ensures Rest(front + [c]) == if c == '\n' then "" else Rest(front) + [c]
  {
    assert (front + [c])[..|front|] == front;
  }

  lemma {:induction false} NoNewlineNoLines(line: string)
    requires '\n' !in line
    ensures Complete(line) == [] && Rest(line) == line
  {
    if line != "" {
      NoNewlineNoLines(line[..|line| - 1]);
    }
  }

  /** Ending the text with a newline turns the leftover into the last line. */
  lemma CloseLastLine(text: string)
    ensures Complete(text + "\n") == Split(text)
    ensures Rest(text + "\n") == ""
  {
    assert (text + "\n")[..|text|] == text;
  }
}
