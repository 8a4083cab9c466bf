/**
 * Decoding UTF-8 in pieces, each alone, as the perf.jsonl reader does with what a tick reads. The
 * decoder is that of the Encoding Standard: a maximal prefix of a character that cannot be completed
 * becomes one replacement character. A character is named by the bytes that encode it.
 */
module Utf8Decoding {
  import opened Utf8

  type Character = seq<Byte>

  const REPLACEMENT: Character := [0xef, 0xbf, 0xbd]

  /** The length of the characters that start with this byte; 0 if none does. */
  function Length(lead: Byte): nat {
    if lead < 0x80 then 1
    else if 0xc2 <= lead <= 0xdf then 2
    else if 0xe0 <= lead <= 0xef then 3
    else if 0xf0 <= lead <= 0xf4 then 4
    else 0
  }

  /** May `b` stand at position `k` of a character that starts with `lead`? */
  predicate Continues(lead: Byte, k: nat, b: Byte) {
    && IsContinuation(b)
    && (k == 1 ==>
      && (lead == 0xe0 ==> 0xa0 <= b) && (lead == 0xed ==> b <= 0x9f)
      && (lead == 0xf0 ==> 0x90 <= b) && (lead == 0xf4 ==> b <= 0x8f))
  }

  predicate WellFormed(c: Character) {
    c != [] && Length(c[0]) == |c| && forall i | 0 < i < |c| :: Continues(c[0], i, c[i])
  }

  ghost predicate AllWellFormed(chars: seq<Character>) {
    forall i | 0 <= i < |chars| :: WellFormed(chars[i])
  }

  /** A Unicode scalar value. */
  predicate IsScalar(u: nat) {
    u < 0xd800 || 0xe000 <= u <= 0x10ffff
  }

  /** Its bytes, by the definition of UTF-8 in section 3 of RFC 3629. */
  function BytesOf(u: nat): Character
    requires IsScalar(u)
  {
    if u < 0x80 then [u]
    else if u < 0x800 then [0xc0 + u / 0x40, 0x80 + u % 0x40]
    else if u < 0x1_0000 then [0xe0 + u / 0x1000, 0x80 + u / 0x40 % 0x40, 0x80 + u % 0x40]
    else [0xf0 + u / 0x4_0000, 0x80 + u / 0x1000 % 0x40, 0x80 + u / 0x40 % 0x40, 0x80 + u % 0x40]
  }

  /** The well-formed characters are exactly the encodings of scalar values. */
  lemma WellFormedIff(c: Character)
    ensures WellFormed(c) <==> exists u :: IsScalar(u) && c == BytesOf(u)
  {
    if WellFormed(c) {
      var u := ScalarOf(c);
    }
    if u :| IsScalar(u) && c == BytesOf(u) {
      BytesAreWellFormed(u);
    }
  }

  lemma BytesAreWellFormed(u: nat)
    requires IsScalar(u)
    ensures WellFormed(BytesOf(u))
  {
    var c := BytesOf(u);
    forall i | 0 < i < |c| ensures Continues(c[0], i, c[i]) {
    }
  }

  lemma ScalarOf(c: Character) returns (u: nat)
    requires WellFormed(c)
    ensures IsScalar(u) && c == BytesOf(u)
  {
    assert forall i | 0 < i < |c| :: Continues(c[0], i, c[i]);
    if |c| == 1 {
      u := c[0];
    } else if |c| == 2 {
      u := TwoBytes(c[0], c[1]);
    } else if |c| == 3 {
      u := ThreeBytes(c[0], c[1], c[2]);
    } else {
      u := FourBytes(c[0], c[1], c[2], c[3]);
    }
  }

  lemma TwoBytes(a: int, b: int) returns (u: nat)
    requires 0xc2 <= a <= 0xdf && 0x80 <= b <= 0xbf
    ensures IsScalar(u) && BytesOf(u) == [a, b]
  {
    u := (a - 0xc0) * 0x40 + (b - 0x80);
  }

  lemma ThreeBytes(a: int, b: int, c: int) returns (u: nat)
    requires 0xe0 <= a <= 0xef && 0x80 <= b <= 0xbf && 0x80 <= c <= 0xbf
    requires (a == 0xe0 ==> 0xa0 <= b) && (a == 0xed ==> b <= 0x9f)
    ensures IsScalar(u) && BytesOf(u) == [a, b, c]
  {
    u := (a - 0xe0) * 0x1000 + (b - 0x80) * 0x40 + (c - 0x80);
    assert u / 0x40 == (a - 0xe0) * 0x40 + (b - 0x80);
  }

  lemma FourBytes(a: int, b: int, c: int, d: int) returns (u: nat)
    requires 0xf0 <= a <= 0xf4 && 0x80 <= b <= 0xbf && 0x80 <= c <= 0xbf && 0x80 <= d <= 0xbf
    requires (a == 0xf0 ==> 0x90 <= b) && (a == 0xf4 ==> b <= 0x8f)
    ensures IsScalar(u) && BytesOf(u) == [a, b, c, d]
  {
    u := (a - 0xf0) * 0x4_0000 + (b - 0x80) * 0x1000 + (c - 0x80) * 0x40 + (d - 0x80);
    assert u / 0x40 == (a - 0xf0) * 0x1000 + (b - 0x80) * 0x40 + (c - 0x80);
    assert u / 0x1000 == (a - 0xf0) * 0x40 + (b - 0x80);
  }

  /** How many bytes from the front fit into one character, of which `k` are known to. */
  function Matching(bytes: seq<Byte>, k: nat): (n: nat)
    requires 1 <= k <= |bytes|
    ensures k <= n <= |bytes|
    decreases |bytes| - k
  {
    if k >= Length(bytes[0]) || k == |bytes| || !Continues(bytes[0], k, bytes[k]) then k else Matching(bytes, k + 1)
  }

  function Taken(bytes: seq<Byte>): nat
    requires bytes != []
  {
    Matching(bytes, 1)
  }

  function First(bytes: seq<Byte>): Character
    requires bytes != []
  {
    if Taken(bytes) == Length(bytes[0]) then bytes[..Taken(bytes)] else REPLACEMENT
  }

  function Decode(bytes: seq<Byte>): seq<Character> {
    if bytes == [] then [] else [First(bytes)] + Decode(bytes[Taken(bytes)..])
  }

  function DecodeEach(pieces: seq<seq<Byte>>): seq<Character> {
    if pieces == [] then [] else Decode(pieces[0]) + DecodeEach(pieces[1..])
  }

  // ---------------------------------------------------------------------------------------------
  // Whole characters
  // ---------------------------------------------------------------------------------------------

  lemma {:induction false} MatchingCharacter(c: Character, rest: seq<Byte>, k: nat)
    requires WellFormed(c) && 1 <= k <= |c|
    ensures Matching(c + rest, k) == |c|
    decreases |c| - k
  {
    if k < |c| {
      MatchingCharacter(c, rest, k + 1);
    }
  }

  /** Whole characters decode to themselves, whatever follows. */
  lemma {:induction false} DecodeCharacters(chars: seq<Character>, rest: seq<Byte>)
    requires AllWellFormed(chars)
    ensures Decode(Encoded(chars) + rest) == chars + Decode(rest)
  {
    hide Decode;
    if chars == [] {
      assert Encoded(chars) + rest == rest;
    } else {
      var c, more := chars[0], Encoded(chars[1..]) + rest;
      DecodeCharacters(chars[1..], rest);
      DecodeFirst(c, more);
      assert Encoded(chars) + rest == c + more;
      assert [c] + (chars[1..] + Decode(rest)) == chars + Decode(rest);
    }
  }

  lemma DecodeFirst(c: Character, more: seq<Byte>)
    requires WellFormed(c)
    ensures Decode(c + more) == [c] + Decode(more)
  {
    MatchingCharacter(c, more, 1);
    assert (c + more)[|c|..] == more && (c + more)[..|c|] == c;
  }

  /** Decoding inverts encoding. */
  lemma DecodeInverts(chars: seq<Character>)
    requires AllWellFormed(chars)
    ensures Decode(Encoded(chars)) == chars
  {
    DecodeCharacters(chars, []);
    assert Encoded(chars) + [] == Encoded(chars);
  }

  lemma {:induction false} EncodedAppend(a: seq<Character>, b: seq<Character>)
    ensures Encoded(a + b) == Encoded(a) + Encoded(b)
  {
    if a == [] {
      assert a + b == b;
    } else {
      assert (a + b)[1..] == a[1..] + b;
      EncodedAppend(a[1..], b);
    }
  }

  // ---------------------------------------------------------------------------------------------
  // Counting
  // ---------------------------------------------------------------------------------------------

  /** The bytes that do not continue a character. */
  function Starts(bytes: seq<Byte>): nat {
    if bytes == [] then 0 else (if IsContinuation(bytes[0]) then 0 else 1) + Starts(bytes[1..])
  }

  lemma {:induction false} StartsAppend(a: seq<Byte>, b: seq<Byte>)
    ensures Starts(a + b) == Starts(a) + Starts(b)
  {
    if a == [] {
      assert a + b == b;
    } else {
      assert (a + b)[1..] == a[1..] + b;
      StartsAppend(a[1..], b);
    }
  }

  lemma {:induction false} NoStarts(bytes: seq<Byte>)
    requires forall i | 0 <= i < |bytes| :: IsContinuation(bytes[i])
    ensures Starts(bytes) == 0
  {
    if bytes != [] {
      NoStarts(bytes[1..]);
    }
  }

  lemma {:induction false} MatchingContinues(bytes: seq<Byte>, k: nat)
    requires 1 <= k <= |bytes|
    ensures forall i | k <= i < Matching(bytes, k) :: IsContinuation(bytes[i])
    decreases |bytes| - k
  {
    if !(k >= Length(bytes[0]) || k == |bytes| || !Continues(bytes[0], k, bytes[k])) {
      MatchingContinues(bytes, k + 1);
    }
  }

  ghost predicate BeginsInside(piece: seq<Byte>) {
    piece != [] && IsContinuation(piece[0])
  }

  /** Every byte that starts a character yields one, and so does a leading byte that continues one. */
  lemma {:induction false} DecodeYields(bytes: seq<Byte>)
    ensures |Decode(bytes)| >= Starts(bytes) + (if BeginsInside(bytes) then 1 else 0)
    decreases |bytes|
  {
    if bytes != [] {
      var n := Taken(bytes);
      MatchingContinues(bytes, 1);
      DecodeYields(bytes[n..]);
      NoStarts(bytes[1..n]);
      StartsAppend(bytes[1..n], bytes[n..]);
      assert bytes[1..] == bytes[1..n] + bytes[n..];
    }
  }

  lemma {:induction false} CharactersStart(chars: seq<Character>)
    requires AllWellFormed(chars)
    ensures Starts(Encoded(chars)) == |chars|
  {
    if chars != [] {
      var c := chars[0];
      CharactersStart(chars[1..]);
      StartsAppend(c, Encoded(chars[1..]));
      NoStarts(c[1..]);
    }
  }

  function Flatten(pieces: seq<seq<Byte>>): seq<Byte> {
    if pieces == [] then [] else pieces[0] + Flatten(pieces[1..])
  }

  ghost predicate NoneBeginsInside(pieces: seq<seq<Byte>>) {
    forall i | 0 <= i < |pieces| :: !BeginsInside(pieces[i])
  }

  lemma {:induction false} PiecesYield(pieces: seq<seq<Byte>>)
    ensures |DecodeEach(pieces)| >= Starts(Flatten(pieces)) + (if NoneBeginsInside(pieces) then 0 else 1)
  {
    if pieces != [] {
      DecodeYields(pieces[0]);
      PiecesYield(pieces[1..]);
      StartsAppend(pieces[0], Flatten(pieces[1..]));
      assert NoneBeginsInside(pieces[1..]) && !BeginsInside(pieces[0]) ==> NoneBeginsInside(pieces) by {
        assert forall i | 0 < i < |pieces| :: pieces[i] == pieces[1..][i - 1];
      }
    }
  }

  // ---------------------------------------------------------------------------------------------
  // Cuts
  // ---------------------------------------------------------------------------------------------

  lemma InsideContinues(chars: seq<Character>)
    requires AllWellFormed(chars) && chars != []
    ensures forall i | 0 < i < |chars[0]| :: IsContinuation(Encoded(chars)[i])
    ensures Encoded(chars) != [] && !IsContinuation(Encoded(chars)[0])
  {
    assert forall i | 0 < i < |chars[0]| :: Continues(chars[0][0], i, chars[0][i]);
  }

  /** The number of whole characters before the cut at `n`, which is not inside of one. */
  lemma {:induction false} CutAtCharacter(chars: seq<Character>, n: nat) returns (k: nat)
    requires AllWellFormed(chars) && n <= |Encoded(chars)|
    requires n < |Encoded(chars)| ==> !IsContinuation(Encoded(chars)[n])
    ensures k <= |chars| && n == |Encoded(chars[..k])|
    ensures Encoded(chars)[..n] == Encoded(chars[..k]) && Encoded(chars)[n..] == Encoded(chars[k..])
  {
    if n == 0 {
      k := 0;
      assert chars[..0] == [] && chars[0..] == chars;
    } else {
      var c, rest := chars[0], chars[1..];
      InsideContinues(chars);
      assert n - |c| < |Encoded(rest)| ==> Encoded(chars)[n] == Encoded(rest)[n - |c|];
      var k' := CutAtCharacter(rest, n - |c|);
      k := k' + 1;
      assert chars[..k][0] == c && chars[..k][1..] == rest[..k'] && chars[k..] == rest[k'..];
      assert Encoded(chars)[..n] == c + Encoded(rest)[..n - |c|];
      assert Encoded(chars)[n..] == Encoded(rest)[n - |c|..];
    }
  }

  /** The first byte after a cut is the first byte of a later piece. */
  lemma {:induction false} NextPiece(pieces: seq<seq<Byte>>)
    requires NoneBeginsInside(pieces)
    ensures Flatten(pieces) != [] ==> !IsContinuation(Flatten(pieces)[0])
  {
    if pieces != [] {
      assert forall i | 0 <= i < |pieces| - 1 :: pieces[1..][i] == pieces[i + 1];
      NextPiece(pieces[1..]);
    }
  }

  lemma EncodesSomething(chars: seq<Character>)
    requires AllWellFormed(chars)
    ensures Encoded(chars) == [] ==> chars == []
    ensures !BeginsInside(Encoded(chars))
  {
    if chars != [] {
      InsideContinues(chars);
    }
  }

  /** Decoding the pieces of a text one by one gives the text exactly when no piece begins inside a character. */
  lemma {:induction false} PiecesDecodeIff(chars: seq<Character>, pieces: seq<seq<Byte>>)
    requires AllWellFormed(chars) && Flatten(pieces) == Encoded(chars)
    ensures DecodeEach(pieces) == chars <==> NoneBeginsInside(pieces)
    decreases |pieces|
  {
    PiecesYield(pieces);
    CharactersStart(chars);
    hide *;
    if NoneBeginsInside(pieces) {
      if pieces == [] {
        EncodesSomething(chars);
        NothingDecodes();
      } else {
        var k := FirstPiece(chars, pieces);
        PiecesDecodeIff(chars[k..], pieces[1..]);
        assert chars == chars[..k] + chars[k..];
        EachIs(pieces);
      }
    }
  }

  lemma NothingDecodes()
    ensures Flatten([]) == [] && DecodeEach([]) == []
  {
  }

  lemma EachIs(pieces: seq<seq<Byte>>)
    requires pieces != []
    ensures DecodeEach(pieces) == Decode(pieces[0]) + DecodeEach(pieces[1..])
  {
  }

  /** A first piece that the next one does not continue holds whole characters. */
  lemma FirstPiece(chars: seq<Character>, pieces: seq<seq<Byte>>) returns (k: nat)
    requires AllWellFormed(chars) && Flatten(pieces) == Encoded(chars) && pieces != [] && NoneBeginsInside(pieces)
    ensures k <= |chars| && Decode(pieces[0]) == chars[..k] && AllWellFormed(chars[k..])
    ensures NoneBeginsInside(pieces[1..]) && Flatten(pieces[1..]) == Encoded(chars[k..])
  {
    var n := |pieces[0]|;
    assert forall i | 0 <= i < |pieces| - 1 :: pieces[1..][i] == pieces[i + 1];
    NextPiece(pieces[1..]);
    hide Decode, WellFormed;
    assert pieces[0] == Encoded(chars)[..n] && Flatten(pieces[1..]) == Encoded(chars)[n..];
    k := CutAtCharacter(chars, n);
    DecodeInverts(chars[..k]);
  }

  /** A cut between two characters, which is one that splits none. */
  ghost predicate Boundary(chars: seq<Character>, n: nat) {
    exists k :: 0 <= k <= |chars| && |Encoded(chars[..k])| == n
  }

  /** Reading up to `n` and from there on gives the text exactly when `n` is between two characters. */
  lemma CutDecodesIff(chars: seq<Character>, n: nat)
    requires AllWellFormed(chars) && n <= |Encoded(chars)|
    ensures Decode(Encoded(chars)[..n]) + Decode(Encoded(chars)[n..]) == chars <==> Boundary(chars, n)
  {
    var before, after := Encoded(chars)[..n], Encoded(chars)[n..];
    var pieces := [before, after];
    var none: seq<seq<Byte>> := [];
    assert pieces[1..] == [after] && pieces[1..][1..] == none;
    assert Flatten([after]) == after + Flatten(none) == after;
    assert Flatten(pieces) == pieces[0] + Flatten(pieces[1..]) == before + after;
    assert before + after == Encoded(chars);
    assert DecodeEach([after]) == Decode(after) + DecodeEach(none) == Decode(after);
    assert DecodeEach(pieces) == Decode(before) + Decode(after);
    PiecesDecodeIff(chars, pieces);
    EncodesSomething(chars);
    BoundaryIff(chars, n);
    assert !BeginsInside(before);
    assert NoneBeginsInside(pieces) <==> !BeginsInside(pieces[1]);
  }

  // ---------------------------------------------------------------------------------------------
  // What the reader sees of a growing file
  // ---------------------------------------------------------------------------------------------

  /** The UTF-16 code units of a text, given those of each character. */
  function Text(units: Character -> string, chars: seq<Character>): string {
    if chars == [] then "" else Text(units, chars[..|chars| - 1]) + units(chars[|chars| - 1])
  }

  lemma {:induction false} TextAppend(units: Character -> string, a: seq<Character>, b: seq<Character>)
    ensures Text(units, a + b) == Text(units, a) + Text(units, b)
  {
    if b == [] {
      assert a + b == a;
    } else {
      assert (a + b)[..|a + b| - 1] == a + b[..|b| - 1];
      TextAppend(units, a, b[..|b| - 1]);
    }
  }

  /** A boundary is where the text ends or a character starts. */
  lemma BoundaryIff(chars: seq<Character>, n: nat)
    requires AllWellFormed(chars) && n <= |Encoded(chars)|
    ensures Boundary(chars, n) <==> n == |Encoded(chars)| || !IsContinuation(Encoded(chars)[n])
  {
    if Boundary(chars, n) {
      var k :| 0 <= k <= |chars| && |Encoded(chars[..k])| == n;
      EncodedAppend(chars[..k], chars[k..]);
      assert chars[..k] + chars[k..] == chars;
      EncodesSomething(chars[k..]);
    }
    if n == |Encoded(chars)| || !IsContinuation(Encoded(chars)[n]) {
      var k := CutAtCharacter(chars, n);
    }
  }

  lemma DecodeUpTo(chars: seq<Character>, n: nat) returns (k: nat)
    requires AllWellFormed(chars) && n <= |Encoded(chars)| && Boundary(chars, n)
    ensures k <= |chars| && Encoded(chars[..k]) == Encoded(chars)[..n]
    ensures Decode(Encoded(chars)[..n]) == chars[..k] && Decode(Encoded(chars)[n..]) == chars[k..]
  {
    BoundaryIff(chars, n);
    k := CutAtCharacter(chars, n);
    DecodeInverts(chars[..k]);
    DecodeInverts(chars[k..]);
  }

  lemma DecodeBetween(chars: seq<Character>, m: nat, n: nat) returns (j: nat, k: nat)
    requires AllWellFormed(chars) && m <= n <= |Encoded(chars)| && Boundary(chars, m) && Boundary(chars, n)
    ensures j <= k <= |chars|
    ensures Decode(Encoded(chars)[..m]) == chars[..j] && Decode(Encoded(chars)[..n]) == chars[..k]
    ensures Decode(Encoded(chars)[m..n]) == chars[j..k]
  {
    k := DecodeUpTo(chars, n);
    var front := chars[..k];
    BoundaryIff(chars, m);
    BoundaryIff(front, m);
    FrontWellFormed(chars, k);
    hide *;
    j := DecodeUpTo(front, m);
    assert Encoded(front)[m..] == Encoded(chars)[m..n] && Encoded(front)[..m] == Encoded(chars)[..m];
    assert front[j..] == chars[j..k] && front[..j] == chars[..j];
  }

  /**
   * Two lengths of a growing file that lie between characters: what was decoded first is a prefix of
   * what is decoded later, and the bytes between them, decoded alone, are the text appended.
   */
  lemma BoundaryStates(units: Character -> string, chars: seq<Character>, m: nat, n: nat)
    requires AllWellFormed(chars) && m <= n <= |Encoded(chars)| && Boundary(chars, m) && Boundary(chars, n)
    ensures Text(units, Decode(Encoded(chars)[..m])) + Text(units, Decode(Encoded(chars)[m..n])) == Text(units, Decode(Encoded(chars)[..n]))
    ensures Text(units, Decode(Encoded(chars)[..n])) <= Text(units, chars)
  {
    hide *;
    var j, k := DecodeBetween(chars, m, n);
    TextAppend(units, chars[..j], chars[j..k]);
    TextAppend(units, chars[..k], chars[k..]);
    assert chars[..j] + chars[j..k] == chars[..k] && chars[..k] + chars[k..] == chars;
  }

  lemma FrontWellFormed(chars: seq<Character>, k: nat)
    requires AllWellFormed(chars) && k <= |chars|
    ensures AllWellFormed(chars[..k])
  {
  }

  /** An e acute cut in two: both halves become replacement characters. */
  lemma CutInsideCharacter()
    ensures AllWellFormed([[0xc3, 0xa9]]) && Encoded([[0xc3, 0xa9]]) == [0xc3, 0xa9]
    ensures Decode([0xc3, 0xa9]) == [[0xc3, 0xa9]]
    ensures Decode([0xc3]) + Decode([0xa9]) == [REPLACEMENT, REPLACEMENT]
  {
    var none: seq<Character>, nothing: seq<Byte> := [], [];
    assert [[0xc3, 0xa9]][1..] == none;
    DecodeInverts([[0xc3, 0xa9]]);
    assert [0xc3][1..] == nothing && [0xa9][1..] == nothing;
  }
}
