/** Cutting UTF-8 text to a number of bytes without splitting a character. */
module Utf8 {
  import opened Prelude

  type Byte = b: int | 0 <= b < 256

  predicate IsContinuation(b: Byte) {
    0x80 <= b <= 0xbf
  }

  /** The bytes of one character: a byte that starts one, then continuation bytes only. */
  predicate IsCharacter(c: seq<Byte>) {
    c != [] && !IsContinuation(c[0]) && forall i | 0 < i < |c| :: IsContinuation(c[i])
  }

  function Encoded(chars: seq<seq<Byte>>): seq<Byte> {
    if chars == [] then [] else chars[0] + Encoded(chars[1..])
  }

  /** How many of the characters fit, taken from the front. */
  function Fitting(chars: seq<seq<Byte>>, maxBytes: int): (k: nat)
    ensures k <= |chars|
  {
    if chars == [] || |chars[0]| > maxBytes then 0 else 1 + Fitting(chars[1..], maxBytes - |chars[0]|)
  }

  /** It is the largest such number. */
  lemma {:induction false} FittingIsLargest(chars: seq<seq<Byte>>, maxBytes: nat, k: nat)
    requires k <= |chars| && forall i | 0 <= i < |chars| :: IsCharacter(chars[i])
    ensures |Encoded(chars[..k])| <= maxBytes <==> k <= Fitting(chars, maxBytes)
  {
    if k > 0 {
      assert chars[..k][1..] == chars[1..][..k - 1] && chars[..k][0] == chars[0];
      if |chars[0]| <= maxBytes {
        FittingIsLargest(chars[1..], maxBytes - |chars[0]|, k - 1);
      }
    }
  }

  /** Going back from the limit to the next byte that does not continue a character ends at the last whole character. */
  lemma {:induction false} CutAt(chars: seq<seq<Byte>>, maxBytes: nat, end: nat)
    requires forall i | 0 <= i < |chars| :: IsCharacter(chars[i])
    requires CutOk(Encoded(chars), maxBytes, end)
    ensures Encoded(chars)[..end] == Encoded(chars[..Fitting(chars, maxBytes)])
  {
    assert |Encoded(chars)| > 0;
    hide CutOk, IsCharacter;
    var first, rest := chars[0], chars[1..];
    assert IsCharacter(first) && chars == [first] + rest;
    if |first| <= maxBytes {
      StartsCharacter(rest);
      CutBehind(first, Encoded(rest), maxBytes, end);
      CutAt(rest, maxBytes - |first|, end - |first|);
      TakeOneMore(first, rest, Fitting(rest, maxBytes - |first|));
    } else {
      CutBefore(first, Encoded(rest), maxBytes, end);
      assert chars[..0] == [];
    }
  }

  /** Going back from the limit has stopped at `end`. */
  ghost predicate CutOk(text: seq<Byte>, maxBytes: nat, end: nat) {
    && end <= maxBytes < |text|
    && (end == 0 || !IsContinuation(text[end]))
    && forall j | end < j <= maxBytes :: IsContinuation(text[j])
  }

  lemma CutBehind(first: seq<Byte>, rest: seq<Byte>, maxBytes: nat, end: nat)
    requires CutOk(first + rest, maxBytes, end) && |first| <= maxBytes && (rest != [] ==> !IsContinuation(rest[0]))
    ensures |first| <= end && CutOk(rest, maxBytes - |first|, end - |first|)
    ensures (first + rest)[..end] == first + rest[..end - |first|]
  {
    hide IsContinuation;
    var text := first + rest;
    assert text[|first|] == rest[0];
    assert forall j | 0 <= j < |rest| :: rest[j] == text[j + |first|];
  }

  lemma CutBefore(first: seq<Byte>, rest: seq<Byte>, maxBytes: nat, end: nat)
    requires CutOk(first + rest, maxBytes, end) && IsCharacter(first) && maxBytes < |first|
    ensures end == 0
  {
    assert forall j | 0 < j < |first| :: (first + rest)[j] == first[j];
  }

  lemma TakeOneMore(first: seq<Byte>, rest: seq<seq<Byte>>, k: nat)
    requires k <= |rest|
    ensures Encoded(([first] + rest)[..k + 1]) == first + Encoded(rest[..k])
  {
    assert ([first] + rest)[..k + 1] == [first] + rest[..k];
    assert ([first] + rest[..k])[1..] == rest[..k];
  }

  lemma StartsCharacter(chars: seq<seq<Byte>>)
    requires forall i | 0 <= i < |chars| :: IsCharacter(chars[i])
    ensures Encoded(chars) != [] ==> !IsContinuation(Encoded(chars)[0])
  {
    if chars != [] {
      assert IsCharacter(chars[0]);
    }
  }

  /** truncateUtf8: of any text, keeps exactly the characters from the front that fit into the bytes allowed. */
  method TruncateUtf8(encoded: seq<Byte>, maxBytes: nat, ghost chars: seq<seq<Byte>>) returns (kept: seq<Byte>)
    requires encoded == Encoded(chars) && forall i | 0 <= i < |chars| :: IsCharacter(chars[i])
    ensures kept == Encoded(chars[..Fitting(chars, maxBytes)]) && |kept| <= maxBytes
  {
    FittingIsLargest(chars, maxBytes, |chars|);
    FittingIsLargest(chars, maxBytes, Fitting(chars, maxBytes));
    assert chars[..|chars|] == chars;
    if |encoded| <= maxBytes {
      return encoded;
    }
    var end := maxBytes;
    while end > 0 && IsContinuation(encoded[end])
      invariant 0 <= end <= maxBytes
      invariant forall j | end < j <= maxBytes :: IsContinuation(encoded[j])
    {
      end := end - 1;
    }
    CutAt(chars, maxBytes, end);
    kept := encoded[..end];
  }
}
