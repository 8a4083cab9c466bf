/** Small data types and string helpers shared by the component models. */
module Prelude {

  datatype Option<+T> = None | Some(value: T)

  datatype Result<+T, +E> = Ok(value: T) | Err(error: E)

  function Max(a: int, b: int): int {
    if a >= b then a else b
  }

  function Min(a: int, b: int): int {
    if a <= b then a else b
  }

  /** The white space that the source's `trim` strips (ECMAScript WhiteSpace and LineTerminator). */
  predicate IsSpace(c: char) {
    c in {'\t', '\n', '\U{000b}', '\U{000c}', '\r', ' ', '\U{00a0}', '\U{1680}', '\U{2028}', '\U{2029}',
          '\U{202f}', '\U{205f}', '\U{3000}', '\U{feff}'}
    || '\U{2000}' <= c <= '\U{200a}'
  }

  function TrimStart(s: string): string {
    if s != "" && IsSpace(s[0]) then TrimStart(s[1..]) else s
  }

  function TrimEnd(s: string): string {
    if s != "" && IsSpace(s[|s| - 1]) then TrimEnd(s[..|s| - 1]) else s
  }

  function Trim(s: string): string {
    TrimEnd(TrimStart(s))
  }

  /** Stripping white space from both ends of `s` leaves `t`. */
  ghost predicate Trimmed(s: string, t: string) {
    exists i, j :: TrimmedAt(s, t, i, j)
  }

  ghost predicate TrimmedAt(s: string, t: string, i: int, j: int) {
    && 0 <= i <= j <= |s| && t == s[i..j]
    && (forall k | 0 <= k < i || j <= k < |s| :: IsSpace(s[k]))
    && (t != "" ==> !IsSpace(t[0]) && !IsSpace(t[|t| - 1]))
  }

  lemma {:induction false} TrimStartIs(s: string, i: nat)
    requires i <= |s| && (forall k | 0 <= k < i :: IsSpace(s[k])) && (i < |s| ==> !IsSpace(s[i]))
    ensures TrimStart(s) == s[i..]
  {
    hide IsSpace;
    if i > 0 {
      TrimStartIs(s[1..], i - 1);
      assert s[1..][i - 1..] == s[i..];
    } else {
      assert s[0..] == s;
    }
  }

  lemma {:induction false} TrimEndIs(s: string, j: nat)
    requires j <= |s| && (forall k | j <= k < |s| :: IsSpace(s[k])) && (j > 0 ==> !IsSpace(s[j - 1]))
    ensures TrimEnd(s) == s[..j]
  {
    hide IsSpace;
    if j < |s| {
      TrimEndIs(s[..|s| - 1], j);
      assert s[..|s| - 1][..j] == s[..j];
    } else {
      assert s[..j] == s;
    }
  }

  lemma {:induction false} SomeTrimmed(s: string) returns (i: nat, j: nat)
    ensures i <= j <= |s| && TrimmedAt(s, s[i..j], i, j)
  {
    hide IsSpace;
    if s == "" {
      i, j := 0, 0;
    } else if IsSpace(s[0]) {
      var tail := s[1..];
      i, j := SomeTrimmed(tail);
      assert forall k | 0 < k < |s| :: s[k] == tail[k - 1];
      assert s[i + 1..j + 1] == tail[i..j];
      i, j := i + 1, j + 1;
    } else if IsSpace(s[|s| - 1]) {
      var front := s[..|s| - 1];
      i, j := SomeTrimmed(front);
      assert s[i..j] == front[i..j];
    } else {
      i, j := 0, |s|;
      assert s[0..|s|] == s;
    }
  }

  /** `trim` does exactly that. */
  lemma TrimIs(s: string, t: string)
    ensures Trimmed(s, t) <==> t == Trim(s)
  {
    var i0, j0 := SomeTrimmed(s);
    TrimmedIsTrim(s, s[i0..j0], i0, j0);
    if i, j :| TrimmedAt(s, t, i, j) {
      TrimmedIsTrim(s, t, i, j);
    }
  }

  lemma TrimmedIsTrim(s: string, t: string, i: nat, j: nat)
    requires i <= j <= |s| && TrimmedAt(s, t, i, j)
    ensures Trim(s) == t
  {
    hide IsSpace;
    if t == "" {
      assert i == j;
      TrimStartIs(s, |s|);
      assert s[|s|..] == "";
    } else {
      assert s[i] == t[0] && s[j - 1] == t[|t| - 1];
      TrimStartIs(s, i);
      TrimEndIs(s[i..], j - i);
      assert s[i..][..j - i] == t;
    }
  }

  /** Rising positions below this one. */
  ghost predicate Rising(at: seq<nat>, below: nat) {
    (forall k | 0 <= k < |at| :: at[k] < below) && forall j, k | 0 <= j < k < |at| :: at[j] < at[k]
  }

  ghost predicate StandsAt(at: seq<nat>, i: int) {
    exists k :: 0 <= k < |at| && at[k] == i
  }

  lemma OneMorePosition(at: seq<nat>, n: nat)
    requires Rising(at, n)
    ensures Rising(at + [n], n + 1) && forall i :: StandsAt(at + [n], i) <==> StandsAt(at, i) || i == n
  {
    var at' := at + [n];
    assert at'[|at|] == n && forall k | 0 <= k < |at| :: at'[k] == at[k];
    forall i ensures StandsAt(at', i) <==> StandsAt(at, i) || i == n {
      if k :| 0 <= k < |at'| && at'[k] == i {
        assert k < |at| ==> at[k] == i;
      }
    }
  }

  lemma MorePositions(at: seq<nat>, n: nat)
    requires Rising(at, n)
    ensures Rising(at, n + 1)
  {
  }

  function RemoveAt<T>(s: seq<T>, i: nat): (r: seq<T>)
    requires i < |s|
    ensures |r| == |s| - 1
    ensures forall j | 0 <= j < |r| :: r[j] == s[if j < i then j else j + 1]
  {
    s[..i] + s[i + 1..]
  }
}
