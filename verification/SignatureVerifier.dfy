/** The command signature verifier: its pruned nonce cache against an unbounded history of acceptances. */
module SignatureVerifier {
  import opened Fingerprints
  import opened Prelude

  const MAX_SIGNATURE_AGE_SECONDS := 45
  const MAX_SIGNATURE_FUTURE_SKEW_SECONDS := 5

  datatype Reason = NoKeysAuthorized | UnsignedCommand | UnknownSigningKey | InvalidSignature | StaleOrReplayed | PayloadMismatch

  datatype Verdict = Accepted | Rejected(reason: Reason)

  /** The decoded payload, in the fields that the replay protection uses. */
  datatype Payload = Payload(timestamp: int, nonce: string, content: string)

  /** A command, in the fields that carry its signature; `content` stands for the rest. */
  datatype Command = Command(
    content: string, signature: Option<string>, signaturePayload: Option<string>, fingerprint: Option<string>)

  /**
   * What the verifier consults at one call: the authorized keys by fingerprint, the parser of signed
   * payloads (None when the text is not JSON or not of the payload's shape), the comparison of a
   * payload with the command it came with, and the Ed25519 check (false when it throws).
   */
  datatype Context = Context(
    keys: map<string, string>,
    parse: string -> Option<Payload>,
    matches: (Payload, Command) -> bool,
    validSignature: (string, string, string) -> bool)

  // ---------------------------------------------------------------------------------------------
  // Nonce keys
  // ---------------------------------------------------------------------------------------------

  /** The key store only ever returns keys with well-formed fingerprints. */
  predicate KeysOk(context: Context) {
    forall f | f in context.keys :: IsFingerprint(f)
  }

  function NonceKey(fingerprint: string, nonce: string): string {
    fingerprint + ":" + nonce
  }

  /** Different (fingerprint, nonce) pairs have different keys, whatever the nonce contains. */
  lemma NonceKeyInjective(f1: string, n1: string, f2: string, n2: string)
    requires IsFingerprint(f1) && IsFingerprint(f2) && NonceKey(f1, n1) == NonceKey(f2, n2)
    ensures f1 == f2 && n1 == n2
  {
    NotLonger(f1, n1, f2, n2);
    NotLonger(f2, n2, f1, n1);
    var k := NonceKey(f1, n1);
    assert k[..|f1|] == f1 && k[..|f1|] == f2;
    assert k[|f1| + 1..] == n1 && k[|f1| + 1..] == n2;
  }

  lemma NotLonger(f1: string, n1: string, f2: string, n2: string)
    requires IsFingerprint(f1) && IsFingerprint(f2) && NonceKey(f1, n1) == NonceKey(f2, n2)
    ensures |f1| <= |f2|
  {
    var k := NonceKey(f1, n1);
    assert NonceKey(f2, n2)[|f2|] == ':';
    assert forall i | 3 <= i < |f1| :: k[i] == f1[i] && k[i] != ':';
  }

  // ---------------------------------------------------------------------------------------------
  // One call
  // ---------------------------------------------------------------------------------------------

  function Prune(seen: map<string, int>, now: int): map<string, int> {
    map k | k in seen && seen[k] >= now - MAX_SIGNATURE_AGE_SECONDS :: seen[k]
  }

  /** The checks before the cache is consulted: the payload, or why there is none. */
  function Presented(context: Context, c: Command): Result<Payload, Reason> {
    if context.keys == map[] then Err(NoKeysAuthorized)
    else if !(c.signature.Some? && c.signature.value != "" && c.signaturePayload.Some? && c.signaturePayload.value != ""
              && c.fingerprint.Some? && c.fingerprint.value != "") then Err(UnsignedCommand)
    else if c.fingerprint.value !in context.keys then Err(UnknownSigningKey)
    else
      var payload := context.parse(c.signaturePayload.value);
      if payload.None? then Err(InvalidSignature) else Ok(payload.value)
  }

  predicate IsFresh(p: Payload, now: int) {
    && now - p.timestamp <= MAX_SIGNATURE_AGE_SECONDS
    && p.timestamp - now <= MAX_SIGNATURE_FUTURE_SKEW_SECONDS
  }

  /** The rest of the checks, given whether the nonce counts as used. */
  function Judge(context: Context, c: Command, p: Payload, now: int, used: bool): Verdict
    requires Presented(context, c) == Ok(p)
  {
    if !IsFresh(p, now) then Rejected(StaleOrReplayed)
    else if !context.matches(p, c) then Rejected(PayloadMismatch)
    else if used then Rejected(StaleOrReplayed)
    else if !context.validSignature(context.keys[c.fingerprint.value], c.signaturePayload.value, c.signature.value)
    then Rejected(InvalidSignature)
    else Accepted
  }

  /** An accepted payload. */
  datatype Acceptance = Acceptance(fingerprint: string, nonce: string, timestamp: int)

  /** The cache, all acceptances so far, and the time of the last pruning (None before the first). */
  datatype State = State(seen: map<string, int>, history: seq<Acceptance>, pruned: Option<int>)

  /** verify: the verdict and the next state. */
  function Verify(s: State, context: Context, c: Command, now: int): (Verdict, State) {
    var presented := Presented(context, c);
    if presented.Err? then (Rejected(presented.error), s)
    else
      var p, f := presented.value, c.fingerprint.value;
      var seen := Prune(s.seen, now);
      var verdict := Judge(context, c, p, now, NonceKey(f, p.nonce) in seen);
      (verdict,
       State(if verdict.Accepted? then seen[NonceKey(f, p.nonce) := p.timestamp] else seen,
             if verdict.Accepted? then s.history + [Acceptance(f, p.nonce, p.timestamp)] else s.history,
             Some(now)))
  }

  class CommandSignatureVerifier {
    var seenNonces: map<string, int>
    ghost var history: seq<Acceptance>
    ghost var pruned: Option<int>

    ghost function Snapshot(): State
      reads this
    {
      State(seenNonces, history, pruned)
    }

    constructor ()
      ensures Snapshot() == State(map[], [], None)
    {
      seenNonces, history, pruned := map[], [], None;
    }

    method PruneSeenNonces(nowSeconds: int)
      modifies `seenNonces
      ensures seenNonces == Prune(old(seenNonces), nowSeconds)
    {
      var cutoff := nowSeconds - MAX_SIGNATURE_AGE_SECONDS;
      var todo := seenNonces.Keys;
      while todo != {}
        invariant todo <= old(seenNonces).Keys
        invariant seenNonces == map k | k in old(seenNonces) && (k in todo || old(seenNonces)[k] >= cutoff) :: old(seenNonces)[k]
        decreases todo
      {
        var nonceKey :| nonceKey in todo;
        todo := todo - {nonceKey};
        if seenNonces[nonceKey] < cutoff {
          seenNonces := seenNonces - {nonceKey};
        }
      }
    }

    method VerifyCommand(context: Context, c: Command, nowSeconds: int) returns (verdict: Verdict)
      modifies this
      ensures (verdict, Snapshot()) == Verify(old(Snapshot()), context, c, nowSeconds)
    {
      if context.keys == map[] {
        return Rejected(NoKeysAuthorized);
      }
      if !(c.signature.Some? && c.signature.value != "" && c.signaturePayload.Some? && c.signaturePayload.value != ""
           && c.fingerprint.Some? && c.fingerprint.value != "") {
        return Rejected(UnsignedCommand);
      }
      var fingerprint := c.fingerprint.value;
      if fingerprint !in context.keys {
        return Rejected(UnknownSigningKey);
      }
      var parsed := context.parse(c.signaturePayload.value);
      if parsed.None? {
        return Rejected(InvalidSignature);
      }
      var payload := parsed.value;
      PruneSeenNonces(nowSeconds);
      pruned := Some(nowSeconds);
      if nowSeconds - payload.timestamp > MAX_SIGNATURE_AGE_SECONDS
         || payload.timestamp - nowSeconds > MAX_SIGNATURE_FUTURE_SKEW_SECONDS {
        return Rejected(StaleOrReplayed);
      }
      if !context.matches(payload, c) {
        return Rejected(PayloadMismatch);
      }
      var nonceKey := NonceKey(fingerprint, payload.nonce);
      if nonceKey in seenNonces {
        return Rejected(StaleOrReplayed);
      }
      var valid := context.validSignature(context.keys[fingerprint], c.signaturePayload.value, c.signature.value);
      if !valid {
        return Rejected(InvalidSignature);
      }
      seenNonces := seenNonces[nonceKey := payload.timestamp];
      history := history + [Acceptance(fingerprint, payload.nonce, payload.timestamp)];
      return Accepted;
    }
  }

  // ---------------------------------------------------------------------------------------------
  // Every run
  // ---------------------------------------------------------------------------------------------

  predicate InWindow(a: Acceptance, now: int) {
    a.timestamp >= now - MAX_SIGNATURE_AGE_SECONDS
  }

  /** Some acceptance within the window has this nonce key. */
  ghost predicate Known(history: seq<Acceptance>, now: int, key: string) {
    exists i :: 0 <= i < |history| && InWindow(history[i], now) && key == NonceKey(history[i].fingerprint, history[i].nonce)
  }

  /**
   * The cache holds exactly the accepted (fingerprint, nonce) pairs whose timestamp was within the
   * age window at the last pruning, and no payload was accepted twice.
   */
  ghost predicate Exact(s: State) {
    && (s.pruned.None? ==> s.seen == map[] && s.history == [])
    && (forall i | 0 <= i < |s.history| :: IsFingerprint(s.history[i].fingerprint))
    && (forall i | 0 <= i < |s.history| && InWindow(s.history[i], s.pruned.value) ::
          var key := NonceKey(s.history[i].fingerprint, s.history[i].nonce);
          key in s.seen && s.seen[key] == s.history[i].timestamp)
    && (forall key | key in s.seen :: Known(s.history, s.pruned.value, key))
    && (forall i, j | 0 <= i < j < |s.history| :: s.history[i] != s.history[j])
  }

  /** The replay test against all acceptances ever, forgetting nothing. */
  ghost predicate UsedInHistory(history: seq<Acceptance>, fingerprint: string, nonce: string, now: int) {
    exists i :: 0 <= i < |history| && InWindow(history[i], now)
                && history[i].fingerprint == fingerprint && history[i].nonce == nonce
  }

  lemma PruneIsExact(s: State, now: int)
    requires Exact(s) && (s.pruned.Some? ==> s.pruned.value <= now)
    ensures Exact(s.(seen := Prune(s.seen, now), pruned := Some(now)))
  {
    var s' := s.(seen := Prune(s.seen, now), pruned := Some(now));
    forall key | key in s'.seen
      ensures Known(s.history, now, key)
    {
      var i :| 0 <= i < |s.history| && InWindow(s.history[i], s.pruned.value)
               && key == NonceKey(s.history[i].fingerprint, s.history[i].nonce);
      assert s.seen[key] == s.history[i].timestamp;
    }
  }

  lemma CacheIsHistory(s: State, fingerprint: string, nonce: string)
    requires Exact(s) && s.pruned.Some? && IsFingerprint(fingerprint)
    ensures NonceKey(fingerprint, nonce) in s.seen <==> UsedInHistory(s.history, fingerprint, nonce, s.pruned.value)
  {
    var key := NonceKey(fingerprint, nonce);
    if key in s.seen {
      var i :| 0 <= i < |s.history| && InWindow(s.history[i], s.pruned.value)
               && key == NonceKey(s.history[i].fingerprint, s.history[i].nonce);
      NonceKeyInjective(fingerprint, nonce, s.history[i].fingerprint, s.history[i].nonce);
    }
  }

  lemma AcceptIsExact(s: State, a: Acceptance)
    requires Exact(s) && s.pruned.Some? && IsFingerprint(a.fingerprint) && InWindow(a, s.pruned.value)
    requires NonceKey(a.fingerprint, a.nonce) !in s.seen
    ensures Exact(s.(seen := s.seen[NonceKey(a.fingerprint, a.nonce) := a.timestamp], history := s.history + [a]))
  {
    hide IsFingerprint, NonceKey;
    var key := NonceKey(a.fingerprint, a.nonce);
    var s' := s.(seen := s.seen[key := a.timestamp], history := s.history + [a]);
    forall k | k in s'.seen ensures Known(s'.history, s.pruned.value, k) {
      KnownGrows(s.history, a, s.pruned.value, k);
    }
    forall i | 0 <= i < |s.history| ensures s.history[i] != a {
      assert InWindow(s.history[i], s.pruned.value) ==> NonceKey(s.history[i].fingerprint, s.history[i].nonce) in s.seen;
    }
    assert forall i | 0 <= i < |s.history| :: s'.history[i] == s.history[i];
  }

  lemma KnownGrows(history: seq<Acceptance>, a: Acceptance, now: int, key: string)
    ensures Known(history, now, key) ==> Known(history + [a], now, key)
    ensures InWindow(a, now) && key == NonceKey(a.fingerprint, a.nonce) ==> Known(history + [a], now, key)
  {
    var h := history + [a];
    assert h[|history|] == a;
    assert forall i | 0 <= i < |history| :: h[i] == history[i];
  }

  /**
   * One call with a clock that has not gone back: the cache stays exact, and the verdict is the one
   * that a verifier forgetting nothing would give.
   */
  lemma CallRefines(s: State, context: Context, c: Command, now: int)
    requires Exact(s) && KeysOk(context) && (s.pruned.Some? ==> s.pruned.value <= now)
    ensures Exact(Verify(s, context, c, now).1)
    ensures var presented := Presented(context, c);
      Verify(s, context, c, now).0 ==
      if presented.Err? then Rejected(presented.error)
      else Judge(context, c, presented.value, now,
                 UsedInHistory(s.history, c.fingerprint.value, presented.value.nonce, now))
  {
    var presented := Presented(context, c);
    if presented.Ok? {
      var p, f := presented.value, c.fingerprint.value;
      var s1 := s.(seen := Prune(s.seen, now), pruned := Some(now));
      PruneIsExact(s, now);
      CacheIsHistory(s1, f, p.nonce);
      if Verify(s, context, c, now).0.Accepted? {
        AcceptIsExact(s1, Acceptance(f, p.nonce, p.timestamp));
      }
    }
  }

  datatype Call = Call(context: Context, command: Command, now: int)

  /** A run of calls: `states[i + 1]` is the state after the i-th call. */
  ghost predicate IsRun(states: seq<State>, calls: seq<Call>) {
    && |states| == |calls| + 1
    && states[0] == State(map[], [], None)
    && (forall i | 0 <= i < |calls| :: KeysOk(calls[i].context))
    && forall i | 0 <= i < |calls| ::
         states[i + 1] == Verify(states[i], calls[i].context, calls[i].command, calls[i].now).1
  }

  ghost predicate MonotoneClock(calls: seq<Call>) {
    forall i, j | 0 <= i < j < |calls| :: calls[i].now <= calls[j].now
  }

  lemma {:induction false} RunIsExact(states: seq<State>, calls: seq<Call>, k: nat)
    requires IsRun(states, calls) && MonotoneClock(calls) && k < |states|
    ensures Exact(states[k])
    ensures states[k].pruned.Some? ==> k > 0 && states[k].pruned.value <= calls[k - 1].now
  {
    hide Exact, KeysOk;
    if k == 0 {
      InitExact();
    } else {
      RunIsExact(states, calls, k - 1);
      var call := calls[k - 1];
      CallRefines(states[k - 1], call.context, call.command, call.now);
    }
  }

  lemma InitExact()
    ensures Exact(State(map[], [], None))
  {
  }

  /** No signed payload is accepted twice in any run, although the cache forgets. */
  lemma NoReplay(states: seq<State>, calls: seq<Call>, k: nat)
    requires IsRun(states, calls) && MonotoneClock(calls) && k < |states|
    ensures forall i, j | 0 <= i < j < |states[k].history| :: states[k].history[i] != states[k].history[j]
  {
    RunIsExact(states, calls, k);
  }
}
