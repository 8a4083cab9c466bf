/** Which checks a signed command has to pass, and what a refusal says; the limits are spelled out. */
module SignatureChecks {
  import opened Fingerprints
  import opened Prelude
  import opened SignatureVerifier
  import opened SignatureReplay

  predicate Given(text: Option<string>) {
    text.Some? && text.value != ""
  }

  /** The command comes with a payload that was read, for a key that is authorized. */
  predicate Reads(context: Context, c: Command, p: Payload) {
    && Given(c.signature) && Given(c.signaturePayload) && Given(c.fingerprint)
    && c.fingerprint.value in context.keys && context.parse(c.signaturePayload.value) == Some(p)
  }

  /** At most 45 seconds old and at most 5 seconds ahead. */
  predicate InTime(p: Payload, now: int) {
    now - 45 <= p.timestamp <= now + 5
  }

  predicate Signed(context: Context, c: Command)
    requires Given(c.signature) && Given(c.signaturePayload) && Given(c.fingerprint) && c.fingerprint.value in context.keys
  {
    context.validSignature(context.keys[c.fingerprint.value], c.signaturePayload.value, c.signature.value)
  }

  /** A payload of this key and nonce was accepted and is not forgotten at this time. */
  predicate Used(seen: map<string, int>, fingerprint: string, nonce: string, now: int) {
    var key := fingerprint + ":" + nonce;
    key in seen && seen[key] >= now - 45
  }

  lemma ReadsIff(context: Context, c: Command, p: Payload)
    ensures Reads(context, c, p) <==> Presented(context, c) == Ok(p)
  {
  }

  /**
   * A command is accepted exactly when its payload can be read for an authorized key, is in time, belongs to
   * the command, has not been used, and carries that key's signature. A refusal names the first check that
   * failed, in this order.
   */
  lemma VerdictIff(s: State, context: Context, c: Command, now: int, p: Payload)
    requires Reads(context, c, p)
    ensures var verdict, used := Verify(s, context, c, now).0, Used(s.seen, c.fingerprint.value, p.nonce, now);
      && (verdict == Accepted <==> InTime(p, now) && context.matches(p, c) && !used && Signed(context, c))
      && (verdict == Rejected(StaleOrReplayed) <==> !InTime(p, now) || (context.matches(p, c) && used))
      && (verdict == Rejected(PayloadMismatch) <==> InTime(p, now) && !context.matches(p, c))
      && (verdict == Rejected(InvalidSignature) <==> InTime(p, now) && context.matches(p, c) && !used && !Signed(context, c))
  {
    ReadsIff(context, c, p);
  }

  /** Without a payload to check nothing is remembered or forgotten. */
  lemma UnreadIff(s: State, context: Context, c: Command, now: int)
    requires forall p :: !Reads(context, c, p)
    ensures var (verdict, s') := Verify(s, context, c, now);
      && s' == s
      && (context.keys == map[] ==> verdict == Rejected(NoKeysAuthorized))
      && (context.keys != map[] ==>
            && (verdict == Rejected(UnsignedCommand) <==> !(Given(c.signature) && Given(c.signaturePayload) && Given(c.fingerprint)))
            && (verdict == Rejected(UnknownSigningKey) <==>
                  Given(c.signature) && Given(c.signaturePayload) && Given(c.fingerprint) && c.fingerprint.value !in context.keys)
            && verdict in {Rejected(UnsignedCommand), Rejected(UnknownSigningKey), Rejected(InvalidSignature)})
  {
    if Presented(context, c).Ok? {
      ReadsIff(context, c, Presented(context, c).value);
    }
  }

  /** What the statements about runs call a payload in order, and a call that forgets it. */
  lemma InOrderIff(c: Call, timestamp: int)
    ensures InOrder(c) <==> exists p :: Reads(c.context, c.command, p) && InTime(p, c.now) && c.context.matches(p, c.command)
                                        && Signed(c.context, c.command)
    ensures Forgets(c, timestamp) <==> c.now > timestamp + 45 && exists p :: Reads(c.context, c.command, p)
  {
    if Presented(c.context, c.command).Ok? {
      ReadsIff(c.context, c.command, Presented(c.context, c.command).value);
    }
  }

  /**
   * Over every run whose clock does not go back: a call is accepted exactly when its payload passes these
   * checks and no payload of the same key and nonce, no more than 45 seconds old, was accepted before.
   */
  lemma AcceptedExactly(states: seq<State>, calls: seq<Call>, k: nat, p: Payload)
    requires IsRun(states, calls) && MonotoneClock(calls) && k < |calls| && Reads(calls[k].context, calls[k].command, p)
    ensures var c, f := calls[k], calls[k].command.fingerprint.value;
      Accepts(states[k], c) <==>
        && InTime(p, c.now) && c.context.matches(p, c.command) && Signed(c.context, c.command)
        && forall a | a in states[k].history && a.fingerprint == f && a.nonce == p.nonce :: a.timestamp < c.now - 45
  {
    var c := calls[k];
    RunIsExact(states, calls, k);
    NotBack(states, calls, k);
    hide IsRun, Exact;
    CallRefines(states[k], c.context, c.command, c.now);
    ReadsIff(c.context, c.command, p);
    UsedIff(states[k].history, c.command.fingerprint.value, p.nonce, c.now);
    hide UsedInHistory, Verify;
    assert Accepts(states[k], c) <==> Verify(states[k], c.context, c.command, c.now).0.Accepted?;
  }

  lemma NotBack(states: seq<State>, calls: seq<Call>, k: nat)
    requires IsRun(states, calls) && MonotoneClock(calls) && k < |calls|
    requires states[k].pruned.Some? ==> k > 0 && states[k].pruned.value <= calls[k - 1].now
    ensures KeysOk(calls[k].context) && (states[k].pruned.Some? ==> states[k].pruned.value <= calls[k].now)
  {
  }

  lemma UsedIff(history: seq<Acceptance>, fingerprint: string, nonce: string, now: int)
    ensures UsedInHistory(history, fingerprint, nonce, now)
       <==> exists a :: a in history && a.fingerprint == fingerprint && a.nonce == nonce && a.timestamp >= now - 45
  {
    if a :| a in history && a.fingerprint == fingerprint && a.nonce == nonce && a.timestamp >= now - 45 {
      var i :| 0 <= i < |history| && history[i] == a;
      assert InWindow(history[i], now);
    }
  }
}
