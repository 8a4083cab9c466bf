/**
 * Runs of the signature verifier whose clock may go back: what the pruned cache holds, which payloads
 * are accepted, and exactly when one is accepted twice.
 */
module SignatureReplay {
  import opened Fingerprints
  import opened Prelude
  import opened SignatureVerifier

  /** Every call that gets as far as a payload prunes the cache. */
  predicate Prunes(c: Call) {
    Presented(c.context, c.command).Ok?
  }

  function Claim(c: Call): Acceptance
    requires Prunes(c)
  {
    var p := Presented(c.context, c.command).value;
    Acceptance(c.command.fingerprint.value, p.nonce, p.timestamp)
  }

  function KeyOf(a: Acceptance): string {
    NonceKey(a.fingerprint, a.nonce)
  }

  /** The call presents a fresh, correctly signed payload for its command: all checks but the replay check pass. */
  predicate InOrder(c: Call): (r: bool)
    ensures r ==> Prunes(c)
  {
    && Prunes(c)
    && var p := Presented(c.context, c.command).value;
       && IsFresh(p, c.now) && c.context.matches(p, c.command)
       && c.context.validSignature(c.context.keys[c.command.fingerprint.value], c.command.signaturePayload.value, c.command.signature.value)
  }

  predicate Accepts(s: State, c: Call): (r: bool)
    ensures r ==> InOrder(c)
  {
    Verify(s, c.context, c.command, c.now).0.Accepted?
  }

  /** The call prunes with a clock more than 45 seconds past this timestamp. */
  predicate Forgets(c: Call, timestamp: int) {
    Prunes(c) && c.now - timestamp > MAX_SIGNATURE_AGE_SECONDS
  }

  // ---------------------------------------------------------------------------------------------
  // What the cache holds
  // ---------------------------------------------------------------------------------------------

  lemma AcceptsIff(s: State, c: Call)
    ensures Accepts(s, c) <==> InOrder(c) && KeyOf(Claim(c)) !in Prune(s.seen, c.now)
  {
  }

  /** One call: an entry is there afterwards when the call made it, or when it was there and is not forgotten. */
  lemma CacheStep(s: State, c: Call, key: string, timestamp: int)
    ensures var s' := Verify(s, c.context, c.command, c.now).1;
      (key in s'.seen && s'.seen[key] == timestamp)
      <==> (Accepts(s, c) && KeyOf(Claim(c)) == key && Claim(c).timestamp == timestamp)
           || (key in s.seen && s.seen[key] == timestamp && !Forgets(c, timestamp))
  {
    AcceptsIff(s, c);
    hide NonceKey;
  }

  /** Call `i` accepted this key and timestamp, and no call since then, before call `k`, forgot it. */
  ghost predicate HeldSince(states: seq<State>, calls: seq<Call>, i: nat, k: nat, key: string, timestamp: int)
    requires k <= |calls| < |states|
  {
    && i < k && Accepts(states[i], calls[i]) && KeyOf(Claim(calls[i])) == key && Claim(calls[i]).timestamp == timestamp
    && forall m | i < m < k :: !Forgets(calls[m], timestamp)
  }

  /** In every run the cache holds exactly what was accepted and not forgotten since. */
  lemma {:induction false} CacheIs(states: seq<State>, calls: seq<Call>, k: nat, key: string, timestamp: int)
    requires IsRun(states, calls) && k < |states|
    ensures (key in states[k].seen && states[k].seen[key] == timestamp)
            <==> exists i: nat :: HeldSince(states, calls, i, k, key, timestamp)
  {
    hide KeysOk, Verify, Presented;
    if k > 0 {
      var before := k - 1;
      CacheIs(states, calls, before, key, timestamp);
      CacheStep(states[k - 1], calls[k - 1], key, timestamp);
      hide Accepts, KeyOf, Forgets, Claim;
      if i: nat :| HeldSince(states, calls, i, k, key, timestamp) {
        assert i < k - 1 ==> HeldSince(states, calls, i, k - 1, key, timestamp) && !Forgets(calls[k - 1], timestamp);
      }
      if !Forgets(calls[k - 1], timestamp) {
        if i: nat :| HeldSince(states, calls, i, before, key, timestamp) {
          assert HeldSince(states, calls, i, k, key, timestamp);
        }
      }
      assert Accepts(states[k - 1], calls[k - 1]) && KeyOf(Claim(calls[k - 1])) == key && Claim(calls[k - 1]).timestamp == timestamp
             ==> HeldSince(states, calls, k - 1, k, key, timestamp);
    }
  }

  // ---------------------------------------------------------------------------------------------
  // Which payloads are accepted
  // ---------------------------------------------------------------------------------------------

  /** Some call after `a`, up to and including `j`, forgot this timestamp. */
  ghost predicate Forgotten(calls: seq<Call>, a: nat, j: nat, timestamp: int)
    requires j < |calls|
  {
    exists m :: a < m <= j && Forgets(calls[m], timestamp)
  }

  /** Every acceptance of the key by the calls from `i` up to `j` is forgotten when call `j` looks it up. */
  ghost predicate AllForgotten(states: seq<State>, calls: seq<Call>, i: nat, j: nat, key: string)
    requires j < |calls| < |states|
  {
    forall a | i <= a < j && Accepts(states[a], calls[a]) && KeyOf(Claim(calls[a])) == key ::
      Forgotten(calls, a, j, Claim(calls[a]).timestamp)
  }

  /** In every run a payload in order is accepted exactly when all earlier acceptances of its key were forgotten. */
  lemma AcceptedIff(states: seq<State>, calls: seq<Call>, j: nat)
    requires IsRun(states, calls) && j < |calls| && InOrder(calls[j])
    ensures Accepts(states[j], calls[j]) <==> AllForgotten(states, calls, 0, j, KeyOf(Claim(calls[j])))
  {
    hide KeysOk, Verify, KeyOf, InOrder;
    AcceptsIff(states[j], calls[j]);
    hide Accepts, Presented, Forgotten, HeldSince, Claim;
    var key, s, now := KeyOf(Claim(calls[j])), states[j], calls[j].now;
    if key in s.seen && s.seen[key] >= now - MAX_SIGNATURE_AGE_SECONDS {
      var i := HeldCall(states, calls, j, key);
    } else {
      forall a | 0 <= a < j && Accepts(states[a], calls[a]) && KeyOf(Claim(calls[a])) == key
        ensures Forgotten(calls, a, j, Claim(calls[a]).timestamp)
      {
        ForgottenCall(states, calls, a, j);
      }
    }
  }

  /** What the cache still holds at a call that does not forget it was accepted by a call and not forgotten since. */
  lemma HeldCall(states: seq<State>, calls: seq<Call>, j: nat, key: string) returns (i: nat)
    requires IsRun(states, calls) && j < |calls|
    requires key in states[j].seen && states[j].seen[key] >= calls[j].now - MAX_SIGNATURE_AGE_SECONDS
    ensures i < j && Accepts(states[i], calls[i]) && KeyOf(Claim(calls[i])) == key
    ensures !Forgotten(calls, i, j, Claim(calls[i]).timestamp)
  {
    hide KeysOk, Verify, KeyOf, InOrder, Accepts, Presented;
    CacheIs(states, calls, j, key, states[j].seen[key]);
    i :| HeldSince(states, calls, i, j, key, states[j].seen[key]);
  }

  /** What was accepted and is not held, or is held but too old, is forgotten. */
  lemma ForgottenCall(states: seq<State>, calls: seq<Call>, a: nat, j: nat)
    requires IsRun(states, calls) && a < j < |calls| && Prunes(calls[j]) && Accepts(states[a], calls[a])
    requires var key := KeyOf(Claim(calls[a])); key in states[j].seen ==> states[j].seen[key] < calls[j].now - MAX_SIGNATURE_AGE_SECONDS
    ensures Forgotten(calls, a, j, Claim(calls[a]).timestamp)
  {
    hide KeysOk, Verify, KeyOf, InOrder, Accepts, Presented;
    var key, timestamp := KeyOf(Claim(calls[a])), Claim(calls[a]).timestamp;
    CacheIs(states, calls, j, key, timestamp);
    if HeldSince(states, calls, a, j, key, timestamp) {
      assert Forgets(calls[j], timestamp);
    } else {
      var m :| a < m < j && Forgets(calls[m], timestamp);
    }
  }

  /**
   * An accepted payload presented again, in order, is accepted again exactly when its acceptance, and
   * any later one of its nonce, was forgotten: some call in between pruned with a clock more than 45
   * seconds past the timestamp.
   */
  lemma ReplayAcceptedIff(states: seq<State>, calls: seq<Call>, i: nat, j: nat)
    requires IsRun(states, calls) && i < j < |calls|
    requires Accepts(states[i], calls[i]) && InOrder(calls[j]) && Claim(calls[j]) == Claim(calls[i])
    ensures Accepts(states[j], calls[j]) <==> AllForgotten(states, calls, i, j, KeyOf(Claim(calls[j])))
  {
    AcceptedIff(states, calls, j);
    AcceptedIff(states, calls, i);
    hide Accepts, InOrder, KeyOf, IsRun, Forgets;
    var key := KeyOf(Claim(calls[j]));
    if AllForgotten(states, calls, i, j, key) {
      forall a | 0 <= a < i && Accepts(states[a], calls[a]) && KeyOf(Claim(calls[a])) == key
        ensures Forgotten(calls, a, j, Claim(calls[a]).timestamp)
      {
        assert Forgotten(calls, a, i, Claim(calls[a]).timestamp);
      }
    }
  }

  lemma FreshForgetsNotItself(c: Call)
    requires InOrder(c)
    ensures !Forgets(c, Claim(c).timestamp)
  {
  }

  lemma ForgetsLater(again: Call, c: Call)
    requires InOrder(again) && Forgets(c, Claim(again).timestamp)
    ensures again.now < c.now
  {
  }

  /** If no call in between accepted the nonce, one such pruning in between is all it takes. */
  lemma NextReplayIff(states: seq<State>, calls: seq<Call>, i: nat, j: nat)
    requires IsRun(states, calls) && i < j < |calls|
    requires Accepts(states[i], calls[i]) && InOrder(calls[j]) && Claim(calls[j]) == Claim(calls[i])
    requires forall a | i < a < j && Accepts(states[a], calls[a]) :: KeyOf(Claim(calls[a])) != KeyOf(Claim(calls[i]))
    ensures Accepts(states[j], calls[j]) <==> exists m :: i < m < j && Forgets(calls[m], Claim(calls[i]).timestamp)
  {
    hide Accepts, InOrder, KeyOf, Forgets, Claim, Presented, KeysOk, Verify;
    var timestamp := Claim(calls[i]).timestamp;
    ReplayAcceptedIff(states, calls, i, j);
    FreshForgetsNotItself(calls[j]);
    assert AllForgotten(states, calls, i, j, KeyOf(Claim(calls[j]))) <==> Forgotten(calls, i, j, timestamp);
  }

  /** A payload that is accepted twice was forgotten in between, by a call later than the second acceptance by the clock. */
  lemma ReplayTurnsClockBack(states: seq<State>, calls: seq<Call>, i: nat, j: nat) returns (m: nat)
    requires IsRun(states, calls) && i < j < |calls|
    requires Accepts(states[i], calls[i]) && Accepts(states[j], calls[j]) && Claim(calls[j]) == Claim(calls[i])
    ensures i < m < j && Forgets(calls[m], Claim(calls[i]).timestamp) && calls[j].now < calls[m].now
  {
    hide Accepts, InOrder, KeyOf, Forgets, Claim, Presented, KeysOk, Verify;
    ReplayAcceptedIff(states, calls, i, j);
    FreshForgetsNotItself(calls[j]);
    assert Forgotten(calls, i, j, Claim(calls[i]).timestamp);
    m :| i < m <= j && Forgets(calls[m], Claim(calls[i]).timestamp);
    ForgetsLater(calls[j], calls[m]);
  }

  // ---------------------------------------------------------------------------------------------
  // The history
  // ---------------------------------------------------------------------------------------------

  lemma HistoryStep(s: State, c: Call)
    ensures var s' := Verify(s, c.context, c.command, c.now).1;
      && (Accepts(s, c) ==> Prunes(c) && s'.history == s.history + [Claim(c)])
      && (!Accepts(s, c) ==> s'.history == s.history)
  {
  }

  lemma {:induction false} HistoryGrows(states: seq<State>, calls: seq<Call>, i: nat, k: nat)
    requires IsRun(states, calls) && i <= k < |states|
    ensures states[i].history <= states[k].history
  {
    hide KeysOk, Verify, Accepts;
    if i < k {
      HistoryGrows(states, calls, i, k - 1);
      HistoryStep(states[k - 1], calls[k - 1]);
    }
  }

  /** The call that made an entry of the history. */
  lemma {:induction false} CallOf(states: seq<State>, calls: seq<Call>, k: nat, p: nat) returns (i: nat)
    requires IsRun(states, calls) && k < |states| && p < |states[k].history|
    ensures i < k && |states[i].history| == p && Accepts(states[i], calls[i]) && Claim(calls[i]) == states[k].history[p]
  {
    hide KeysOk, Verify, Accepts;
    HistoryStep(states[k - 1], calls[k - 1]);
    if p < |states[k - 1].history| {
      i := CallOf(states, calls, k - 1, p);
    } else {
      i := k - 1;
    }
  }

  /** The payload accepted by call `i` is presented again by call `j`, in order and forgotten. */
  ghost predicate Replayed(states: seq<State>, calls: seq<Call>, i: nat, j: nat)
    requires j < |calls| < |states|
  {
    && i < j && Accepts(states[i], calls[i]) && InOrder(calls[j]) && Claim(calls[j]) == Claim(calls[i])
    && AllForgotten(states, calls, i, j, KeyOf(Claim(calls[j])))
  }

  /** Two entries of the history are the same acceptance. */
  ghost predicate Repeats(history: seq<Acceptance>) {
    exists a, b :: 0 <= a < b < |history| && history[a] == history[b]
  }

  /** In every run, whatever the clock does: an acceptance is repeated exactly when a forgotten payload was presented again. */
  lemma RepeatsIff(states: seq<State>, calls: seq<Call>, k: nat)
    requires IsRun(states, calls) && k < |states|
    ensures Repeats(states[k].history) <==> exists i: nat, j: nat :: i < j < k && Replayed(states, calls, i, j)
  {
    hide KeysOk, Verify, Accepts, InOrder, AllForgotten, KeyOf;
    if Repeats(states[k].history) {
      var a, b :| 0 <= a < b < |states[k].history| && states[k].history[a] == states[k].history[b];
      var i := CallOf(states, calls, k, a);
      var j := CallOf(states, calls, k, b);
      if j <= i { HistoryGrows(states, calls, j, i); }
      ReplayAcceptedIff(states, calls, i, j);
      assert Replayed(states, calls, i, j);
    }
    if i: nat, j: nat :| i < j < k && Replayed(states, calls, i, j) {
      ReplayAcceptedIff(states, calls, i, j);
      HistoryStep(states[i], calls[i]);
      HistoryStep(states[j], calls[j]);
      HistoryGrows(states, calls, i + 1, j);
      HistoryGrows(states, calls, j + 1, k);
      assert states[k].history[|states[i].history|] == states[k].history[|states[j].history|];
    }
  }

  // ---------------------------------------------------------------------------------------------
  // A clock that goes back
  // ---------------------------------------------------------------------------------------------

  const FINGERPRINT := "cl:0123456789abcdef"

  function Parsed(text: string): Option<Payload> {
    if text == "first" then Some(Payload(100, "1", text))
    else if text == "second" then Some(Payload(200, "2", text))
    else None
  }

  const ANYTHING := Context(map[FINGERPRINT := "key"], Parsed, (p, c) => true, (k, t, s) => true)

  function Signed(text: string, now: int): Call {
    Call(ANYTHING, Command(text, Some("signature"), Some(text), Some(FINGERPRINT)), now)
  }

  lemma ThreeCalls(calls: seq<Call>) returns (states: seq<State>)
    requires |calls| == 3 && KeysOk(calls[0].context) && KeysOk(calls[1].context) && KeysOk(calls[2].context)
    ensures IsRun(states, calls)
  {
    hide Verify, KeysOk;
    var s0 := State(map[], [], None);
    var s1 := Verify(s0, calls[0].context, calls[0].command, calls[0].now).1;
    var s2 := Verify(s1, calls[1].context, calls[1].command, calls[1].now).1;
    states := [s0, s1, s2, Verify(s2, calls[2].context, calls[2].command, calls[2].now).1];
  }

  /** Accepted at 100, forgotten by another command at 200, and accepted again once the clock is back at 100. */
  lemma ClockBackAcceptsTwice() returns (states: seq<State>, calls: seq<Call>)
    ensures IsRun(states, calls) && |calls| == 3 && calls[0] == calls[2] && !MonotoneClock(calls)
    ensures Accepts(states[0], calls[0]) && Accepts(states[2], calls[2]) && Repeats(states[3].history)
  {
    var first, second := Signed("first", 100), Signed("second", 200);
    calls := [first, second, first];
    TwoPayloads(first, second);
    hide KeysOk, KeyOf, InOrder, Presented, Forgets, Claim, Verify, Accepts;
    states := ThreeCalls(calls);
    AcceptsIff(states[0], first);
    assert calls[0].now < calls[1].now && calls[2].now < calls[1].now;
    NextReplayIff(states, calls, 0, 2);
    ReplayAcceptedIff(states, calls, 0, 2);
    assert Replayed(states, calls, 0, 2);
    RepeatsIff(states, calls, 3);
  }

  lemma TwoPayloads(first: Call, second: Call)
    requires first == Signed("first", 100) && second == Signed("second", 200)
    ensures KeysOk(ANYTHING) && InOrder(first)
    ensures Claim(first).timestamp == 100 && Forgets(second, 100) && KeyOf(Claim(second)) != KeyOf(Claim(first))
  {
    assert Parsed("first") == Some(Payload(100, "1", "first"));
    assert Parsed("second") == Some(Payload(200, "2", "second"));
    assert KeysOk(ANYTHING);
    assert FINGERPRINT in ANYTHING.keys && FINGERPRINT != "" && |"signature"| == 9 && |"first"| == 5 && |"second"| == 6;
    assert Prunes(first) && Prunes(second);
    DifferentNonces();
  }

  lemma DifferentNonces()
    ensures NonceKey(FINGERPRINT, "1") != NonceKey(FINGERPRINT, "2")
  {
    assert NonceKey(FINGERPRINT, "1")[|FINGERPRINT| + 1] == '1';
    assert NonceKey(FINGERPRINT, "2")[|FINGERPRINT| + 1] == '2';
  }
}
