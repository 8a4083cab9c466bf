/**
 * Which fetched keys are for this desktop, and what a reconciliation makes of each stored key: said of
 * the fields of the keys alone.
 */
module CommandKeyFates {
  import opened Fingerprints
  import opened Prelude
  import opened CommandKeys

  // ---------------------------------------------------------------------------------------------
  // Target contexts
  // ---------------------------------------------------------------------------------------------

  predicate Hex(s: string) {
    forall i | 0 <= i < |s| :: s[i] in "0123456789abcdefABCDEF"
  }

  /** Five groups of hexadecimal digits; the third begins with 1 to 8, the fourth with 8, 9, a or b. */
  predicate UuidOf(s: string, a: string, b: string, c: string, d: string, e: string) {
    && s == a + "-" + b + "-" + c + "-" + d + "-" + e
    && |a| == 8 && |b| == 4 && |c| == 4 && |d| == 4 && |e| == 12
    && Hex(a) && Hex(b) && Hex(c) && Hex(d) && Hex(e)
    && c[0] in "12345678" && d[0] in "89abAB"
  }

  lemma HexIs(c: char)
    ensures IsHex(c) <==> c in "0123456789abcdefABCDEF"
  {
    var digits := "0123456789abcdefABCDEF";
    if IsHex(c) {
      var i := if c <= '9' then c as int - 48 else if c <= 'F' then c as int - 65 + 16 else c as int - 97 + 10;
      assert digits[i] == c;
    }
  }

  lemma HexPart(s: string, lo: nat, hi: nat)
    requires lo <= hi <= |s|
    ensures Hex(s[lo..hi]) <==> forall i | lo <= i < hi :: IsHex(s[i])
  {
    forall i | lo <= i < hi ensures IsHex(s[i]) <==> s[lo..hi][i - lo] in "0123456789abcdefABCDEF" {
      HexIs(s[i]);
    }
    assert forall i | 0 <= i < hi - lo :: s[lo..hi][i] == s[lo + i];
  }

  lemma UuidIff(s: string)
    ensures IsUuid(s) <==> exists a, b, c, d, e :: UuidOf(s, a, b, c, d, e)
  {
    hide IsHex, Hex;
    if |s| == 36 {
      var a, b, c, d, e := s[..8], s[9..13], s[14..18], s[19..23], s[24..];
      PartsOf(s);
      assert s[..8] == s[0..8] && s[24..] == s[24..36];
      HexPart(s, 0, 8);
      HexPart(s, 9, 13);
      HexPart(s, 14, 18);
      HexPart(s, 19, 23);
      HexPart(s, 24, 36);
      LeadingDigits(s[14], s[19]);
      if IsUuid(s) {
        assert UuidOf(s, a, b, c, d, e);
      }
      if a', b', c', d', e' :| UuidOf(s, a', b', c', d', e') {
        SameParts(s, a', b', c', d', e');
      }
    }
  }

  lemma SameParts(s: string, a: string, b: string, c: string, d: string, e: string)
    requires s == a + "-" + b + "-" + c + "-" + d + "-" + e && |a| == 8 && |b| == 4 && |c| == 4 && |d| == 4 && |e| == 12
    ensures |s| == 36 && s[8] == s[13] == s[18] == s[23] == '-'
    ensures a == s[..8] && b == s[9..13] && c == s[14..18] && d == s[19..23] && e == s[24..]
  {
  }

  lemma LeadingDigits(c: char, d: char)
    ensures '1' <= c <= '8' <==> c in "12345678"
    ensures d in {'8', '9', 'a', 'b', 'A', 'B'} <==> d in "89abAB"
  {
    var digits := "12345678";
    if '1' <= c <= '8' {
      assert digits[c as int - 49] == c;
    }
  }

  lemma PartsOf(s: string)
    requires |s| == 36
    ensures s[8] == s[13] == s[18] == s[23] == '-' ==>
      s == s[..8] + "-" + s[9..13] + "-" + s[14..18] + "-" + s[19..23] + "-" + s[24..]
  {
  }

  /** The field is a string that is this UUID but for white space around it. */
  ghost predicate UuidField(field: Field, id: string) {
    field.Text? && Trimmed(field.text, id) && exists a, b, c, d, e :: UuidOf(id, a, b, c, d, e)
  }

  lemma NormalizeIs(field: Field, id: string)
    ensures UuidField(field, id) <==> NormalizeUuid(field) == Some(id)
  {
    UuidIff(id);
    if field.Text? {
      TrimIs(field.text, id);
    }
    hide IsUuid, Trim, Trimmed, UuidOf;
  }

  /**
   * A fetched key is relevant exactly when its context grants access to a target of the owner, names the
   * active compute target, and names the active gateway or none at all.
   */
  lemma RelevantIff(key: OrgKey, active: Option<Active>)
    ensures Parse(key, active) == Relevant <==>
      && active.Some? && key.target.Target? && key.target.access == Text("owned_target")
      && UuidField(key.target.computeTargetId, active.value.computeTargetId)
      && (key.target.gatewayId == Absent
          || (active.value.gatewayId.Some? && UuidField(key.target.gatewayId, active.value.gatewayId.value)))
  {
    if active.Some? && key.target.Target? {
      NormalizeIs(key.target.computeTargetId, active.value.computeTargetId);
      if active.value.gatewayId.Some? {
        NormalizeIs(key.target.gatewayId, active.value.gatewayId.value);
      }
    }
    hide UuidField, IsUuid, Trim;
  }

  /** A key without a context is of the old kind; the others that are not relevant are ill-formed or for another target. */
  lemma OtherwiseIff(key: OrgKey, active: Option<Active>)
    ensures Parse(key, active) == Legacy <==> key.target == NoTarget
    ensures Parse(key, active) == Invalid <==>
      && key.target != NoTarget
      && !(key.target.Target? && key.target.access == Text("owned_target")
           && (exists id :: UuidField(key.target.computeTargetId, id))
           && (key.target.gatewayId == Absent || exists id :: UuidField(key.target.gatewayId, id)))
  {
    if key.target.Target? {
      SomeUuid(key.target.computeTargetId);
      SomeUuid(key.target.gatewayId);
    }
    hide UuidField, NormalizeUuid;
  }

  lemma SomeUuid(field: Field)
    ensures (exists id :: UuidField(field, id)) <==> NormalizeUuid(field).Some?
  {
    if NormalizeUuid(field).Some? {
      NormalizeIs(field, NormalizeUuid(field).value);
    }
    hide UuidField;
    if id :| UuidField(field, id) {
      NormalizeIs(field, id);
    }
  }

  /** The kind of a fetch, and whom the user is told about. */
  lemma ClassifiedAs(keys: seq<OrgKey>, active: Option<Active>)
    ensures var c := Classify(keys, active);
      && (c.kind == EmptyFetch <==> keys == [])
      && (c.kind == AllScoped <==> keys != [] && forall key | key in keys :: Parse(key, active) == Relevant)
      && (c.kind == LegacyBroad <==> keys != [] && forall key | key in keys :: Parse(key, active) == Legacy)
      && (c.kind == MixedScoped ==> exists key :: key in keys && Parse(key, active) == Relevant)
      && (c.kind == InvalidOnly ==> forall key | key in keys :: Parse(key, active) != Relevant)
      && c.notify == (if c.kind in {AllScoped, MixedScoped} then c.relevant else [])
  {
    hide Parse, Among;
    AmongIs(keys, active, {Relevant});
    AllAmong(keys, active, Relevant);
    AllAmong(keys, active, Legacy);
    var relevant := Among(keys, active, {Relevant});
    if relevant != [] {
      assert relevant[0] in relevant;
    }
    if keys != [] {
      assert keys[0] in keys;
    }
  }

  lemma {:induction false} AllAmong(keys: seq<OrgKey>, active: Option<Active>, outcome: Parsed)
    ensures |Among(keys, active, {outcome})| == |keys| <==> forall key | key in keys :: Parse(key, active) == outcome
    ensures |Among(keys, active, {outcome})| <= |keys|
  {
    hide Parse;
    if keys != [] {
      var front, last := keys[..|keys| - 1], keys[|keys| - 1];
      AllAmong(front, active, outcome);
      assert keys == front + [last];
    }
  }

  // ---------------------------------------------------------------------------------------------
  // Registrations
  // ---------------------------------------------------------------------------------------------

  /** `cl:` and 16 to 64 letters, digits, underscores or hyphens. */
  predicate FingerprintOf(s: string, body: string) {
    && s == "cl:" + body && 16 <= |body| <= 64
    && forall i | 0 <= i < |body| :: 'a' <= body[i] <= 'z' || 'A' <= body[i] <= 'Z' || '0' <= body[i] <= '9' || body[i] == '_' || body[i] == '-'
  }

  lemma FingerprintIff(s: string)
    ensures IsFingerprint(s) <==> exists body :: FingerprintOf(s, body)
  {
    if |s| >= 3 {
      assert "cl:" <= s ==> s == "cl:" + s[3..];
    }
    if IsFingerprint(s) {
      assert FingerprintOf(s, s[3..]);
    }
    if body :| FingerprintOf(s, body) {
      assert s[..3] == "cl:" && forall i | 3 <= i < |s| :: s[i] == body[i - 3];
    }
  }

  /** What is kept of an optional text: nothing of a blank one, else the text without the space around it. */
  ghost predicate KeptAs(given: Option<string>, kept: Option<string>) {
    if kept.None? then given.None? || Trimmed(given.value, "")
    else given.Some? && kept.value != "" && Trimmed(given.value, kept.value)
  }

  /** This key registers the fingerprint, with this user key id if it has one that is not blank. */
  ghost predicate RegistersAs(key: OrgKey, fingerprint: string, userKeyId: Option<string>) {
    Trimmed(key.fingerprint, fingerprint) && (exists body :: FingerprintOf(fingerprint, body)) && KeptAs(key.id, userKeyId)
  }

  lemma RegistersIs(key: OrgKey, fingerprint: string, userKeyId: Option<string>)
    ensures RegistersAs(key, fingerprint, userKeyId) <==>
      NormalizeFingerprint(key.fingerprint) == Some(fingerprint) && UserKeyId(key.id) == userKeyId
  {
    TrimIs(key.fingerprint, fingerprint);
    FingerprintIff(fingerprint);
    if key.id.Some? {
      TrimIs(key.id.value, "");
      if userKeyId.Some? {
        TrimIs(key.id.value, userKeyId.value);
      }
    }
    hide Trim, Trimmed, IsFingerprint, FingerprintOf;
  }

  /** What is registered for a fingerprint is what the last key with it says. */
  lemma {:induction false} RegisteredLast(keys: seq<OrgKey>, fingerprint: string, userKeyId: Option<string>)
    ensures (fingerprint in Registered(keys) && Registered(keys)[fingerprint] == userKeyId) <==>
      exists i :: LastRegisters(keys, fingerprint, userKeyId, i)
  {
    hide NormalizeFingerprint, UserKeyId, RegistersAs;
    if keys != [] {
      var front, last := keys[..|keys| - 1], keys[|keys| - 1];
      RegisteredLast(front, fingerprint, userKeyId);
      var n := |front|;
      forall id ensures RegistersAs(last, fingerprint, id) <==> NormalizeFingerprint(last.fingerprint) == Some(fingerprint) && UserKeyId(last.id) == id {
        RegistersIs(last, fingerprint, id);
      }
      if NormalizeFingerprint(last.fingerprint) == Some(fingerprint) {
        assert RegistersAs(last, fingerprint, UserKeyId(last.id));
        assert UserKeyId(last.id) == userKeyId ==> LastRegisters(keys, fingerprint, userKeyId, n);
      } else {
        LastStays(front, last, fingerprint, userKeyId);
        assert keys == front + [last];
      }
    }
  }

  ghost predicate LastRegisters(keys: seq<OrgKey>, fingerprint: string, userKeyId: Option<string>, i: int) {
    && 0 <= i < |keys| && RegistersAs(keys[i], fingerprint, userKeyId)
    && forall j, id | i < j < |keys| :: !RegistersAs(keys[j], fingerprint, id)
  }

  lemma LastStays(front: seq<OrgKey>, last: OrgKey, fingerprint: string, userKeyId: Option<string>)
    requires forall id :: !RegistersAs(last, fingerprint, id)
    ensures (exists i :: LastRegisters(front + [last], fingerprint, userKeyId, i)) <==> exists i :: LastRegisters(front, fingerprint, userKeyId, i)
  {
    hide RegistersAs;
    var keys := front + [last];
    assert forall j | 0 <= j < |front| :: keys[j] == front[j];
    if i :| LastRegisters(front, fingerprint, userKeyId, i) {
      assert LastRegisters(keys, fingerprint, userKeyId, i);
    }
    if i :| LastRegisters(keys, fingerprint, userKeyId, i) {
      assert LastRegisters(front, fingerprint, userKeyId, i);
    }
  }

  // ---------------------------------------------------------------------------------------------
  // The fate of a stored key
  // ---------------------------------------------------------------------------------------------

  /** A manual key stays; an organization key that is not registered goes; an unknown key that is becomes one. */
  function Fate(key: StoredKey, registered: map<string, Option<string>>): Option<StoredKey> {
    match key.source
    case Manual => Some(key)
    case Org => if key.fingerprint in registered then Some(key) else None
    case Unknown =>
      if key.fingerprint in registered
      then Some(StoredKey(key.fingerprint, key.publicKey, key.ownerName, key.ownerEmail, key.authorizedAt, Org, registered[key.fingerprint]))
      else Some(key)
  }

  /** The kept keys are those that survive, at these positions, in order. */
  ghost predicate SurvivorsAt(keys: seq<StoredKey>, registered: map<string, Option<string>>, kept: seq<StoredKey>, at: seq<nat>) {
    && |at| == |kept| && Rising(at, |keys|)
    && (forall k | 0 <= k < |at| :: Fate(keys[at[k]], registered) == Some(kept[k]))
    && (forall i | 0 <= i < |keys| :: Fate(keys[i], registered).None? || StandsAt(at, i))
  }

  /** Reconciling deals with every key by its source and its registration, and leaves the order alone. */
  lemma {:induction false} ReconcileFates(keys: seq<StoredKey>, registered: map<string, Option<string>>) returns (at: seq<nat>)
    ensures SurvivorsAt(keys, registered, Reconcile(keys, registered, true).kept, at)
  {
    at := [];
    if keys != [] {
      hide *;
      var front, last := keys[..|keys| - 1], keys[|keys| - 1];
      assert keys == front + [last];
      at := ReconcileFates(front, registered);
      ReconcileLast(front, last, registered);
      var kept := Reconcile(front, registered, true).kept;
      if Fate(last, registered).Some? {
        OneMoreKept(front, last, registered, kept, at);
        at := at + [|front|];
      } else {
        OneMoreGone(front, last, registered, kept, at);
      }
    }
  }

  lemma ReconcileLast(front: seq<StoredKey>, last: StoredKey, registered: map<string, Option<string>>)
    ensures var fate, kept := Fate(last, registered), Reconcile(front, registered, true).kept;
      Reconcile(front + [last], registered, true).kept == if fate.Some? then kept + [fate.value] else kept
  {
    assert (front + [last])[..|front|] == front;
  }

  lemma OneMoreKept(front: seq<StoredKey>, last: StoredKey, registered: map<string, Option<string>>, kept: seq<StoredKey>, at: seq<nat>)
    requires SurvivorsAt(front, registered, kept, at) && Fate(last, registered).Some?
    ensures SurvivorsAt(front + [last], registered, kept + [Fate(last, registered).value], at + [|front|])
  {
    hide Fate, StandsAt;
    var keys, at', kept' := front + [last], at + [|front|], kept + [Fate(last, registered).value];
    OneMorePosition(at, |front|);
    hide Rising;
    assert keys[|front|] == last && forall i | 0 <= i < |front| :: keys[i] == front[i];
    assert at'[|at|] == |front| && forall k | 0 <= k < |at| :: at'[k] == at[k] && kept'[k] == kept[k];
  }

  lemma OneMoreGone(front: seq<StoredKey>, last: StoredKey, registered: map<string, Option<string>>, kept: seq<StoredKey>, at: seq<nat>)
    requires SurvivorsAt(front, registered, kept, at) && Fate(last, registered).None?
    ensures SurvivorsAt(front + [last], registered, kept, at)
  {
    hide Fate, StandsAt;
    var keys := front + [last];
    assert keys[|front|] == last && forall i | 0 <= i < |front| :: keys[i] == front[i];
  }

  /** What it reports as removed or promoted is what became of the keys; so it reports something exactly for a change. */
  lemma {:induction false} ReportsAre(keys: seq<StoredKey>, registered: map<string, Option<string>>, key: StoredKey)
    ensures var o := Reconcile(keys, registered, true);
      && (key in o.removed <==> key in keys && Fate(key, registered) == None)
      && (key in o.promoted <==> exists k :: k in keys && k.source == Unknown && key.source == Org && Fate(k, registered) == Some(key))
      && (o.kept == keys <==> o.removed == [] && o.promoted == [])
      && |o.kept| <= |keys|
  {
    if keys != [] {
      var front, last := keys[..|keys| - 1], keys[|keys| - 1];
      assert keys == front + [last];
      ReportsAre(front, registered, key);
      var o, o' := Reconcile(front, registered, true), Reconcile(keys, registered, true);
      FateIs(last, registered);
      MembersOfFront(front, last);
      hide Fate, Promoted;
      if |o'.kept| == |keys| {
        assert o'.kept[|front|] == o'.kept[|o'.kept| - 1] && keys[|front|] == last;
        assert o'.kept == keys <==> o.kept == front && o'.kept[|front|] == last;
      }
    }
  }

  lemma MembersOfFront(front: seq<StoredKey>, last: StoredKey)
    ensures forall k :: k in front + [last] <==> k in front || k == last
  {
  }

  lemma FateIs(key: StoredKey, registered: map<string, Option<string>>)
    ensures Fate(key, registered).None? <==> IsStale(key, registered)
    ensures IsPromotable(key, registered) ==>
      key.source == Unknown && Promoted(key, registered).source == Org && Fate(key, registered) == Some(Promoted(key, registered))
    ensures !IsStale(key, registered) && !IsPromotable(key, registered) ==> Fate(key, registered) == Some(key)
  {
  }
}
