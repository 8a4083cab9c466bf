/**
 * Browser command keys: which fetched keys concern this desktop (classification), and what that does
 * to the stored keys (reconciliation). Key material and key ids are opaque texts.
 */
module CommandKeys {
  import opened Fingerprints
  import opened Prelude

  // ---------------------------------------------------------------------------------------------
  // Target contexts
  // ---------------------------------------------------------------------------------------------

  /** A property of a JSON record: not present, present but not a string, or a string. */
  datatype Field = Absent | NotText | Text(text: string)

  datatype Target = NoTarget | NotRecord | Target(access: Field, computeTargetId: Field, gatewayId: Field)

  datatype OrgKey = OrgKey(id: Option<string>, fingerprint: string, target: Target)

  datatype Active = Active(computeTargetId: string, gatewayId: Option<string>)

  datatype Parsed = Relevant | Legacy | Invalid | Mismatched

  predicate IsHex(c: char) {
    '0' <= c <= '9' || 'a' <= c <= 'f' || 'A' <= c <= 'F'
  }

  /** The UUID pattern, case-insensitive: version digit 1 to 8, variant 8, 9, a or b. */
  predicate IsUuid(s: string) {
    && |s| == 36
    && (forall i | 0 <= i < 36 :: if i in {8, 13, 18, 23} then s[i] == '-' else IsHex(s[i]))
    && '1' <= s[14] <= '8' && s[19] in {'8', '9', 'a', 'b', 'A', 'B'}
  }

  function NormalizeUuid(value: Field): Option<string> {
    if value.Text? && IsUuid(Trim(value.text)) then Some(Trim(value.text)) else None
  }

  /** targetContextMatchesActive: without a gateway in the context, the compute target decides. */
  predicate MatchesActive(computeTargetId: string, gatewayId: Option<string>, active: Option<Active>) {
    active.Some? && computeTargetId == active.value.computeTargetId && (gatewayId.None? || gatewayId == active.value.gatewayId)
  }

  /** parseResponseTargetContext */
  function Parse(key: OrgKey, active: Option<Active>): Parsed {
    match key.target
    case NoTarget => Legacy
    case NotRecord => Invalid
    case Target(access, target, gateway) =>
      if access != Text("owned_target") || NormalizeUuid(target).None? then Invalid
      else if !gateway.Absent? && NormalizeUuid(gateway).None? then Invalid
      else if MatchesActive(NormalizeUuid(target).value, NormalizeUuid(gateway), active) then Relevant
      else Mismatched
  }

  // ---------------------------------------------------------------------------------------------
  // Classification
  // ---------------------------------------------------------------------------------------------

  datatype ClassKind = EmptyFetch | AllScoped | MixedScoped | LegacyBroad | InvalidOnly

  datatype Mode = Full | PromoteOnly | Skip

  datatype Classification = Classification(
    kind: ClassKind,
    mode: Mode,
    relevant: seq<OrgKey>,
    notify: seq<OrgKey>,
    ignored: seq<OrgKey>,
    legacyCount: nat,
    invalidCount: nat,
    mismatchedCount: nat,
    activeId: Option<string>)

  /** The keys that parse to one of these outcomes, in order. */
  function Among(keys: seq<OrgKey>, active: Option<Active>, outcomes: set<Parsed>): seq<OrgKey> {
    if keys == [] then []
    else
      var last := keys[|keys| - 1];
      Among(keys[..|keys| - 1], active, outcomes) + (if Parse(last, active) in outcomes then [last] else [])
  }

  const IGNORED := {Legacy, Invalid, Mismatched}

  function ActiveId(active: Option<Active>): Option<string> {
    if active.Some? then Some(active.value.computeTargetId) else None
  }

  /** What classification has to yield, by filters on the fetched keys. */
  function Classify(keys: seq<OrgKey>, active: Option<Active>): Classification {
    if keys == [] then
      Classification(EmptyFetch, if active.Some? then Full else Skip, [], [], [], 0, 0, 0, ActiveId(active))
    else
      var relevant := Among(keys, active, {Relevant});
      var legacy := |Among(keys, active, {Legacy})|;
      var kind := if |relevant| == |keys| then AllScoped
                  else if legacy == |keys| then LegacyBroad
                  else if |relevant| > 0 then MixedScoped else InvalidOnly;
      var mode := if kind.AllScoped? then Full else if kind.MixedScoped? then PromoteOnly else Skip;
      Classification(kind, mode, relevant, if mode.Skip? then [] else relevant, Among(keys, active, IGNORED), legacy,
                     |Among(keys, active, {Invalid})|, |Among(keys, active, {Mismatched})|, ActiveId(active))
  }

  lemma {:induction false} AmongIs(keys: seq<OrgKey>, active: Option<Active>, outcomes: set<Parsed>)
    ensures forall key :: key in Among(keys, active, outcomes) <==> key in keys && Parse(key, active) in outcomes
    ensures |Among(keys, active, outcomes)| <= |keys|
  {
    if keys != [] {
      var front, last := keys[..|keys| - 1], keys[|keys| - 1];
      AmongIs(front, active, outcomes);
      assert keys == front + [last];
    }
  }

  lemma {:induction false} CountsPartition(keys: seq<OrgKey>, active: Option<Active>)
    ensures |Among(keys, active, {Relevant})| + |Among(keys, active, {Legacy})| + |Among(keys, active, {Invalid})|
            + |Among(keys, active, {Mismatched})| == |keys|
    ensures |Among(keys, active, IGNORED)| == |Among(keys, active, {Legacy})| + |Among(keys, active, {Invalid})|
                                              + |Among(keys, active, {Mismatched})|
  {
    if keys != [] {
      CountsPartition(keys[..|keys| - 1], active);
    }
  }

  /** The counts partition the fetch, and a key is relevant only for an active target with a UUID for its id. */
  lemma ClassificationPartitions(keys: seq<OrgKey>, active: Option<Active>)
    ensures var c := Classify(keys, active);
      && |c.relevant| + |c.ignored| == |keys| && |c.ignored| == c.legacyCount + c.invalidCount + c.mismatchedCount
      && (forall key | key in keys :: key in c.relevant <==> Parse(key, active).Relevant?)
      && (forall key | key in keys :: key in c.ignored <==> !Parse(key, active).Relevant?)
      && (c.relevant != [] ==> active.Some? && active.value.computeTargetId != "")
      && (c.mode.Full? <==> if keys == [] then active.Some? else c.ignored == [])
      && (c.mode.PromoteOnly? <==> c.relevant != [] && c.ignored != [])
  {
    hide Parse;
    CountsPartition(keys, active);
    AmongIs(keys, active, {Relevant});
    AmongIs(keys, active, IGNORED);
    AmongIs(keys, active, {Legacy});
    hide Among;
    var relevant := Among(keys, active, {Relevant});
    if relevant != [] {
      assert relevant[0] in keys && Parse(relevant[0], active) == Relevant;
      RelevantNeedsTarget(relevant[0], active);
    }
  }

  lemma RelevantNeedsTarget(key: OrgKey, active: Option<Active>)
    requires Parse(key, active) == Relevant
    ensures active.Some? && active.value.computeTargetId != ""
  {
  }

  // ---------------------------------------------------------------------------------------------
  // Stored keys
  // ---------------------------------------------------------------------------------------------

  datatype Source = Org | Manual | Unknown

  datatype StoredKey = StoredKey(
    fingerprint: string,
    publicKey: string,
    ownerName: string,
    ownerEmail: Option<string>,
    authorizedAt: int,
    source: Source,
    userKeyId: Option<string>)

  datatype Contents = Contents(keys: seq<StoredKey>, rejected: seq<string>)

  /** normalizeCommandKeyFingerprint */
  function NormalizeFingerprint(s: string): Option<string> {
    if IsFingerprint(Trim(s)) then Some(Trim(s)) else None
  }

  /** The keys registered for this target by fingerprint; of several with one fingerprint the last counts. */
  function Registered(keys: seq<OrgKey>): map<string, Option<string>> {
    if keys == [] then map[]
    else
      var rest, last := Registered(keys[..|keys| - 1]), keys[|keys| - 1];
      var fingerprint := NormalizeFingerprint(last.fingerprint);
      if fingerprint.None? then rest else rest[fingerprint.value := UserKeyId(last.id)]
  }

  function UserKeyId(id: Option<string>): Option<string> {
    if id.Some? && Trim(id.value) != "" then Some(Trim(id.value)) else None
  }

  lemma {:induction false} RegisteredAre(keys: seq<OrgKey>, fingerprint: string)
    ensures fingerprint in Registered(keys) <==> exists key :: key in keys && NormalizeFingerprint(key.fingerprint) == Some(fingerprint)
  {
    if keys != [] {
      var front, last := keys[..|keys| - 1], keys[|keys| - 1];
      RegisteredAre(front, fingerprint);
      assert keys == front + [last];
    }
  }

  predicate IsStale(key: StoredKey, registered: map<string, Option<string>>) {
    key.source.Org? && key.fingerprint !in registered
  }

  predicate IsPromotable(key: StoredKey, registered: map<string, Option<string>>) {
    key.source.Unknown? && key.fingerprint in registered
  }

  function Promoted(key: StoredKey, registered: map<string, Option<string>>): StoredKey
    requires key.fingerprint in registered
  {
    key.(source := Org, userKeyId := registered[key.fingerprint])
  }

  datatype Outcome = Outcome(kept: seq<StoredKey>, removed: seq<StoredKey>, promoted: seq<StoredKey>)

  /** The flatMap of reconcileOrganizationKeys, with what it removes and promotes. */
  function Reconcile(keys: seq<StoredKey>, registered: map<string, Option<string>>, removeStale: bool): Outcome {
    if keys == [] then Outcome([], [], [])
    else
      var o, key := Reconcile(keys[..|keys| - 1], registered, removeStale), keys[|keys| - 1];
      if removeStale && IsStale(key, registered) then o.(removed := o.removed + [key])
      else if IsPromotable(key, registered) then
        o.(kept := o.kept + [Promoted(key, registered)], promoted := o.promoted + [Promoted(key, registered)])
      else o.(kept := o.kept + [key])
  }

  /** The keys reconciliation must leave alone: manual ones, and unknown ones nobody registered. */
  function Untouchable(keys: seq<StoredKey>, registered: map<string, Option<string>>): seq<StoredKey> {
    if keys == [] then []
    else
      var key := keys[|keys| - 1];
      Untouchable(keys[..|keys| - 1], registered)
      + (if key.source.Manual? || (key.source.Unknown? && key.fingerprint !in registered) then [key] else [])
  }

  /** The fingerprints of the keys that are not stale, in order. */
  function LiveFingerprints(keys: seq<StoredKey>, registered: map<string, Option<string>>): seq<string> {
    if keys == [] then []
    else
      var key := keys[|keys| - 1];
      LiveFingerprints(keys[..|keys| - 1], registered) + (if IsStale(key, registered) then [] else [key.fingerprint])
  }

  lemma {:induction false} KeptAre(keys: seq<StoredKey>, registered: map<string, Option<string>>)
    ensures var o := Reconcile(keys, registered, true);
      && Untouchable(o.kept, registered) == Untouchable(keys, registered)
      && LiveFingerprints(o.kept, registered) == LiveFingerprints(keys, registered)
      && |o.kept| + |o.removed| == |keys|
      && (forall key | key in o.kept :: !IsStale(key, registered) && !IsPromotable(key, registered))
      && (forall key | key in o.kept && key.source.Org? :: key.fingerprint in registered)
  {
    if keys != [] {
      var front, key := keys[..|keys| - 1], keys[|keys| - 1];
      KeptAre(front, registered);
      var o := Reconcile(front, registered, true);
      assert (o.kept + [key])[..|o.kept|] == o.kept;
      if IsPromotable(key, registered) {
        assert (o.kept + [Promoted(key, registered)])[..|o.kept|] == o.kept;
      }
    }
  }

  /** Keys that are neither stale nor promotable are a fixed point. */
  lemma {:induction false} SettledIsFixed(keys: seq<StoredKey>, registered: map<string, Option<string>>, removeStale: bool)
    requires forall key | key in keys :: !IsStale(key, registered) && !IsPromotable(key, registered)
    ensures Reconcile(keys, registered, removeStale) == Outcome(keys, [], [])
  {
    if keys != [] {
      var front, key := keys[..|keys| - 1], keys[|keys| - 1];
      SettledIsFixed(front, registered, removeStale);
      assert keys == front + [key];
      assert key in keys;
    }
  }

  /** The early return: when nothing is removed or promoted, the keys are what they were. */
  lemma {:induction false} NothingChanged(keys: seq<StoredKey>, registered: map<string, Option<string>>, removeStale: bool)
    ensures var o := Reconcile(keys, registered, removeStale);
      o.removed == [] && o.promoted == [] ==> o.kept == keys
  {
    if keys != [] {
      var front, key := keys[..|keys| - 1], keys[|keys| - 1];
      NothingChanged(front, registered, removeStale);
      assert keys == front + [key];
    }
  }

  // ---------------------------------------------------------------------------------------------
  // A whole pass
  // ---------------------------------------------------------------------------------------------

  /** What one pass of the reconciler makes of the stored keys: the decision of reconcileNow. */
  function Pass(keys: seq<StoredKey>, c: Classification): Outcome {
    var hasActive := c.activeId.Some? && c.activeId.value != "";
    if c.mode.Skip? then
      if hasActive then Reconcile(keys, map[], true) else Outcome(keys, [], [])
    else Reconcile(keys, Registered(c.relevant), c.mode.Full? || hasActive)
  }

  /** An active target whose id is empty counts only while the fetch is empty. */
  predicate Prunes(fetched: seq<OrgKey>, active: Option<Active>) {
    active.Some? && (active.value.computeTargetId != "" || fetched == [])
  }

  /**
   * The three modes come to one rule: with an active target, the stored keys are reconciled with the
   * relevant ones and stale ones are dropped; without one, nothing happens.
   */
  lemma PassIsOneRule(keys: seq<StoredKey>, fetched: seq<OrgKey>, active: Option<Active>)
    ensures Pass(keys, Classify(fetched, active))
         == if Prunes(fetched, active) then Reconcile(keys, Registered(Classify(fetched, active).relevant), true)
            else Outcome(keys, [], [])
  {
    ClassificationPartitions(fetched, active);
    var c := Classify(fetched, active);
    assert c.relevant == [] ==> Registered(c.relevant) == map[];
    if c.relevant == [] && c.ignored == [] {
      assert fetched == [];
    }
  }

  /**
   * End to end. After a pass with an active target every organization key left is registered among
   * the relevant keys of the fetch; manual and unregistered unknown keys are all kept, in order, and
   * so is the order of the rest; and a second pass with the same fetch changes nothing.
   */
  lemma PassSettles(keys: seq<StoredKey>, fetched: seq<OrgKey>, active: Option<Active>)
    requires Prunes(fetched, active)
    ensures var relevant := Classify(fetched, active).relevant;
      var o := Pass(keys, Classify(fetched, active));
      && (forall key | key in o.kept && key.source.Org? ::
            exists r :: r in relevant && NormalizeFingerprint(r.fingerprint) == Some(key.fingerprint))
      && Untouchable(o.kept, Registered(relevant)) == Untouchable(keys, Registered(relevant))
      && LiveFingerprints(o.kept, Registered(relevant)) == LiveFingerprints(keys, Registered(relevant))
      && Pass(o.kept, Classify(fetched, active)) == Outcome(o.kept, [], [])
  {
    PassIsOneRule(keys, fetched, active);
    var relevant := Classify(fetched, active).relevant;
    var o := Pass(keys, Classify(fetched, active));
    KeptAre(keys, Registered(relevant));
    forall key | key in o.kept && key.source.Org?
      ensures exists r :: r in relevant && NormalizeFingerprint(r.fingerprint) == Some(key.fingerprint)
    {
      RegisteredAre(relevant, key.fingerprint);
    }
    PassIsOneRule(o.kept, fetched, active);
    SettledIsFixed(o.kept, Registered(relevant), true);
  }

  /** Without an active target, or with one that has no id while keys are fetched, nothing changes. */
  lemma PassWithoutTarget(keys: seq<StoredKey>, fetched: seq<OrgKey>, active: Option<Active>)
    requires !Prunes(fetched, active)
    ensures Pass(keys, Classify(fetched, active)) == Outcome(keys, [], [])
  {
    PassIsOneRule(keys, fetched, active);
  }

  /**
   * The stale keys survive a pass exactly when it has no target: an empty id is told apart from a
   * missing one only by an empty fetch.
   */
  lemma StaleKeySurvivesIff(key: StoredKey, fetched: seq<OrgKey>, active: Option<Active>)
    requires IsStale(key, Registered(Classify(fetched, active).relevant))
    ensures Pass([key], Classify(fetched, active)).kept == [key] <==> !Prunes(fetched, active)
  {
    PassIsOneRule([key], fetched, active);
    assert [key][..0] == [];
    assert Reconcile([], Registered(Classify(fetched, active).relevant), true) == Outcome([], [], []);
  }

  // ---------------------------------------------------------------------------------------------
  // Approving and removing keys
  // ---------------------------------------------------------------------------------------------

  ghost predicate OneEach(keys: seq<StoredKey>) {
    forall i, j | 0 <= i < j < |keys| :: keys[i].fingerprint != keys[j].fingerprint
  }

  function Without(keys: seq<StoredKey>, fingerprint: string): seq<StoredKey> {
    if keys == [] then []
    else
      var key := keys[|keys| - 1];
      Without(keys[..|keys| - 1], fingerprint) + (if key.fingerprint == fingerprint then [] else [key])
  }

  predicate HasKey(keys: seq<StoredKey>, fingerprint: string) {
    exists i :: 0 <= i < |keys| && keys[i].fingerprint == fingerprint
  }

  lemma HasKeySnoc(front: seq<StoredKey>, key: StoredKey, fingerprint: string)
    ensures HasKey(front + [key], fingerprint) <==> HasKey(front, fingerprint) || key.fingerprint == fingerprint
  {
    var keys := front + [key];
    if HasKey(front, fingerprint) {
      var i :| 0 <= i < |front| && front[i].fingerprint == fingerprint;
      assert keys[i].fingerprint == fingerprint;
    }
    assert keys[|front|] == key;
  }

  /** remove: exactly the keys with the fingerprint go, and the length tells whether there was one. */
  lemma {:induction false} WithoutIs(keys: seq<StoredKey>, fingerprint: string)
    ensures forall key :: key in Without(keys, fingerprint) <==> key in keys && key.fingerprint != fingerprint
    ensures |Without(keys, fingerprint)| <= |keys|
    ensures |Without(keys, fingerprint)| == |keys| <==> !HasKey(keys, fingerprint)
    ensures !HasKey(keys, fingerprint) ==> Without(keys, fingerprint) == keys
  {
    if keys != [] {
      var front, key := keys[..|keys| - 1], keys[|keys| - 1];
      WithoutIs(front, fingerprint);
      assert keys == front + [key];
      HasKeySnoc(front, key, fingerprint);
      hide HasKey;
    }
  }

  lemma {:induction false} WithoutKeepsOneEach(keys: seq<StoredKey>, fingerprint: string)
    requires OneEach(keys)
    ensures OneEach(Without(keys, fingerprint))
  {
    if keys != [] {
      var front, key := keys[..|keys| - 1], keys[|keys| - 1];
      WithoutKeepsOneEach(front, fingerprint);
      WithoutIs(front, fingerprint);
      assert forall i | 0 <= i < |front| :: front[i].fingerprint != key.fingerprint;
    }
  }

  /** Approving a key that is not stored and removing it again gives the keys back. */
  lemma ApproveThenRemove(keys: seq<StoredKey>, key: StoredKey)
    requires !HasKey(keys, key.fingerprint)
    ensures Without(keys + [key], key.fingerprint) == keys
  {
    WithoutIs(keys, key.fingerprint);
    assert (keys + [key])[..|keys|] == keys;
  }

  /** Approving, removing and reconciling never store a fingerprint twice. */
  lemma {:induction false} ReconcileKeepsOneEach(keys: seq<StoredKey>, registered: map<string, Option<string>>, removeStale: bool)
    requires OneEach(keys)
    ensures OneEach(Reconcile(keys, registered, removeStale).kept)
    ensures forall key | key in Reconcile(keys, registered, removeStale).kept :: HasKey(keys, key.fingerprint)
  {
    if keys != [] {
      var front, key := keys[..|keys| - 1], keys[|keys| - 1];
      ReconcileKeepsOneEach(front, registered, removeStale);
      var before, after := Reconcile(front, registered, removeStale).kept, Reconcile(keys, registered, removeStale).kept;
      assert after != before ==> |after| == |before| + 1 && after[..|before|] == before && after[|before|].fingerprint == key.fingerprint;
      hide Reconcile, HasKey, OneEach;
      OneEachPrefix(keys);
      if after != before {
        assert after == before + [after[|before|]];
        OneMoreKey(before, after[|before|], front);
      }
    }
  }

  lemma OneEachPrefix(keys: seq<StoredKey>)
    requires OneEach(keys) && keys != []
    ensures var front, key := keys[..|keys| - 1], keys[|keys| - 1];
      && OneEach(front) && !HasKey(front, key.fingerprint) && HasKey(keys, key.fingerprint)
      && forall fingerprint | HasKey(front, fingerprint) :: HasKey(keys, fingerprint)
  {
    assert keys[|keys| - 1].fingerprint == keys[|keys| - 1].fingerprint;
    forall fingerprint | HasKey(keys[..|keys| - 1], fingerprint) ensures HasKey(keys, fingerprint) {
      var i :| 0 <= i < |keys| - 1 && keys[..|keys| - 1][i].fingerprint == fingerprint;
      assert keys[i].fingerprint == fingerprint;
    }
  }

  lemma OneMoreKey(kept: seq<StoredKey>, key: StoredKey, front: seq<StoredKey>)
    requires OneEach(kept) && (forall k | k in kept :: HasKey(front, k.fingerprint)) && !HasKey(front, key.fingerprint)
    ensures OneEach(kept + [key])
  {
    hide HasKey;
    assert forall i | 0 <= i < |kept| :: kept[i] in kept;
  }
}
