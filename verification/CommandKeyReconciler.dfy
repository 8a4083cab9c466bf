/** Classifying, storing and reconciling browser command keys as code that updates its state in place. */
module CommandKeyReconcilers {
  import opened Fingerprints
  import opened Prelude
  import opened CommandKeyFates
  import opened CommandKeys

  lemma AmongSnoc(keys: seq<OrgKey>, n: nat, active: Option<Active>, outcomes: set<Parsed>)
    requires n < |keys|
    ensures Among(keys[..n + 1], active, outcomes)
         == Among(keys[..n], active, outcomes) + if Parse(keys[n], active) in outcomes then [keys[n]] else []
  {
    assert keys[..n + 1][..n] == keys[..n];
  }

  lemma NextKeyCounts(keys: seq<OrgKey>, n: nat, active: Option<Active>)
    requires n < |keys|
    ensures var done, key, parsed := keys[..n], keys[n], Parse(keys[n], active);
      && Among(keys[..n + 1], active, {Relevant}) == Among(done, active, {Relevant}) + (if parsed.Relevant? then [key] else [])
      && Among(keys[..n + 1], active, IGNORED) == Among(done, active, IGNORED) + (if parsed.Relevant? then [] else [key])
      && |Among(keys[..n + 1], active, {Legacy})| == |Among(done, active, {Legacy})| + (if parsed.Legacy? then 1 else 0)
      && |Among(keys[..n + 1], active, {Invalid})| == |Among(done, active, {Invalid})| + (if parsed.Invalid? then 1 else 0)
      && |Among(keys[..n + 1], active, {Mismatched})| == |Among(done, active, {Mismatched})| + (if parsed.Mismatched? then 1 else 0)
  {
    hide Parse, Among;
    AmongSnoc(keys, n, active, {Relevant});
    AmongSnoc(keys, n, active, IGNORED);
    AmongSnoc(keys, n, active, {Legacy});
    AmongSnoc(keys, n, active, {Invalid});
    AmongSnoc(keys, n, active, {Mismatched});
  }

  /** classifyOrganizationCommandKeysForTarget */
  method ClassifyForTarget(keys: seq<OrgKey>, active: Option<Active>) returns (c: Classification)
    ensures c == Classify(keys, active)
  {
    if |keys| == 0 {
      return Classification(EmptyFetch, if active.Some? then Full else Skip, [], [], [], 0, 0, 0, ActiveId(active));
    }
    var relevant, ignored := [], [];
    var legacyCount, invalidCount, mismatchedCount := 0, 0, 0;
    assert keys[..0] == [];
    assert forall outcomes :: Among([], active, outcomes) == [];
    hide Parse, Among;
    for i := 0 to |keys|
      invariant relevant == Among(keys[..i], active, {Relevant}) && ignored == Among(keys[..i], active, IGNORED)
      invariant legacyCount == |Among(keys[..i], active, {Legacy})|
      invariant invalidCount == |Among(keys[..i], active, {Invalid})|
      invariant mismatchedCount == |Among(keys[..i], active, {Mismatched})|
    {
      NextKeyCounts(keys, i, active);
      var parsed := Parse(keys[i], active);
      if parsed.Relevant? {
        relevant := relevant + [keys[i]];
        continue;
      }
      ignored := ignored + [keys[i]];
      if parsed.Legacy? {
        legacyCount := legacyCount + 1;
      } else if parsed.Mismatched? {
        mismatchedCount := mismatchedCount + 1;
      } else {
        invalidCount := invalidCount + 1;
      }
    }
    assert keys[..|keys|] == keys;
    var kind := if |relevant| == |keys| then AllScoped
                else if legacyCount == |keys| then LegacyBroad
                else if |relevant| > 0 then MixedScoped else InvalidOnly;
    var mode := if kind == AllScoped then Full else if kind == MixedScoped then PromoteOnly else Skip;
    c := Classification(kind, mode, relevant, if mode == Skip then [] else relevant, ignored,
                        legacyCount, invalidCount, mismatchedCount, ActiveId(active));
  }

  /** The canonical key material of an approval and its fingerprint; computing them is opaque. */
  datatype Material = Material(publicKey: string, fingerprint: string)

  datatype Approval = Approval(
    material: Result<Material, string>,
    claimed: Option<string>,
    ownerName: Option<string>,
    ownerEmail: Option<string>,
    source: Option<Source>,
    userKeyId: Option<string>)

  function NonBlank(s: Option<string>): Option<string> {
    if s.Some? && Trim(s.value) != "" then Some(Trim(s.value)) else None
  }

  lemma NonBlankIs(given: Option<string>, kept: Option<string>)
    ensures KeptAs(given, kept) <==> NonBlank(given) == kept
  {
    if given.Some? {
      TrimIs(given.value, "");
      if kept.Some? {
        TrimIs(given.value, kept.value);
      }
    }
    hide Trim, Trimmed;
  }

  /** The key as it is stored: an owner without a name goes by the fingerprint, and only a key of the organization has a user key id. */
  ghost predicate Approved(input: Approval, now: int, key: StoredKey)
    requires input.material.Ok?
  {
    && key.fingerprint == input.material.value.fingerprint && key.publicKey == input.material.value.publicKey && key.authorizedAt == now
    && (KeptAs(input.ownerName, Some(key.ownerName)) || (KeptAs(input.ownerName, None) && key.ownerName == key.fingerprint))
    && KeptAs(input.ownerEmail, key.ownerEmail)
    && key.source == (if input.source.Some? then input.source.value else Manual)
    && (if input.source == Some(Org) then KeptAs(input.userKeyId, key.userKeyId) else key.userKeyId == None)
  }

  function Unrejected(rejected: seq<string>, fingerprint: string): seq<string> {
    if rejected == [] then []
    else
      var last := rejected[|rejected| - 1];
      Unrejected(rejected[..|rejected| - 1], fingerprint) + (if last == fingerprint then [] else [last])
  }

  lemma {:induction false} UnrejectedIs(rejected: seq<string>, fingerprint: string)
    ensures forall f :: f in Unrejected(rejected, fingerprint) <==> f in rejected && f != fingerprint
  {
    if rejected != [] {
      UnrejectedIs(rejected[..|rejected| - 1], fingerprint);
      assert rejected == rejected[..|rejected| - 1] + [rejected[|rejected| - 1]];
    }
  }

  /** The stored keys; reading the file back normalizes it to these values. */
  class AuthorizedCommandKeyStore {
    var keys: seq<StoredKey>
    var rejected: seq<string>

    constructor ()
      ensures keys == [] && rejected == []
    {
      keys, rejected := [], [];
    }

    /** Fails without any effect on bad material, on a wrong claimed fingerprint, and on a duplicate. */
    method Authorize(input: Approval, now: int) returns (r: Result<StoredKey, string>)
      modifies this
      ensures r.Ok? <==> (
        && input.material.Ok?
        && (KeptAs(input.claimed, None) || KeptAs(input.claimed, Some(input.material.value.fingerprint)))
        && !HasKey(old(keys), input.material.value.fingerprint))
      ensures r.Err? ==> keys == old(keys) && rejected == old(rejected)
      ensures r.Ok? ==> keys == old(keys) + [r.value] && Without(keys, r.value.fingerprint) == old(keys) && Approved(input, now, r.value)
      ensures r.Ok? ==> forall f :: f in rejected <==> f in old(rejected) && f != r.value.fingerprint
      ensures OneEach(old(keys)) ==> OneEach(keys)
    {
      if input.material.Err? {
        return Err(input.material.error);
      }
      var material := input.material.value;
      NonBlankIs(input.claimed, None);
      NonBlankIs(input.claimed, Some(material.fingerprint));
      hide KeptAs;
      if NonBlank(input.claimed).Some? && NonBlank(input.claimed).value != material.fingerprint {
        return Err("fingerprint mismatch");
      }
      if HasKey(keys, material.fingerprint) {
        return Err("duplicate key");
      }
      var owner := NonBlank(input.ownerName);
      var userKeyId := if input.source == Some(Org) then NonBlank(input.userKeyId) else None;
      var authorized := StoredKey(
        material.fingerprint, material.publicKey,
        if owner.Some? then owner.value else material.fingerprint,
        NonBlank(input.ownerEmail), now,
        if input.source.Some? then input.source.value else Manual,
        userKeyId);
      NonBlankIs(input.ownerName, owner);
      NonBlankIs(input.ownerEmail, authorized.ownerEmail);
      NonBlankIs(input.userKeyId, NonBlank(input.userKeyId));
      ApproveThenRemove(keys, authorized);
      UnrejectedIs(rejected, material.fingerprint);
      keys := keys + [authorized];
      rejected := Unrejected(rejected, authorized.fingerprint);
      r := Ok(authorized);
    }

    method Remove(fingerprint: string) returns (removed: bool)
      modifies this`keys
      ensures removed == HasKey(old(keys), Trim(fingerprint))
      ensures keys == Without(old(keys), Trim(fingerprint)) && !HasKey(keys, Trim(fingerprint))
      ensures OneEach(old(keys)) ==> OneEach(keys)
    {
      var trimmed := Trim(fingerprint);
      WithoutIs(keys, trimmed);
      ghost var before := keys;
      var rest := Without(keys, trimmed);
      assert !HasKey(rest, trimmed) by {
        assert forall i | 0 <= i < |rest| :: rest[i] in rest;
      }
      if OneEach(before) {
        WithoutKeepsOneEach(before, trimmed);
      }
      if |rest| == |keys| {
        return false;
      }
      keys := rest;
      removed := true;
    }

    method Reject(fingerprint: string) returns (r: Result<(), string>)
      modifies this`rejected
      ensures r.Ok? <==> IsFingerprint(Trim(fingerprint))
      ensures rejected == if r.Ok? && Trim(fingerprint) !in old(rejected) then old(rejected) + [Trim(fingerprint)] else old(rejected)
    {
      var trimmed := Trim(fingerprint);
      if !IsFingerprint(trimmed) {
        return Err("invalid fingerprint");
      }
      if trimmed !in rejected {
        rejected := rejected + [trimmed];
      }
      r := Ok(());
    }

    /** The map of registrations, built entry by entry, and then the rewrite of the stored keys. */
    method ReconcileOrganizationKeys(registrations: seq<OrgKey>, removeStale: bool) returns (o: Outcome)
      modifies this`keys
      ensures o == Reconcile(old(keys), Registered(registrations), removeStale) && keys == o.kept
      ensures OneEach(old(keys)) ==> OneEach(keys)
    {
      var registered: map<string, Option<string>> := map[];
      assert registrations[..0] == [];
      for i := 0 to |registrations|
        invariant registered == Registered(registrations[..i])
      {
        assert registrations[..i + 1][..i] == registrations[..i];
        var fingerprint := NormalizeFingerprint(registrations[i].fingerprint);
        if fingerprint.None? {
          continue;
        }
        registered := registered[fingerprint.value := UserKeyId(registrations[i].id)];
      }
      assert registrations[..|registrations|] == registrations;
      o := RewriteKeys(registered, removeStale);
    }

    method RewriteKeys(registered: map<string, Option<string>>, removeStale: bool) returns (o: Outcome)
      modifies this`keys
      ensures o == Reconcile(old(keys), registered, removeStale) && keys == o.kept
      ensures OneEach(old(keys)) ==> OneEach(keys)
    {
      var kept, removed, promoted := [], [], [];
      assert keys[..0] == [];
      for i := 0 to |keys|
        invariant keys == old(keys)
        invariant Outcome(kept, removed, promoted) == Reconcile(keys[..i], registered, removeStale)
      {
        assert keys[..i + 1][..i] == keys[..i];
        var key := keys[i];
        if removeStale && key.source.Org? && key.fingerprint !in registered {
          removed := removed + [key];
        } else if !key.source.Unknown? || key.fingerprint !in registered {
          kept := kept + [key];
        } else {
          promoted := promoted + [Promoted(key, registered)];
          kept := kept + [Promoted(key, registered)];
        }
      }
      assert keys[..|keys|] == keys;
      NothingChanged(keys, registered, removeStale);
      if OneEach(keys) {
        ReconcileKeepsOneEach(keys, registered, removeStale);
      }
      if |removed| == 0 && |promoted| == 0 {
        return Outcome(keys, [], []);
      }
      keys := kept;
      o := Outcome(kept, removed, promoted);
    }
  }

  /** reconcileNow, cut at the fetch it waits for. `changes` counts the calls of onChanged. */
  class CommandKeyReconciler {
    const store: AuthorizedCommandKeyStore
    var inFlight: bool
    var changes: nat
    var notified: seq<seq<OrgKey>>

    constructor (store: AuthorizedCommandKeyStore)
      ensures this.store == store && !inFlight && changes == 0 && notified == []
    {
      this.store := store;
      inFlight, changes, notified := false, 0, [];
    }

    /** A pass starts unless one is already running or there is no API key. */
    method BeginReconcile(hasApiKey: bool) returns (started: bool)
      modifies this`inFlight
      ensures started == (!old(inFlight) && hasApiKey) && inFlight == (old(inFlight) || started)
    {
      if inFlight {
        return false;
      }
      if !hasApiKey {
        return false;
      }
      inFlight := true;
      started := true;
    }

    /** The rest of the pass: a failed fetch is harmless, and onChanged fires exactly for a change. */
    method FinishReconcile(fetched: Result<seq<OrgKey>, string>, active: Option<Active>)
      requires inFlight
      modifies this, store`keys
      ensures !inFlight
      ensures fetched.Err? ==> store.keys == old(store.keys) && changes == old(changes) && notified == old(notified)
      ensures fetched.Ok? ==>
        var c := Classify(fetched.value, active);
        var o := Pass(old(store.keys), c);
        && store.keys == o.kept
        && changes == old(changes) + (if o.removed != [] || o.promoted != [] then 1 else 0)
        && notified == old(notified) + (if c.mode.Skip? then [] else [c.notify])
      ensures OneEach(old(store.keys)) ==> OneEach(store.keys)
    {
      if fetched.Ok? {
        var c := ClassifyForTarget(fetched.value, active);
        var hasActive := c.activeId.Some? && |c.activeId.value| > 0;
        if c.mode == Skip {
          if hasActive {
            var o := store.ReconcileOrganizationKeys([], true);
            if |o.removed| > 0 {
              changes := changes + 1;
            }
            NothingPromoted(old(store.keys));
          }
        } else {
          var o := store.ReconcileOrganizationKeys(c.relevant, c.mode == Full || hasActive);
          if |o.removed| > 0 || |o.promoted| > 0 {
            changes := changes + 1;
          }
          notified := notified + [c.notify];
        }
      }
      inFlight := false;
    }
  }

  /** Without registrations nothing can be promoted, so looking at the removed keys alone is enough. */
  lemma {:induction false} NothingPromoted(keys: seq<StoredKey>)
    ensures Reconcile(keys, map[], true).promoted == []
  {
    if keys != [] {
      NothingPromoted(keys[..|keys| - 1]);
    }
  }
}
