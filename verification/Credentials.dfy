/** Resolving secrets through two stores that delegate to each other, and moving them from one to the
    other (internal/credential/store.go, lines 117-265 and 334-342, 506-581; internal/config/store.go,
    lines 117-197). */
module Credentials {
  import opened Options
  import opened Settings
  import opened ConfigStore

  datatype Kind = ApiKey | BotToken | OAuth2Client | SshIdentity

  datatype Credential = Credential(kind: Kind, value: string, encrypted: bool)

  /** The key under which a credential is cached; an owner "" stands for a global one. */
  function CacheKey(name: string, owner: string): string {
    if owner == "" then name else name + [0 as char] + owner
  }

  /** Two credentials never share a cache entry, as long as names have no null characters. */
  lemma {:induction false} CacheKeysDiffer(n1: string, o1: string, n2: string, o2: string)
    requires 0 as char !in n1 && 0 as char !in n2 && CacheKey(n1, o1) == CacheKey(n2, o2)
    ensures n1 == n2 && o1 == o2
  {
    var k1, k2 := CacheKey(n1, o1), CacheKey(n2, o2);
    assert (n1 == "") == (k1 == "" || k1[0] == 0 as char);
    assert (n2 == "") == (k2 == "" || k2[0] == 0 as char);
    if n1 == "" {
      assert o1 != "" ==> k1[1..] == o1;
      assert o2 != "" ==> k2[1..] == o2;
    } else {
      assert k1[0] == n1[0] && k2[0] == n2[0];
      assert k1[1..] == CacheKey(n1[1..], o1) && k2[1..] == CacheKey(n2[1..], o2);
      CacheKeysDiffer(n1[1..], o1, n2[1..], o2);
      assert n1 == [n1[0]] + n1[1..] && n2 == [n2[0]] + n2[1..];
    }
  }

  /** What both stores hold, and everything around them that a migration does not change. */
  datatype Vault = Vault(creds: map<string, Credential>, overrides: Overrides)

  datatype Setup = Setup(
    env: string -> string,         // the environment, by credential name; "" for none
    keyring: string -> string,
    base: map<string, string>,
    secrets: set<string>,
    managed: bool,
    crypto: Crypto)

  predicate IsSshName(name: string) { "ssh.identity." <= name }

  // ---------- resolving ----------

  function NonEmpty(s: string): Option<string> { if s == "" then None else Some(s) }

  /** `decrypt`: identities for remote access are never handed out this way. */
  function Decrypted(su: Setup, name: string, c: Credential): Option<string> {
    if c.kind == SshIdentity || IsSshName(name) then None
    else if !c.encrypted || !su.crypto.on then NonEmpty(c.value)
    else
      var text := su.crypto.open(c.value);
      if text.Some? then NonEmpty(text.value) else None
  }

  /** `Get` of the credential store, for a global credential. */
  function Stored(su: Setup, v: Vault, name: string): Option<string> {
    var key := CacheKey(name, "");
    if key in v.creds then Decrypted(su, name, v.creds[key]) else None
  }

  /** `GetWithoutCredentials` of the configuration store. */
  function Configured(su: Setup, v: Vault, key: string): Option<string> {
    Plain(su.crypto, v.overrides, su.base, key)
  }

  /** `Resolve` of the credential store: environment, keyring, credential, configuration. */
  function Resolved(su: Setup, v: Vault, name: string): Option<string> {
    if IsSshName(name) then None
    else if su.env(name) != "" then Some(su.env(name))
    else if su.keyring(name) != "" then Some(su.keyring(name))
    else if Stored(su, v, name).Some? then Stored(su, v, name)
    else
      var c := Configured(su, v, name);
      if c.Some? && c.value != "" then c else None
  }

  /** `GetEffective` of the configuration store. */
  function Effective(su: Setup, v: Vault, key: string): Option<string> {
    var r := Resolved(su, v, key);
    if key in su.secrets && r.Some? && r.value != "" then r else Configured(su, v, key)
  }

  /** The environment comes before the keyring, that before a stored credential, and that before the
      configuration; an empty value never counts, and an identity for remote access is never resolved. */
  lemma Precedence(su: Setup, v: Vault, name: string)
    ensures IsSshName(name) ==> Resolved(su, v, name) == None
    ensures !IsSshName(name) && su.env(name) != "" ==> Resolved(su, v, name) == Some(su.env(name))
    ensures !IsSshName(name) && su.env(name) == "" && su.keyring(name) != "" ==>
              Resolved(su, v, name) == Some(su.keyring(name))
    ensures !IsSshName(name) && su.env(name) == "" && su.keyring(name) == "" && Stored(su, v, name).Some? ==>
              Resolved(su, v, name) == Stored(su, v, name)
    ensures Resolved(su, v, name).Some? ==> Resolved(su, v, name).value != ""
  {
    hide Configured;
  }

  /** Whoever set the environment decides, whatever else is stored. */
  lemma EnvironmentDecides(su: Setup, v: Vault, other: Setup, w: Vault, name: string)
    requires su.env(name) == other.env(name) != "" && name in su.secrets && name in other.secrets && !IsSshName(name)
    ensures Resolved(su, v, name) == Resolved(other, w, name)
    ensures Effective(su, v, name) == Effective(other, w, name) == Some(su.env(name))
  {
    hide Configured, Stored;
  }

  /** A secret is read where it resolves, before any override of the same key; any other key is read from the
      configuration alone. */
  lemma SecretsComeFirst(su: Setup, v: Vault, key: string)
    ensures key in su.secrets && Resolved(su, v, key).Some? ==> Effective(su, v, key) == Resolved(su, v, key)
    ensures key in su.secrets && Resolved(su, v, key).None? ==> Effective(su, v, key) == Configured(su, v, key)
    ensures key !in su.secrets ==> Effective(su, v, key) == Configured(su, v, key)
  {
    Precedence(su, v, key);
    hide Configured, Resolved;
  }

  // ---------- migrating ----------

  predicate HasAt(s: string, part: string, i: nat) { i <= |s| && part <= s[i..] }

  predicate Contains(s: string, part: string) {
    exists i | 0 <= i <= |s| :: HasAt(s, part, i)
  }

  function GuessKind(key: string): (kind: Kind)
    ensures kind != SshIdentity
  {
    if Contains(key, "token") then BotToken
    else if Contains(key, "api_key") then ApiKey
    else if Contains(key, "client_id") || Contains(key, "client_secret") then OAuth2Client
    else ApiKey
  }

  /** What part of a key says about its kind, if the parts before it do not occur. */
  lemma KindsByName(key: string, i: nat)
    requires i <= |key|
    ensures HasAt(key, "token", i) ==> GuessKind(key) == BotToken
    ensures !Contains(key, "token") && HasAt(key, "api_key", i) ==> GuessKind(key) == ApiKey
    ensures !Contains(key, "token") && !Contains(key, "api_key") ==>
              (HasAt(key, "client_id", i) || HasAt(key, "client_secret", i) ==> GuessKind(key) == OAuth2Client)
  {
    hide HasAt;
  }

  /** How storing and deleting go for one key. */
  datatype Weather = Weather(nonce: nat, saves: bool, deletes: bool)

  /** The value a migration would move: the credential store has none to give, the configuration has. */
  function Wanted(su: Setup, v: Vault, key: string): Option<string> {
    var c := Configured(su, v, key);
    if Stored(su, v, key).None? && c.Some? && c.value != "" then c else None
  }

  /** Whether `Set` would store the value. */
  predicate Settable(su: Setup, value: string, w: Weather) {
    !IsPlaceholder(value) && (su.crypto.on ==> su.crypto.seal(value, w.nonce).Some?) && w.saves
  }

  function Sealed(su: Setup, kind: Kind, value: string, w: Weather): Credential
    requires Settable(su, value, w)
  {
    if su.crypto.on then Credential(kind, su.crypto.seal(value, w.nonce).value, true)
    else Credential(kind, value, false)
  }

  predicate Moves(su: Setup, v: Vault, key: string, w: Weather) {
    var wanted := Wanted(su, v, key);
    wanted.Some? && Settable(su, wanted.value, w)
  }

  /** One key of a migration. */
  function Migrated(su: Setup, v: Vault, key: string, w: Weather): Vault {
    if !Moves(su, v, key, w) then v
    else
      Vault(v.creds[CacheKey(key, "") := Sealed(su, GuessKind(key), Wanted(su, v, key).value, w)],
            if !Protected(su.managed, key) && w.deletes then v.overrides - {key} else v.overrides)
  }

  datatype Outcome = Outcome(v: Vault, migrated: nat)

  function MigrateAll(su: Setup, v: Vault, keys: seq<string>, weather: seq<Weather>): Outcome
    requires |weather| == |keys|
  {
    if keys == [] then Outcome(v, 0)
    else
      var n := |keys| - 1;
      var before := MigrateAll(su, v, keys[..n], weather[..n]);
      Outcome(Migrated(su, before.v, keys[n], weather[n]),
              before.migrated + if Moves(su, before.v, keys[n], weather[n]) then 1 else 0)
  }

  // ---------- the credential store ----------

  class CredentialStore {
    const crypto: Crypto
    var cache: map<string, Credential>
    var rows: map<string, Credential>

    constructor (crypto: Crypto, rows: map<string, Credential>)
      ensures this.crypto == crypto && this.rows == rows && cache == rows
    {
      this.crypto, this.rows, cache := crypto, rows, rows;
    }

    method Set(name: string, owner: string, kind: Kind, value: string, w: Weather) returns (ok: bool)
      requires cache == rows
      modifies `cache, `rows
      ensures cache == rows
      ensures ok == (!IsPlaceholder(value) && (crypto.on ==> crypto.seal(value, w.nonce).Some?) && w.saves)
      ensures !ok ==> cache == old(cache)
      ensures ok ==> cache == old(cache)[CacheKey(name, owner) :=
                if crypto.on then Credential(kind, crypto.seal(value, w.nonce).value, true)
                else Credential(kind, value, false)]
    {
      if IsPlaceholder(value) { return false; }
      var stored, encrypted := value, false;
      if crypto.on {
        var sealed := crypto.seal(value, w.nonce);
        if sealed == None { return false; }
        stored, encrypted := sealed.value, true;
      }
      var c := Credential(kind, stored, encrypted);
      if !w.saves { return false; }
      rows := rows[CacheKey(name, owner) := c];
      cache := cache[CacheKey(name, owner) := c];
      return true;
    }
  }

  ghost predicate Wired(su: Setup, creds: CredentialStore, config: Store)
    reads config, creds
  {
    && config.Valid() && creds.cache == creds.rows
    && creds.crypto == config.crypto == su.crypto && config.base == su.base
    && config.secretKeys == su.secrets && config.modelPolicyManaged == su.managed
  }

  method MigrateFromConfigOverrides(su: Setup, creds: CredentialStore, config: Store, keys: seq<string>,
                                    weather: seq<Weather>)
    returns (migrated: nat)
    requires Wired(su, creds, config) && |weather| == |keys|
    modifies creds`cache, creds`rows, config`cache, config`rows
    ensures Wired(su, creds, config)
    ensures Outcome(Vault(creds.cache, config.cache), migrated)
            == MigrateAll(su, Vault(old(creds.cache), old(config.cache)), keys, weather)
  {
    hide Stored, Configured, GuessKind, IsPlaceholder, Protected, Sound;
    ghost var start := Vault(creds.cache, config.cache);
    migrated := 0;
    for i := 0 to |keys|
      invariant Wired(su, creds, config)
      invariant Outcome(Vault(creds.cache, config.cache), migrated) == MigrateAll(su, start, keys[..i], weather[..i])
    {
      assert keys[..i + 1][..i] == keys[..i] && weather[..i + 1][..i] == weather[..i];
      var moved := MigrateOne(su, creds, config, keys[i], weather[i]);
      if moved { migrated := migrated + 1; }
    }
    assert keys[..|keys|] == keys && weather[..|keys|] == weather;
  }

  method MigrateOne(su: Setup, creds: CredentialStore, config: Store, key: string, w: Weather) returns (moved: bool)
    requires Wired(su, creds, config)
    modifies creds`cache, creds`rows, config`cache, config`rows
    ensures Wired(su, creds, config)
    ensures moved == Moves(su, Vault(old(creds.cache), old(config.cache)), key, w)
    ensures Vault(creds.cache, config.cache) == Migrated(su, Vault(old(creds.cache), old(config.cache)), key, w)
  {
    hide Decrypted, GuessKind, IsPlaceholder, Protected, Plain, Sound;
    ghost var was := Vault(creds.cache, config.cache);
    if Stored(su, Vault(creds.cache, config.cache), key).Some? { return false; }
    var val := Plain(config.crypto, config.cache, config.base, key);
    if val == None || val.value == "" { return false; }
    assert Wanted(su, was, key) == val;
    var ok := creds.Set(key, "", GuessKind(key), val.value, w);
    if !ok { return false; }
    var deleted := config.Delete(key, w.deletes);
    return true;
  }

  // ---------- what a migration keeps ----------

  /** What was stored reads back. */
  lemma SealedReadsBack(su: Setup, key: string, value: string, w: Weather)
    requires Sound(su.crypto) && Settable(su, value, w) && !IsSshName(key)
    ensures Decrypted(su, key, Sealed(su, GuessKind(key), value, w)) == Some(value)
  {
    hide IsSshName, Contains;
    assert value != "";
  }

  /** Keys other than the one migrated read as before. */
  lemma OthersUntouched(su: Setup, v: Vault, key: string, w: Weather, other: string)
    requires other != key
    ensures Stored(su, Migrated(su, v, key, w), other) == Stored(su, v, other)
    ensures Configured(su, Migrated(su, v, key, w), other) == Configured(su, v, other)
    ensures Effective(su, Migrated(su, v, key, w), other) == Effective(su, v, other)
  {
    hide Decrypted, GuessKind, IsPlaceholder, Protected, Moves, IsSshName, Wanted, IsModelsKey;
  }

  /** The secret, once moved, resolves to itself; nothing else about the key changes. */
  lemma MovedResolvesAlike(su: Setup, v: Vault, key: string, w: Weather)
    requires Sound(su.crypto) && !IsSshName(key) && key in su.secrets
    ensures Effective(su, Migrated(su, v, key, w), key) == Effective(su, v, key)
    ensures Moves(su, v, key, w) ==> Stored(su, Migrated(su, v, key, w), key) == Wanted(su, v, key)
  {
    hide Decrypted, GuessKind, IsPlaceholder, Protected, IsSshName, Configured, Sealed, Sound;
    if Moves(su, v, key, w) {
      SealedReadsBack(su, key, Wanted(su, v, key).value, w);
    }
  }

  /** Whichever steps fail, a migration changes the effective value of no secret key, save those that name
      an identity for remote access. */
  lemma {:induction false} MigrationPreservesSecrets(su: Setup, v: Vault, keys: seq<string>,
                                                     weather: seq<Weather>, key: string)
    requires Sound(su.crypto) && |weather| == |keys| && !IsSshName(key)
    requires forall k | k in keys :: k in su.secrets
    ensures Effective(su, MigrateAll(su, v, keys, weather).v, key) == Effective(su, v, key)
  {
    hide Effective, Migrated, Moves, IsSshName, Sound;
    if keys != [] {
      var n := |keys| - 1;
      MigrationPreservesSecrets(su, v, keys[..n], weather[..n], key);
      var before := MigrateAll(su, v, keys[..n], weather[..n]).v;
      if keys[n] == key {
        assert key in keys;
        MovedResolvesAlike(su, before, key, weather[n]);
      } else {
        OthersUntouched(su, before, keys[n], weather[n], key);
      }
    }
  }

  /** For an identity key the value changes exactly when its override is moved and deleted and the base
      configuration says otherwise: the credential can never be read back. */
  lemma IdentityKeysRevertToBase(su: Setup, v: Vault, key: string, w: Weather)
    requires IsSshName(key)
    ensures Effective(su, Migrated(su, v, key, w), key) != Effective(su, v, key) <==>
              (Moves(su, v, key, w) && !Protected(su.managed, key) && w.deletes
               && Overriding(su.crypto, v.overrides, key).Some?
               && Overriding(su.crypto, v.overrides, key) != if key in su.base then Some(su.base[key]) else None)
  {
    hide Protected, IsSshName, IsPlaceholder, GuessKind, Settable, Sealed, Reveal, IsModelsKey;
  }

  /** An override goes exactly if its value was moved, it may be deleted, and it could be. */
  lemma OverrideGoes(su: Setup, v: Vault, key: string, w: Weather)
    ensures key in Migrated(su, v, key, w).overrides <==>
              key in v.overrides && !(Moves(su, v, key, w) && !Protected(su.managed, key) && w.deletes)
    ensures key in Migrated(su, v, key, w).overrides ==>
              Migrated(su, v, key, w).overrides[key] == v.overrides[key]
  {
    hide Moves, Protected;
  }

  /** A migration never takes away an override of a protected model setting. */
  lemma {:induction false} ProtectedOverridesStay(su: Setup, v: Vault, keys: seq<string>, weather: seq<Weather>,
                                                  key: string)
    requires |weather| == |keys| && Protected(su.managed, key)
    ensures var after := MigrateAll(su, v, keys, weather).v.overrides;
            && (key in after <==> key in v.overrides)
            && (key in after ==> after[key] == v.overrides[key])
  {
    hide Moves, Protected, Sealed, Wanted, GuessKind, Settable;
    if keys != [] { ProtectedOverridesStay(su, v, keys[..|keys| - 1], weather[..|keys| - 1], key); }
  }

  // ---------- migrating again ----------

  ghost predicate NothingWanted(su: Setup, v: Vault, keys: seq<string>) {
    forall k | k in keys :: Wanted(su, v, k).None?
  }

  /** Every value that was to be moved was stored. */
  ghost predicate AllMoved(su: Setup, v: Vault, keys: seq<string>, weather: seq<Weather>)
    requires |weather| == |keys|
  {
    forall i | 0 <= i < |keys| ::
      var before := MigrateAll(su, v, keys[..i], weather[..i]).v;
      Wanted(su, before, keys[i]).Some? ==> Moves(su, before, keys[i], weather[i])
  }

  /** A run that has nothing to move changes nothing. */
  lemma {:induction false} IdleRun(su: Setup, v: Vault, keys: seq<string>, weather: seq<Weather>)
    requires |weather| == |keys| && NothingWanted(su, v, keys)
    ensures MigrateAll(su, v, keys, weather) == Outcome(v, 0)
  {
    hide Wanted, Settable, Migrated;
    if keys != [] {
      var n := |keys| - 1;
      assert forall k | k in keys[..n] :: k in keys;
      IdleRun(su, v, keys[..n], weather[..n]);
      assert keys[n] in keys;
      NotMoved(su, v, keys[n], weather[n]);
    }
  }

  lemma NotMoved(su: Setup, v: Vault, key: string, w: Weather)
    requires Wanted(su, v, key).None?
    ensures !Moves(su, v, key, w) && Migrated(su, v, key, w) == v
  {
  }

  lemma AllMovedFront(su: Setup, v: Vault, keys: seq<string>, weather: seq<Weather>)
    requires |weather| == |keys| && keys != [] && AllMoved(su, v, keys, weather)
    ensures AllMoved(su, v, keys[..|keys| - 1], weather[..|keys| - 1])
    ensures var n := |keys| - 1;
            var before := MigrateAll(su, v, keys[..n], weather[..n]).v;
            Wanted(su, before, keys[n]).Some? ==> Moves(su, before, keys[n], weather[n])
  {
    hide MigrateAll, Moves, Wanted;
    var n := |keys| - 1;
    forall i | 0 <= i < n ensures keys[..n][..i] == keys[..i] && weather[..n][..i] == weather[..i] {
    }
  }

  /** A key that is moved, or not wanted, is not wanted afterwards. */
  lemma NotWantedTwice(su: Setup, v: Vault, key: string, w: Weather)
    requires Sound(su.crypto) && key in su.secrets && !IsSshName(key)
    requires Wanted(su, v, key).Some? ==> Moves(su, v, key, w)
    ensures Wanted(su, Migrated(su, v, key, w), key).None?
  {
    hide Migrated, Stored, Configured, IsSshName, Sound, Settable;
    if Wanted(su, v, key).None? {
      NotMoved(su, v, key, w);
    } else {
      MovedResolvesAlike(su, v, key, w);
    }
  }

  lemma OthersWantedAlike(su: Setup, v: Vault, key: string, w: Weather, other: string)
    requires other != key
    ensures Wanted(su, Migrated(su, v, key, w), other) == Wanted(su, v, other)
  {
    hide Migrated, Stored, Configured;
    OthersUntouched(su, v, key, w, other);
  }

  /** After a migration that stored all it wanted, no key is wanted but identity keys that still read. */
  lemma {:induction false} WantedAfterwards(su: Setup, v: Vault, keys: seq<string>, weather: seq<Weather>, key: string)
    requires Sound(su.crypto) && |weather| == |keys| && AllMoved(su, v, keys, weather)
    requires key in keys && key in su.secrets && !IsSshName(key)
    ensures Wanted(su, MigrateAll(su, v, keys, weather).v, key).None?
  {
    hide Migrated, Moves, Wanted, IsSshName, Sound, AllMoved;
    var n := |keys| - 1;
    var before := MigrateAll(su, v, keys[..n], weather[..n]).v;
    AllMovedFront(su, v, keys, weather);
    if keys[n] == key {
      NotWantedTwice(su, before, key, weather[n]);
    } else {
      assert key in keys[..n];
      WantedAfterwards(su, v, keys[..n], weather[..n], key);
      OthersWantedAlike(su, before, keys[n], weather[n], key);
    }
  }

  /** After a migration that stored all it wanted, another one has nothing to do if and only if no identity
      key among the secrets still reads a value; otherwise it moves such a key over and over. */
  lemma SecondMigration(su: Setup, v: Vault, keys: seq<string>, weather: seq<Weather>, again: seq<Weather>)
    requires Sound(su.crypto) && |weather| == |again| == |keys| && AllMoved(su, v, keys, weather)
    requires forall k | k in keys :: k in su.secrets
    ensures var after := MigrateAll(su, v, keys, weather).v;
            && (NothingWanted(su, after, keys) <==>
                forall k | k in keys && IsSshName(k) :: Configured(su, after, k) in {None, Some("")})
            && (NothingWanted(su, after, keys) ==> MigrateAll(su, after, keys, again) == Outcome(after, 0))
  {
    hide MigrateAll, Configured, IsSshName, AllMoved, Sound;
    var after := MigrateAll(su, v, keys, weather).v;
    forall k | k in keys
      ensures Wanted(su, after, k).None? <==> (IsSshName(k) ==> Configured(su, after, k) in {None, Some("")})
    {
      if IsSshName(k) {
        NeverStored(su, after, k);
      } else {
        WantedAfterwards(su, v, keys, weather, k);
      }
    }
    if NothingWanted(su, after, keys) { IdleRun(su, after, keys, again); }
  }

  lemma NeverStored(su: Setup, v: Vault, name: string)
    requires IsSshName(name)
    ensures Stored(su, v, name).None? && Resolved(su, v, name).None?
  {
    hide IsSshName;
  }

  // ---------- what the comment on the migration leaves out ----------

  /** The comment: only keys with an override are migrated, and only if there is no credential yet. */
  ghost predicate AsCommented(su: Setup, v: Vault, key: string) {
    forall w :: Moves(su, v, key, w) ==> key in v.overrides && CacheKey(key, "") !in v.creds
  }

  /** Some attempt to store the value would succeed. */
  ghost predicate Storable(su: Setup, value: string) {
    exists w :: Settable(su, value, w)
  }

  /** The migration keeps to its comment for a key exactly if the key has an override and no credential, or
      its credential can be read, or the configuration has nothing for it that could be stored: it also
      copies base values and replaces credentials that cannot be read. */
  lemma CommentHolds(su: Setup, v: Vault, key: string)
    ensures AsCommented(su, v, key) <==>
              || (key in v.overrides && CacheKey(key, "") !in v.creds)
              || Stored(su, v, key).Some?
              || Configured(su, v, key) in {None, Some("")}
              || !Storable(su, Configured(su, v, key).value)
  {
    hide Configured, Stored, Settable;
    var c := Configured(su, v, key);
    if Stored(su, v, key).None? && c !in {None, Some("")} && Storable(su, c.value) {
      var w :| Settable(su, c.value, w);
      assert Moves(su, v, key, w);
    }
  }

  /** Without encryption, with nothing in the environment or the keyring. */
  function Bare(base: map<string, string>, secrets: set<string>): (su: Setup)
    ensures Sound(su.crypto)
  {
    Setup(n => "", n => "", base, secrets, false, Crypto(false, (s, n) => None, s => None))
  }

  const EASY := Weather(0, true, true)

  /** A value of the base configuration becomes a credential. */
  lemma BaseValueIsCopied()
    ensures var su, v := Bare(map["k" := "v"], {"k"}), Vault(map[], map[]);
            !AsCommented(su, v, "k") && Migrated(su, v, "k", EASY).creds == map["k" := Credential(ApiKey, "v", false)]
  {
    hide Contains;
    var su, v := Bare(map["k" := "v"], {"k"}), Vault(map[], map[]);
    NoKind("k");
    assert Moves(su, v, "k", EASY);
  }

  lemma NoKind(key: string)
    requires |key| == 1
    ensures GuessKind(key) == ApiKey
  {
  }

  /** An encryptor that cannot open what an earlier key has sealed. */
  const ROTATED := Crypto(true, (s: string, n: nat) => Some("n" + s), c => if "n" <= c then Some(c[1..]) else None)

  lemma RotatedIsSound()
    ensures Sound(ROTATED) && ROTATED.open("old") == None
  {
    assert "old"[0] == 'o';
    forall s: string, n: nat ensures ROTATED.open(ROTATED.seal(s, n).value) == Some(s) {
      assert ("n" + s)[1..] == s;
    }
  }

  /** A credential sealed under a lost key is overwritten by the configured value. */
  lemma UnreadableIsReplaced()
    ensures var su := Bare(map[], {"k"}).(crypto := ROTATED);
            var v := Vault(map["k" := Credential(ApiKey, "old", true)], map["k" := Override("v", false)]);
            && Sound(su.crypto) && !AsCommented(su, v, "k")
            && Migrated(su, v, "k", EASY).creds == map["k" := Credential(ApiKey, "nv", true)]
  {
    hide Contains;
    var su := Bare(map[], {"k"}).(crypto := ROTATED);
    var v := Vault(map["k" := Credential(ApiKey, "old", true)], map["k" := Override("v", false)]);
    NoKind("k");
    RotatedIsSound();
    assert Moves(su, v, "k", EASY);
    assert "n" + "v" == "nv";
    assert Sealed(su, ApiKey, "v", EASY) == Credential(ApiKey, "nv", true);
    assert CacheKey("k", "") in v.creds;
  }

  // ---------- identity keys over a whole migration ----------

  /** What happens to other keys leaves a key's override and credential alone. */
  lemma {:induction false} KeptByOthers(su: Setup, v: Vault, keys: seq<string>, weather: seq<Weather>, key: string)
    requires |weather| == |keys| && key !in keys
    ensures var after := MigrateAll(su, v, keys, weather).v;
            && Stored(su, after, key) == Stored(su, v, key) && Configured(su, after, key) == Configured(su, v, key)
            && Effective(su, after, key) == Effective(su, v, key)
            && Overriding(su.crypto, after.overrides, key) == Overriding(su.crypto, v.overrides, key)
  {
    hide Stored, Configured, Effective, Overriding, Migrated, Moves;
    if keys != [] {
      var n := |keys| - 1;
      KeptByOthers(su, v, keys[..n], weather[..n], key);
      var before := MigrateAll(su, v, keys[..n], weather[..n]).v;
      OthersUntouched(su, before, keys[n], weather[n], key);
      OverrideUntouched(su, before, keys[n], weather[n], key);
    }
  }

  lemma OverrideUntouched(su: Setup, v: Vault, key: string, w: Weather, other: string)
    requires other != key
    ensures Overriding(su.crypto, Migrated(su, v, key, w).overrides, other) == Overriding(su.crypto, v.overrides, other)
  {
    hide Moves, Protected, IsModelsKey, Reveal;
  }

  /** Over a whole migration an identity key among the secrets falls back to the base configuration exactly
      when its turn moves it, its override is deleted, and the override could be read and said otherwise. */
  lemma {:induction false} MigrationRevertsIdentities(su: Setup, v: Vault, keys: seq<string>,
                                                      weather: seq<Weather>, i: nat)
    requires |weather| == |keys| && i < |keys| && IsSshName(keys[i])
    requires forall a, b | 0 <= a < b < |keys| :: keys[a] != keys[b]
    ensures Effective(su, MigrateAll(su, v, keys, weather).v, keys[i]) != Effective(su, v, keys[i]) <==>
              (Moves(su, v, keys[i], weather[i]) && !Protected(su.managed, keys[i]) && weather[i].deletes
               && Overriding(su.crypto, v.overrides, keys[i]).Some?
               && Overriding(su.crypto, v.overrides, keys[i]) !=
                  if keys[i] in su.base then Some(su.base[keys[i]]) else None)
  {
    hide Stored, Configured, Effective, Overriding, Migrated, Protected, IsSshName, Settable;
    var n, key := |keys| - 1, keys[i];
    var before := MigrateAll(su, v, keys[..n], weather[..n]).v;
    if i < n {
      MigrationRevertsIdentities(su, v, keys[..n], weather[..n], i);
      OthersUntouched(su, before, keys[n], weather[n], key);
    } else {
      KeptByOthers(su, v, keys[..n], weather[..n], key);
      IdentityKeysRevertToBase(su, before, key, weather[n]);
    }
  }

  const IDENTITY := "ssh.identity.a"

  lemma IdentityIsPlain()
    ensures IsSshName(IDENTITY) && !IsModelsKey(IDENTITY) && !UnderModelPolicy(IDENTITY)
  {
    assert IDENTITY[0] == 's';
  }

  /** An identity whose only value is an override is gone after a migration in which nothing failed. */
  lemma AnIdentityIsLost()
    ensures var su, v := Bare(map[], {IDENTITY}), Vault(map[], map[IDENTITY := Override("v", false)]);
            && Effective(su, v, IDENTITY) == Some("v")
            && Effective(su, MigrateAll(su, v, [IDENTITY], [EASY]).v, IDENTITY) == None
  {
    IdentityIsPlain();
    hide IsSshName, IsModelsKey, UnderModelPolicy, Contains;
    var su, v := Bare(map[], {IDENTITY}), Vault(map[], map[IDENTITY := Override("v", false)]);
    assert Moves(su, v, IDENTITY, EASY);
    assert MigrateAll(su, v, [], []).v == v && [IDENTITY][..0] == [] && [EASY][..0] == [];
    assert MigrateAll(su, v, [IDENTITY], [EASY]).v == Migrated(su, v, IDENTITY, EASY);
  }

  /** An identity in the base configuration is migrated again by every run. */
  lemma AnIdentityMovesAgain()
    ensures var su, v := Bare(map[IDENTITY := "v"], {IDENTITY}), Vault(map[], map[]);
            var after := Migrated(su, v, IDENTITY, EASY);
            Moves(su, v, IDENTITY, EASY) && Moves(su, after, IDENTITY, EASY)
  {
    IdentityIsPlain();
    hide IsSshName, IsModelsKey, UnderModelPolicy, Contains;
  }
}
