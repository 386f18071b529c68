/** Configuration overrides, how they are read, and which of them may be written
    (internal/config/store.go, lines 117-169 and 556-576). */
module Settings {
  import opened Options

  /** The encryptor, if there is one: sealing uses a fresh nonce and may fail, so may opening. */
  datatype Crypto = Crypto(on: bool, seal: (string, nat) -> Option<string>, open: string -> Option<string>)

  /** Opening inverts sealing. */
  ghost predicate Sound(crypto: Crypto) {
    forall v: string, n: nat :: crypto.seal(v, n).Some? ==> crypto.open(crypto.seal(v, n).value) == Some(v)
  }

  datatype Override = Override(value: string, encrypted: bool)

  type Overrides = map<string, Override>

  // ---------- reading ----------

  /** The plain text of an override; none without the means to decrypt it. */
  function Reveal(crypto: Crypto, o: Override): Option<string> {
    if !o.encrypted then Some(o.value) else if crypto.on then crypto.open(o.value) else None
  }

  predicate IsModelsKey(key: string) { "models." <= key }

  /** `Get`: the override alone; managed model settings are never readable as overrides. */
  function Overriding(crypto: Crypto, cache: Overrides, key: string): Option<string> {
    if IsModelsKey(key) || key !in cache then None else Reveal(crypto, cache[key])
  }

  /** `GetWithoutCredentials`: the override, else the base configuration. */
  function Plain(crypto: Crypto, cache: Overrides, base: map<string, string>, key: string): Option<string> {
    var o := Overriding(crypto, cache, key);
    if o.Some? then o else if key in base then Some(base[key]) else None
  }

  /** An override that can be read wins over the base configuration; one that cannot, or that is for managed
      model settings, counts for nothing. */
  lemma OverrideWins(crypto: Crypto, cache: Overrides, base: map<string, string>, key: string)
    ensures !IsModelsKey(key) && key in cache && !cache[key].encrypted ==>
              Plain(crypto, cache, base, key) == Some(cache[key].value)
    ensures !IsModelsKey(key) && key in cache && cache[key].encrypted && crypto.on
            && crypto.open(cache[key].value).Some? ==>
              Plain(crypto, cache, base, key) == crypto.open(cache[key].value)
    ensures IsModelsKey(key) || key !in cache
            || (cache[key].encrypted && (!crypto.on || crypto.open(cache[key].value).None?)) ==>
              Plain(crypto, cache, base, key) == if key in base then Some(base[key]) else None
  {
  }

  // ---------- who may write ----------

  predicate UnderModelPolicy(key: string) {
    || "claude." <= key || "openai." <= key || "deepseek." <= key || "zai." <= key || "ollama." <= key
    || "routing." <= key
  }

  predicate IsActionLimit(key: string) { key == "routing.max_actions_per_hour" }

  /** Whether a setter would bypass the managed model settings. */
  predicate Protected(managed: bool, key: string) {
    !IsActionLimit(key) && (IsModelsKey(key) || (managed && UnderModelPolicy(key)))
  }

  lemma ModelsKeysAlwaysProtected(managed: bool, key: string)
    requires IsModelsKey(key)
    ensures Protected(managed, key) && !UnderModelPolicy(key)
  {
    assert key[0] == 'm';
  }
}
