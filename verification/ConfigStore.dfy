/** The store of configuration overrides (internal/config/store.go, lines 380-488 and 546-555).  Each method,
    on its own, is a run of the machine in `ModelLatch`. */
module ConfigStore {
  import opened Options
  import opened Settings
  import opened ModelLatch

  datatype Refusal = Managed | RestartOnly | UnknownKey | NotBoolean | Placeholder | NotSealed | NotSaved

  predicate IsTranslateSwitch(key: string) { key == "skills.translate.enabled" }

  predicate IsBoolean(value: string) { value == "true" || value == "false" }

  predicate IsPlaceholder(value: string) { value == "" || value == "***" }

  class Store {
    const base: map<string, string>
    const crypto: Crypto
    const core: set<string>          // keys that can be overridden at run time
    const restartOnly: set<string>   // keys that take effect after a restart only
    var cache: Overrides
    var rows: Overrides              // the table in the database
    var secretKeys: set<string>
    var dynamicKeys: set<string>
    var modelPolicyManaged: bool

    /** The store between two calls, as a state of the machine. */
    ghost function View(): State
      reads this
    {
      State(rows, cache, modelPolicyManaged, if modelPolicyManaged then Closed else Open, [])
    }

    /** What is in memory is what is in the database. */
    ghost predicate Valid()
      reads this
    {
      Sound(crypto) && cache == rows
    }

    constructor (base: map<string, string>, crypto: Crypto, core: set<string>, restartOnly: set<string>,
                 rows: Overrides)
      requires Sound(crypto)
      ensures Valid() && cache == rows && !modelPolicyManaged && secretKeys == {} && dynamicKeys == {}
      ensures this.base == base && this.crypto == crypto && this.core == core && this.restartOnly == restartOnly
    {
      this.base, this.crypto, this.core, this.restartOnly := base, crypto, core, restartOnly;
      this.rows, cache := rows, rows;
      secretKeys, dynamicKeys, modelPolicyManaged := {}, {}, false;
    }

    predicate Known(key: string)
      reads this
    {
      key in core || key in dynamicKeys
    }

    /** What it takes for a value to be stored, wherever it is set. */
    predicate Storable(key: string, value: string, encrypt: bool, nonce: nat, saves: bool)
      reads this
    {
      && (IsTranslateSwitch(key) ==> IsBoolean(value))
      && (encrypt || key in secretKeys ==>
            !IsPlaceholder(value) && (crypto.on ==> crypto.seal(value, nonce).Some?))
      && saves
    }

    /** A new value for a key: it reads back as written, is encrypted if it is secret and can be, and
        nothing else changes. */
    twostate predicate Written(key: string, value: string, encrypt: bool)
      reads this
    {
      && key in cache && Reveal(crypto, cache[key]) == Some(value)
      && cache[key].encrypted == ((encrypt || key in secretKeys) && crypto.on)
      && cache == old(cache)[key := cache[key]] && rows == old(rows)[key := cache[key]]
    }

    method DoSet(key: string, value: string, encrypt: bool, nonce: nat, saves: bool) returns (err: Option<Refusal>)
      requires Valid()
      modifies `cache, `rows
      ensures Valid()
      ensures err == None ==> Written(key, value, encrypt)
      ensures err != None ==> cache == old(cache) && rows == old(rows)
      ensures err == None <==> Storable(key, value, encrypt, nonce, saves)
      ensures err.Some? ==> err.value in {NotBoolean, Placeholder, NotSealed, NotSaved}
    {
      hide IsTranslateSwitch, IsBoolean, IsPlaceholder;
      if IsTranslateSwitch(key) && !IsBoolean(value) { return Some(NotBoolean); }
      var seals := encrypt;
      if key in secretKeys { seals := true; }
      if seals && IsPlaceholder(value) { return Some(Placeholder); }
      if seals && !crypto.on { seals := false; }
      var stored := value;
      if seals {
        var sealed := crypto.seal(value, nonce);
        if sealed == None { return Some(NotSealed); }
        stored := sealed.value;
      }
      var o := Override(stored, seals);
      if !saves { return Some(NotSaved); }
      rows := rows[key := o];
      cache := cache[key := o];
      return None;
    }

    method Set(key: string, value: string, encrypt: bool, nonce: nat, saves: bool) returns (err: Option<Refusal>)
      requires Valid()
      modifies `cache, `rows
      ensures Valid() && Reaches(old(View()), View())
      ensures err == None ==> Written(key, value, encrypt)
      ensures err != None ==> cache == old(cache) && rows == old(rows)
      ensures err == None <==> (!Protected(modelPolicyManaged, key) && key !in restartOnly && Known(key)
                                && Storable(key, value, encrypt, nonce, saves))
      ensures err == Some(Managed) <==> Protected(modelPolicyManaged, key)
      ensures err == Some(RestartOnly) <==> !Protected(modelPolicyManaged, key) && key in restartOnly
      ensures err == Some(UnknownKey) <==> !Protected(modelPolicyManaged, key) && key !in restartOnly && !Known(key)
    {
      hide Protected, Reaches;
      ghost var start := View();
      RefusedAlone(start);
      if Protected(modelPolicyManaged, key) { return Some(Managed); }
      if key in restartOnly { return Some(RestartOnly); }
      if !Known(key) { return Some(UnknownKey); }
      err := DoSet(key, value, encrypt, nonce, saves);
      if err == None { WriterAlone(start, Put(key, cache[key]), false); }
    }

    /** The import wizard may also write keys that need a restart. */
    method SetForImport(key: string, value: string, encrypt: bool, nonce: nat, saves: bool)
      returns (err: Option<Refusal>)
      requires Valid()
      modifies `cache, `rows
      ensures Valid() && Reaches(old(View()), View())
      ensures err == None ==> Written(key, value, encrypt)
      ensures err != None ==> cache == old(cache) && rows == old(rows)
      ensures err == None <==> (!Protected(modelPolicyManaged, key) && (Known(key) || key in restartOnly)
                                && Storable(key, value, encrypt, nonce, saves))
      ensures err == Some(Managed) <==> Protected(modelPolicyManaged, key)
      ensures err == Some(UnknownKey) <==> !Protected(modelPolicyManaged, key) && key !in restartOnly && !Known(key)
    {
      hide Protected, Reaches;
      ghost var start := View();
      RefusedAlone(start);
      if Protected(modelPolicyManaged, key) { return Some(Managed); }
      if !Known(key) && key !in restartOnly && key !in core { return Some(UnknownKey); }
      err := DoSet(key, value, encrypt, nonce, saves);
      if err == None { WriterAlone(start, Put(key, cache[key]), false); }
    }

    /** Afterwards the key reads as the base configuration has it. */
    method Delete(key: string, deletes: bool) returns (ok: bool)
      requires Valid()
      modifies `cache, `rows
      ensures Valid() && Reaches(old(View()), View())
      ensures ok == (!Protected(modelPolicyManaged, key) && deletes)
      ensures cache == if ok then old(cache) - {key} else old(cache)
      ensures ok ==> Plain(crypto, cache, base, key) == if key in base then Some(base[key]) else None
    {
      hide Protected, Reaches;
      ghost var start := View();
      WriterAlone(start, Remove(key), !deletes);
      if Protected(modelPolicyManaged, key) { return false; }
      if !deletes { return false; }
      rows := rows - {key};
      cache := cache - {key};
      return true;
    }

    method SetModelPolicyManaged()
      modifies `modelPolicyManaged
      ensures modelPolicyManaged
      ensures Reaches(old(View()), View())
    {
      LatchAlone(View());
      modelPolicyManaged := true;
    }
  }
}
