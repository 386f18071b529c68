/** The latch that closes the legacy writers of model settings (internal/config/store.go, lines 376-408,
    468-488 and 546-555), as a state machine at the granularity of its locks: writers hold the model lock
    shared from their check to their last write, the latch takes it exclusively. */
module ModelLatch {
  import opened Settings

  /** A write on its way: what it does to a key, and how far it is. */
  datatype Write = Put(key: string, o: Override) | Remove(key: string)

  datatype Phase = Entered | Checked | InRows | Done

  datatype Writer = Writer(write: Write, phase: Phase)

  datatype Latch = Open | Holding | Closed   // not called; holding the lock; returned

  datatype State = State(rows: Overrides, cache: Overrides, managed: bool, latch: Latch, writers: seq<Writer>)

  datatype Action =
    | Begin(write: Write)           // take the lock shared
    | Check(k: nat)                 // proceed, or give up on a protected key
    | WriteRow(k: nat, fails: bool)
    | WriteCache(k: nat)
    | Leave(k: nat)
    | TakeLatch
    | SetManaged
    | ReleaseLatch

  /** `locked` says whether the latch waits for the writers; the code always does. */
  predicate Enabled(locked: bool, s: State, a: Action) {
    match a
    case Begin(_) => !s.latch.Holding?
    case Check(k) => k < |s.writers| && s.writers[k].phase.Entered?
    case WriteRow(k, _) => k < |s.writers| && s.writers[k].phase.Checked?
    case WriteCache(k) => k < |s.writers| && s.writers[k].phase.InRows?
    case Leave(k) => k < |s.writers| && s.writers[k].phase.Done?
    case TakeLatch => !s.latch.Holding? && (locked ==> s.writers == [])
    case SetManaged => s.latch.Holding?
    case ReleaseLatch => s.latch.Holding? && s.managed
  }

  function Apply(m: Overrides, w: Write): Overrides {
    match w
    case Put(key, o) => m[key := o]
    case Remove(key) => m - {key}
  }

  function Advance(s: State, k: nat, phase: Phase): State
    requires k < |s.writers|
  {
    s.(writers := s.writers[k := s.writers[k].(phase := phase)])
  }

  function Next(s: State, a: Action): State
    requires Enabled(false, s, a)
  {
    match a
    case Begin(w) => s.(writers := s.writers + [Writer(w, Entered)])
    case Check(k) => Advance(s, k, if Protected(s.managed, s.writers[k].write.key) then Done else Checked)
    case WriteRow(k, fails) =>
      if fails then Advance(s, k, Done)
      else Advance(s, k, InRows).(rows := Apply(s.rows, s.writers[k].write))
    case WriteCache(k) => Advance(s, k, Done).(cache := Apply(s.cache, s.writers[k].write))
    case Leave(k) => s.(writers := s.writers[..k] + s.writers[k + 1..])
    case TakeLatch => s.(latch := Holding)
    case SetManaged => s.(managed := true)
    case ReleaseLatch => s.(latch := Closed)
  }

  ghost predicate Path(locked: bool, s: State, actions: seq<Action>, t: State)
    decreases |actions|
  {
    if actions == [] then s == t
    else Enabled(locked, s, actions[0]) && Path(locked, Next(s, actions[0]), actions[1..], t)
  }

  /** No writer past its check is on a protected key, and while the latch is held there is none at all. */
  ghost predicate Inv(s: State) {
    && (s.latch.Holding? ==> s.writers == [])
    && forall k | 0 <= k < |s.writers| :: Authorised(s.managed, s.writers[k])
  }

  predicate Authorised(managed: bool, w: Writer) {
    w.phase.Checked? || w.phase.InRows? ==> !Protected(managed, w.write.key)
  }

  lemma StepKeepsInv(s: State, a: Action)
    requires Inv(s) && Enabled(true, s, a)
    ensures Inv(Next(s, a))
  {
    hide Protected;
    forall k | 0 <= k < |Next(s, a).writers| ensures Authorised(Next(s, a).managed, Next(s, a).writers[k]) {
      if !a.SetManaged? && k < |s.writers| { assert Authorised(s.managed, s.writers[k]); }
      if a.Leave? && k + 1 < |s.writers| { assert Authorised(s.managed, s.writers[k + 1]); }
    }
  }

  /** The same value, or the same absence. */
  predicate SameAt(m: Overrides, n: Overrides, key: string) {
    (key in m <==> key in n) && (key in m ==> m[key] == n[key])
  }

  lemma StepSparesProtected(s: State, a: Action, key: string)
    requires Inv(s) && Enabled(true, s, a) && Protected(s.managed, key)
    ensures SameAt(s.rows, Next(s, a).rows, key) && SameAt(s.cache, Next(s, a).cache, key)
    ensures Protected(Next(s, a).managed, key)
  {
    hide IsActionLimit, IsModelsKey, UnderModelPolicy;
    if a.WriteRow? || a.WriteCache? {
      assert Authorised(s.managed, s.writers[a.k]);
    }
  }

  /** From a moment at which a key is protected, no interleaving of writers and latch changes its row or
      its cache entry. */
  lemma {:induction false} ProtectedKeysAreFrozen(s: State, actions: seq<Action>, t: State, key: string)
    requires Inv(s) && Path(true, s, actions, t) && Protected(s.managed, key)
    ensures Inv(t) && SameAt(s.rows, t.rows, key) && SameAt(s.cache, t.cache, key)
    decreases |actions|
  {
    hide Protected;
    if actions != [] {
      StepKeepsInv(s, actions[0]);
      StepSparesProtected(s, actions[0], key);
      ProtectedKeysAreFrozen(Next(s, actions[0]), actions[1..], t, key);
    }
  }

  function Start(overrides: Overrides): State { State(overrides, overrides, false, Open, []) }

  lemma {:induction false} PathKeepsInv(s: State, actions: seq<Action>, t: State)
    requires Inv(s) && Path(true, s, actions, t)
    ensures Inv(t)
    decreases |actions|
  {
    if actions != [] {
      StepKeepsInv(s, actions[0]);
      PathKeepsInv(Next(s, actions[0]), actions[1..], t);
    }
  }

  /** Once the latch has taken effect, the keys of the model policy stay as they are, in every run. */
  lemma LatchCloses(overrides: Overrides, before: seq<Action>, s: State, after: seq<Action>, t: State, key: string)
    requires Path(true, Start(overrides), before, s) && s.managed && Path(true, s, after, t)
    requires UnderModelPolicy(key) && !IsActionLimit(key)
    ensures SameAt(s.rows, t.rows, key) && SameAt(s.cache, t.cache, key)
  {
    hide IsActionLimit, UnderModelPolicy, IsModelsKey;
    PathKeepsInv(Start(overrides), before, s);
    ProtectedKeysAreFrozen(s, after, t, key);
  }

  /** The keys of the managed settings are never written by a legacy writer, latch or no latch. */
  lemma ModelsKeysAreNeverWritten(overrides: Overrides, actions: seq<Action>, t: State, key: string)
    requires Path(true, Start(overrides), actions, t) && IsModelsKey(key)
    ensures SameAt(overrides, t.rows, key) && SameAt(overrides, t.cache, key)
  {
    ModelsKeysAlwaysProtected(false, key);
    ProtectedKeysAreFrozen(Start(overrides), actions, t, key);
  }

  lemma FirstStep(locked: bool, s: State, a: Action, rest: seq<Action>, t: State) returns (actions: seq<Action>)
    requires Enabled(locked, s, a) && Path(locked, Next(s, a), rest, t)
    ensures Path(locked, s, actions, t)
  {
    hide Protected;
    actions := [a] + rest;
    assert actions[1..] == rest;
  }

  lemma NoStep(locked: bool, s: State)
    ensures Path(locked, s, [], s)
  {
  }

  ghost predicate Reaches(s: State, t: State) { exists actions :: Path(true, s, actions, t) }

  /** A writer on its own: a protected key or a failed save leaves everything as it is, any other write
      reaches the rows and then the cache. */
  lemma WriterAlone(s: State, w: Write, fails: bool)
    requires s.writers == [] && !s.latch.Holding?
    ensures Reaches(s, if Protected(s.managed, w.key) || fails then s
                       else s.(rows := Apply(s.rows, w), cache := Apply(s.cache, w)))
  {
    hide Protected, Path;
    var s1 := Next(s, Begin(w));
    var s2 := Next(s1, Check(0));
    var actions, t;
    if Protected(s.managed, w.key) {
      t := Next(s2, Leave(0));
      NoStep(true, t);
      actions := FirstStep(true, s2, Leave(0), [], t);
    } else {
      var s3 := Next(s2, WriteRow(0, fails));
      var s4 := if fails then s3 else Next(s3, WriteCache(0));
      t := Next(s4, Leave(0));
      NoStep(true, t);
      actions := FirstStep(true, s4, Leave(0), [], t);
      if !fails { actions := FirstStep(true, s3, WriteCache(0), actions, t); }
      actions := FirstStep(true, s2, WriteRow(0, fails), actions, t);
    }
    actions := FirstStep(true, s1, Check(0), actions, t);
    actions := FirstStep(true, s, Begin(w), actions, t);
    assert t.writers == [];
  }

  /** A call that is refused without a write. */
  lemma RefusedAlone(s: State)
    ensures Reaches(s, s)
  {
    NoStep(true, s);
  }

  /** The latch on its own. */
  lemma LatchAlone(s: State)
    requires s.writers == [] && !s.latch.Holding?
    ensures Reaches(s, s.(managed := true, latch := Closed))
  {
    hide Path;
    var s1 := Next(s, TakeLatch);
    var s2 := Next(s1, SetManaged);
    var t := Next(s2, ReleaseLatch);
    NoStep(true, t);
    var actions := FirstStep(true, s2, ReleaseLatch, [], t);
    actions := FirstStep(true, s1, SetManaged, actions, t);
    actions := FirstStep(true, s, TakeLatch, actions, t);
  }

  /** Without the exclusive lock the latch does not close: a writer that has checked can still write after
      the latch has returned. */
  lemma TheLockIsNeeded(key: string, o: Override)
    returns (before: seq<Action>, s: State, after: seq<Action>, t: State)
    requires UnderModelPolicy(key) && !IsActionLimit(key)
    ensures Path(false, Start(map[]), before, s) && s.managed && s.latch.Closed? && Path(false, s, after, t)
    ensures Protected(true, key) && key !in s.rows && key in t.rows
  {
    hide IsActionLimit, UnderModelPolicy, IsModelsKey, Path;
    if IsModelsKey(key) { ModelsKeysAlwaysProtected(false, key); }
    var s1 := Next(Start(map[]), Begin(Put(key, o)));
    var s2 := Next(s1, Check(0));
    var s3 := Next(s2, TakeLatch);
    var s4 := Next(s3, SetManaged);
    s := Next(s4, ReleaseLatch);
    t := Next(s, WriteRow(0, false));
    NoStep(false, s);
    before := FirstStep(false, s4, ReleaseLatch, [], s);
    before := FirstStep(false, s3, SetManaged, before, s);
    before := FirstStep(false, s2, TakeLatch, before, s);
    before := FirstStep(false, s1, Check(0), before, s);
    before := FirstStep(false, Start(map[]), Begin(Put(key, o)), before, s);
    NoStep(false, t);
    after := FirstStep(false, s, WriteRow(0, false), [], t);
  }
}
